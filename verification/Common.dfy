/** Shared vocabulary: optional values, Go's 64-bit integers, and sums over finite key sets. */
module Common {

  datatype Option<+T> = None | Some(value: T)

  datatype Result<+T, +E> = Ok(value: T) | Err(error: E)

  const TWO63: int := 0x8000_0000_0000_0000
  const TWO64: int := 0x1_0000_0000_0000_0000

  /** The value a Go `int` (64 bits, two's complement) holds after computing x. */
  function Wrap64(x: int): (r: int)
    ensures -TWO63 <= r < TWO63
    ensures -TWO63 <= x < TWO63 ==> r == x
  {
    (x + TWO63) % TWO64 - TWO63
  }

  /** Wrapping changes a value by a multiple of 2^64. */
  lemma WrapCongruent(x: int) returns (k: int)
    ensures Wrap64(x) == x + k * TWO64
  {
    k := -((x + TWO63) / TWO64);
  }

  /** A wrapped running total is the wrapped exact total. */
  lemma WrapAdd(x: int, y: int)
    ensures Wrap64(Wrap64(x) + y) == Wrap64(x + y)
  {
    var k := WrapCongruent(x);
    WrapShift(x + y, k);
  }

  lemma WrapShift(x: int, k: int)
    ensures Wrap64(x + k * TWO64) == Wrap64(x)
  {
    var a := WrapCongruent(x + k * TWO64);
    var b := WrapCongruent(x);
    assert Wrap64(x + k * TWO64) - Wrap64(x) == (a + k - b) * TWO64;
  }

  /** Two values wrap to the same exactly when they differ by a multiple of 2^64. */
  lemma WrapEqualIff(x: int, y: int)
    ensures Wrap64(x) == Wrap64(y) <==> (x - y) % TWO64 == 0
  {
    var a := WrapCongruent(x);
    var b := WrapCongruent(y);
    if Wrap64(x) == Wrap64(y) {
      assert x - y == (b - a) * TWO64;
    }
    if (x - y) % TWO64 == 0 {
      var k := (x - y) / TWO64;
      WrapShift(y, k);
      assert x == y + k * TWO64;
    }
  }

  /** Sum of m[k] over the keys in s. */
  ghost function SumOver(s: set<nat>, m: map<nat, int>): int
    requires s <= m.Keys
  {
    if s == {} then 0
    else
      var k :| k in s;
      m[k] + SumOver(s - {k}, m)
  }

  /** The sum does not depend on the order in which keys are taken. */
  lemma {:induction false} SumOverTake(s: set<nat>, m: map<nat, int>, k: nat)
    requires s <= m.Keys && k in s
    ensures SumOver(s, m) == m[k] + SumOver(s - {k}, m)
    decreases s
  {
    var j :| j in s && SumOver(s, m) == m[j] + SumOver(s - {j}, m);
    if j != k {
      SumOverTake(s - {j}, m, k);
      SumOverTake(s - {k}, m, j);
      assert s - {j} - {k} == s - {k} - {j};
    }
  }

  /** Adding a fresh key adds its value. */
  lemma SumOverAdd(s: set<nat>, m: map<nat, int>, k: nat)
    requires s <= m.Keys && k in m && k !in s
    ensures SumOver(s + {k}, m) == SumOver(s, m) + m[k]
  {
    SumOverTake(s + {k}, m, k);
    assert s + {k} - {k} == s;
  }

  /** Only the values at the summed keys matter. */
  lemma {:induction false} SumOverSame(s: set<nat>, m: map<nat, int>, n: map<nat, int>)
    requires s <= m.Keys && s <= n.Keys
    requires forall k :: k in s ==> m[k] == n[k]
    ensures SumOver(s, m) == SumOver(s, n)
    decreases s
  {
    if s != {} {
      var k :| k in s;
      SumOverTake(s, m, k);
      SumOverTake(s, n, k);
      SumOverSame(s - {k}, m, n);
    }
  }

  /** A pointwise factor comes out of the sum. */
  lemma {:induction false} SumOverScale(s: set<nat>, m: map<nat, int>, n: map<nat, int>, c: int)
    requires s <= m.Keys && s <= n.Keys
    requires forall k :: k in s ==> m[k] == c * n[k]
    ensures SumOver(s, m) == c * SumOver(s, n)
    decreases s
  {
    if s != {} {
      var k :| k in s;
      SumOverTake(s, m, k);
      SumOverTake(s, n, k);
      SumOverScale(s - {k}, m, n, c);
    }
  }

  /** Sums of non-negative values are non-negative, and positive when some value is. */
  lemma {:induction false} SumOverPositive(s: set<nat>, m: map<nat, int>)
    requires s <= m.Keys
    requires forall k :: k in s ==> m[k] > 0
    ensures SumOver(s, m) >= 0
    ensures s != {} ==> SumOver(s, m) > 0
    decreases s
  {
    if s != {} {
      var k :| k in s;
      SumOverTake(s, m, k);
      SumOverPositive(s - {k}, m);
    }
  }
}
