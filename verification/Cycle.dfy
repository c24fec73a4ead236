/** A counter that walks lo..hi and starts over. */
module Cycle {

  function Next(c: int, lo: int, hi: int): int {
    if c + 1 > hi then lo else c + 1
  }

  /** The counter after k moves. */
  function After(c: int, lo: int, hi: int, k: nat): int {
    if k == 0 then c else Next(After(c, lo, hi, k - 1), lo, hi)
  }

  /** Closed form of the walk. */
  lemma {:induction false} AfterIs(c: int, lo: int, hi: int, k: nat)
    requires lo <= c <= hi
    ensures After(c, lo, hi, k) == lo + (c - lo + k) % (hi - lo + 1)
    ensures lo <= After(c, lo, hi, k) <= hi
  {
    var n, x := hi - lo + 1, c - lo + k;
    if k == 0 {
      SmallMod(x, n);
    } else {
      AfterIs(c, lo, hi, k - 1);
      StepMod(x - 1, n);
    }
  }

  /** A counter that starts at the bottom is back there after whole turns only. */
  lemma BottomIff(lo: int, hi: int, k: nat)
    requires lo <= hi
    ensures After(lo, lo, hi, k) == lo <==> k % (hi - lo + 1) == 0
  {
    AfterIs(lo, lo, hi, k);
  }

  lemma SmallMod(x: int, n: int)
    requires 0 <= x < n
    ensures x % n == x
  {
  }

  lemma StepMod(x: int, n: int)
    requires n >= 1 && x >= 0
    ensures (x + 1) % n == if x % n + 1 == n then 0 else x % n + 1
  {
    var q, r := x / n, x % n;
    assert x == n * q + r;
    if r + 1 == n {
      UniqueMod(x + 1, n, q + 1, 0);
    } else {
      UniqueMod(x + 1, n, q, r + 1);
    }
  }

  /** Quotient and remainder are determined. */
  lemma UniqueMod(x: int, n: int, q: int, r: int)
    requires n >= 1 && 0 <= r < n && x == n * q + r
    ensures x % n == r
  {
    var d := x / n - q;
    assert n * d == r - x % n;
    assert d >= 1 ==> n * d >= n;
    assert d <= -1 ==> n * d <= -n;
  }

  lemma ModDistinct(x: int, y: int, n: int)
    requires 0 <= x < y < x + n
    ensures x % n != y % n
  {
    var q, r, d := x / n, x % n, y - x;
    assert x == n * q + r;
    if r + d < n {
      UniqueMod(y, n, q, r + d);
    } else {
      UniqueMod(y, n, q + 1, r + d - n);
    }
  }

  lemma ModSameIff(x: int, y: int, n: int)
    requires n >= 1 && 0 <= x <= y
    ensures x % n == y % n <==> (y - x) % n == 0
  {
    var a, b, q, r := x / n, x % n, (y - x) / n, (y - x) % n;
    assert x == n * a + b && y - x == n * q + r;
    assert n * (a + q) == n * a + n * q && n * (a + q + 1) == n * (a + q) + n;
    if b + r < n {
      UniqueMod(y, n, a + q, b + r);
    } else {
      UniqueMod(y, n, a + q + 1, b + r - n);
    }
  }

  /** The counter is back exactly after whole turns. */
  lemma SameIff(c: int, lo: int, hi: int, i: nat, j: nat)
    requires lo <= c <= hi && i <= j
    ensures After(c, lo, hi, i) == After(c, lo, hi, j) <==> (j - i) % (hi - lo + 1) == 0
  {
    AfterIs(c, lo, hi, i);
    AfterIs(c, lo, hi, j);
    ModSameIff(c - lo + i, c - lo + j, hi - lo + 1);
  }

  /** Fewer than a whole turn apart, the counter never repeats. */
  lemma WindowDistinct(c: int, lo: int, hi: int, i: nat, j: nat)
    requires lo <= c <= hi && i < j < i + (hi - lo + 1)
    ensures After(c, lo, hi, i) != After(c, lo, hi, j)
  {
    AfterIs(c, lo, hi, i);
    AfterIs(c, lo, hi, j);
    ModDistinct(c - lo + i, c - lo + j, hi - lo + 1);
  }

  /** A whole turn later it is back. */
  lemma WindowRepeats(c: int, lo: int, hi: int, i: nat)
    requires lo <= c <= hi
    ensures After(c, lo, hi, i) == After(c, lo, hi, i + (hi - lo + 1))
  {
    AfterIs(c, lo, hi, i);
    AfterIs(c, lo, hi, i + (hi - lo + 1));
    ModTurn(c - lo + i, hi - lo + 1);
  }

  lemma ModTurn(x: int, n: int)
    requires n >= 1
    ensures (x + n) % n == x % n
  {
    var q, r := x / n, x % n;
    assert x == n * q + r;
    assert n * (q + 1) == n * q + n;
    UniqueMod(x + n, n, q + 1, r);
  }

  /** Moving once and then k times is moving k + 1 times. */
  lemma {:induction false} AfterNext(c: int, lo: int, hi: int, k: nat)
    ensures After(Next(c, lo, hi), lo, hi, k) == After(c, lo, hi, k + 1)
  {
    if k > 0 {
      AfterNext(c, lo, hi, k - 1);
    }
  }
}
