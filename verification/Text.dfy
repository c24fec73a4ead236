/** Text renderings shared by several formats: lower-case hexadecimal and decimal. */
module Text {
  import opened Base64

  function HexDigit(n: int): (c: char)
    requires 0 <= n < 16
    ensures c != '.'
  {
    if n < 10 then (n + 48) as char else (n + 87) as char
  }

  function Hex(bs: seq<Byte>): (s: string)
    ensures |s| == 2 * |bs|
    ensures '.' !in s
  {
    if bs == [] then "" else [HexDigit(bs[0] / 16), HexDigit(bs[0] % 16)] + Hex(bs[1..])
  }

  /** Two lower-case hexadecimal digits a byte, the high one first. */
  lemma {:induction false} HexAt(bs: seq<Byte>, i: nat)
    requires i < |bs|
    ensures Hex(bs)[2 * i] == "0123456789abcdef"[bs[i] / 16] && Hex(bs)[2 * i + 1] == "0123456789abcdef"[bs[i] % 16]
  {
    if i > 0 {
      HexAt(bs[1..], i - 1);
    }
  }

  lemma {:induction false} HexInjective(a: seq<Byte>, b: seq<Byte>)
    requires Hex(a) == Hex(b)
    ensures a == b
  {
    if a != [] {
      assert |b| == |a|;
      assert Hex(a)[0] == Hex(b)[0] && Hex(a)[1] == Hex(b)[1];
      assert a[0] == b[0];
      assert Hex(a)[2..] == Hex(a[1..]) && Hex(b)[2..] == Hex(b[1..]);
      HexInjective(a[1..], b[1..]);
      assert a == [a[0]] + a[1..] && b == [b[0]] + b[1..];
    }
  }

  lemma {:induction false} HexPrefix(bs: seq<Byte>, n: nat)
    requires n <= |bs|
    ensures Hex(bs)[..2 * n] == Hex(bs[..n])
  {
    if n > 0 {
      HexPrefix(bs[1..], n - 1);
      assert bs[..n][1..] == bs[1..][..n - 1];
      assert Hex(bs)[..2 * n] == Hex(bs)[..2] + Hex(bs[1..])[..2 * (n - 1)];
    }
  }

  /** The text spells the bytes in hexadecimal. */
  predicate HexOf(s: string, bs: seq<Byte>) {
    && |s| == 2 * |bs|
    && forall k :: 0 <= k < |bs| ==>
         s[2 * k] == "0123456789abcdef"[bs[k] / 16] && s[2 * k + 1] == "0123456789abcdef"[bs[k] % 16]
  }

  lemma HexIs(bs: seq<Byte>)
    ensures HexOf(Hex(bs), bs)
  {
    forall k | 0 <= k < |bs|
      ensures Hex(bs)[2 * k] == "0123456789abcdef"[bs[k] / 16]
      ensures Hex(bs)[2 * k + 1] == "0123456789abcdef"[bs[k] % 16]
    {
      HexAt(bs, k);
    }
  }

  function Digit(n: int): char
    requires 0 <= n < 10
  {
    (n + 48) as char
  }

  predicate IsDigit(c: char) {
    '0' <= c <= '9'
  }

  /** Decimal rendering of a natural number, without leading zeros. */
  function Decimal(n: nat): (s: string)
    ensures |s| > 0
    ensures forall i :: 0 <= i < |s| ==> IsDigit(s[i])
  {
    if n < 10 then [Digit(n)] else Decimal(n / 10) + [Digit(n % 10)]
  }

  /** The value of a run of decimal digits. */
  function DecimalValue(s: string): (n: nat)
    requires forall i :: 0 <= i < |s| ==> IsDigit(s[i])
  {
    if s == "" then 0
    else
      assert IsDigit(s[|s| - 1]);
      10 * DecimalValue(s[..|s| - 1]) + (s[|s| - 1] as int - 48)
  }

  lemma {:induction false} DecimalRoundTrip(n: nat)
    ensures DecimalValue(Decimal(n)) == n
  {
    var s := Decimal(n);
    if n < 10 {
      assert s[..|s| - 1] == "";
    } else {
      DecimalRoundTrip(n / 10);
      assert s[..|s| - 1] == Decimal(n / 10);
    }
  }

  function Pow10(k: nat): (p: nat)
    ensures p > 0
  {
    if k == 0 then 1 else 10 * Pow10(k - 1)
  }

  /** A number in [10^(k-1), 10^k) has k digits. */
  lemma {:induction false} DecimalLength(n: nat, k: nat)
    requires k > 0 && n < Pow10(k) && (k == 1 || Pow10(k - 1) <= n)
    ensures |Decimal(n)| == k
  {
    if k > 1 {
      assert Pow10(k - 1) == 10 * Pow10(k - 2);
      DecimalLength(n / 10, k - 1);
    }
  }
}
