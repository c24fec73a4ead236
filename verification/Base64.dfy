/**
 * Base64 as sections 4 and 5 of RFC 4648 define it, with the decoding rules of Go's encoding/base64:
 * line breaks are ignored, stray bits in the last character are accepted.
 */
module Base64 {
  import opened Common

  type Byte = b: int | 0 <= b < 256

  type Sextet = n: int | 0 <= n < 64

  datatype Alphabet = Standard | Url

  function Char62(a: Alphabet): char {
    if a == Standard then '+' else '-'
  }

  function Char63(a: Alphabet): char {
    if a == Standard then '/' else '_'
  }

  function ToChar(a: Alphabet, n: Sextet): char {
    if n < 26 then (n + 65) as char
    else if n < 52 then (n + 71) as char
    else if n < 62 then (n - 4) as char
    else if n == 62 then Char62(a)
    else Char63(a)
  }

  function FromChar(a: Alphabet, c: char): Option<Sextet> {
    if 'A' <= c <= 'Z' then Some(c as int - 65)
    else if 'a' <= c <= 'z' then Some(c as int - 71)
    else if '0' <= c <= '9' then Some(c as int + 4)
    else if c == Char62(a) then Some(62)
    else if c == Char63(a) then Some(63)
    else None
  }

  lemma CharRoundTrip(a: Alphabet, n: Sextet)
    ensures FromChar(a, ToChar(a, n)) == Some(n)
    ensures ToChar(a, n) != '=' && ToChar(a, n) != '\n' && ToChar(a, n) != '\r' && ToChar(a, n) != '.'
  {
  }

  function Quad(a: Alphabet, x: Byte, y: Byte, z: Byte): (r: string)
    ensures |r| == 4
  {
    [ToChar(a, x / 4), ToChar(a, x % 4 * 16 + y / 16), ToChar(a, y % 16 * 4 + z / 64), ToChar(a, z % 64)]
  }

  /** Encoding; `padded` chooses between StdEncoding-style and Raw-style output. */
  function Encode(a: Alphabet, padded: bool, bs: seq<Byte>): string {
    if |bs| == 0 then ""
    else if |bs| == 1 then Quad(a, bs[0], 0, 0)[..2] + (if padded then "==" else "")
    else if |bs| == 2 then Quad(a, bs[0], bs[1], 0)[..3] + (if padded then "=" else "")
    else Quad(a, bs[0], bs[1], bs[2]) + Encode(a, padded, bs[3..])
  }

  function Byte0(a: Sextet, b: Sextet): Byte {
    a * 4 + b / 16
  }

  function Byte1(b: Sextet, c: Sextet): Byte {
    b % 16 * 16 + c / 4
  }

  function Byte2(c: Sextet, d: Sextet): Byte {
    c % 4 * 64 + d
  }

  /** The tail of an unpadded text: two or three characters left over. */
  function DecodeShort(a: Alphabet, s: string): Option<seq<Byte>>
    requires |s| < 4
  {
    if |s| == 0 then Some([])
    else if |s| == 1 then None
    else
      var p, q := FromChar(a, s[0]), FromChar(a, s[1]);
      if p.None? || q.None? then None
      else if |s| == 2 then Some([Byte0(p.value, q.value)])
      else
        var r := FromChar(a, s[2]);
        if r.None? then None
        else Some([Byte0(p.value, q.value), Byte1(q.value, r.value)])
  }

  /** Decoding once line breaks are gone. */
  function DecodeQuads(a: Alphabet, padded: bool, s: string): Option<seq<Byte>> {
    if |s| < 4 then
      (if padded && s != "" then None else DecodeShort(a, s))
    else if padded && s[3] == '=' then
      (if |s| > 4 then None
       else if s[2] == '=' then DecodeShort(a, s[..2])
       else DecodeShort(a, s[..3]))
    else
      var p, q, r, t := FromChar(a, s[0]), FromChar(a, s[1]), FromChar(a, s[2]), FromChar(a, s[3]);
      if p.None? || q.None? || r.None? || t.None? then None
      else
        var rest := DecodeQuads(a, padded, s[4..]);
        if rest.None? then None
        else Some([Byte0(p.value, q.value), Byte1(q.value, r.value), Byte2(r.value, t.value)] + rest.value)
  }

  function NoBreaks(s: string): string {
    if s == "" then ""
    else if s[0] == '\n' || s[0] == '\r' then NoBreaks(s[1..])
    else [s[0]] + NoBreaks(s[1..])
  }

  function Decode(a: Alphabet, padded: bool, s: string): Option<seq<Byte>> {
    DecodeQuads(a, padded, NoBreaks(s))
  }

  /** The group q decodes to the bytes x, y, z. */
  predicate Spells(a: Alphabet, q: string, x: Byte, y: Byte, z: Byte) {
    && |q| == 4 && q[3] != '=' && q[2] != '='
    && var p0, p1, p2, p3 := FromChar(a, q[0]), FromChar(a, q[1]), FromChar(a, q[2]), FromChar(a, q[3]);
    && p0.Some? && p1.Some? && p2.Some? && p3.Some?
    && Byte0(p0.value, p1.value) == x
    && Byte1(p1.value, p2.value) == y
    && Byte2(p2.value, p3.value) == z
  }

  lemma QuadRoundTrip(a: Alphabet, x: Byte, y: Byte, z: Byte)
    ensures Spells(a, Quad(a, x, y, z), x, y, z)
  {
    CharRoundTrip(a, x / 4);
    CharRoundTrip(a, x % 4 * 16 + y / 16);
    CharRoundTrip(a, y % 16 * 4 + z / 64);
    CharRoundTrip(a, z % 64);
  }

  /** The two alphabets of RFC 4648, tables 1 and 2. */
  lemma AlphabetIs(a: Alphabet, n: Sextet)
    ensures n < 26 ==> ToChar(a, n) == "ABCDEFGHIJKLMNOPQRSTUVWXYZ"[n]
    ensures 26 <= n < 52 ==> ToChar(a, n) == "abcdefghijklmnopqrstuvwxyz"[n - 26]
    ensures 52 <= n < 62 ==> ToChar(a, n) == "0123456789"[n - 52]
    ensures ToChar(Standard, 62) == '+' && ToChar(Standard, 63) == '/'
    ensures ToChar(Url, 62) == '-' && ToChar(Url, 63) == '_'
  {
  }

  /** Four characters carry the 24 bits of three bytes, highest first. */
  lemma QuadBits(a: Alphabet, x: Byte, y: Byte, z: Byte)
    ensures
      var q := Quad(a, x, y, z);
      && (forall i :: 0 <= i < 4 ==> FromChar(a, q[i]).Some?)
      && 262144 * FromChar(a, q[0]).value + 4096 * FromChar(a, q[1]).value +
         64 * FromChar(a, q[2]).value + FromChar(a, q[3]).value == 65536 * x + 256 * y + z
  {
    CharRoundTrip(a, x / 4);
    CharRoundTrip(a, x % 4 * 16 + y / 16);
    CharRoundTrip(a, y % 16 * 4 + z / 64);
    CharRoundTrip(a, z % 64);
  }

  /** How a final group of two characters decodes. */
  lemma DecodesTwo(a: Alphabet, padded: bool, q: string, x: Byte, y: Byte, z: Byte)
    requires Spells(a, q, x, y, z)
    ensures DecodeQuads(a, padded, q[..2] + (if padded then "==" else "")) == Some([x])
  {
    var e := q[..2] + (if padded then "==" else "");
    assert e[..2] == q[..2];
    assert !padded ==> e == q[..2];
  }

  /** How a final group of three characters decodes. */
  lemma DecodesThree(a: Alphabet, padded: bool, q: string, x: Byte, y: Byte, z: Byte)
    requires Spells(a, q, x, y, z)
    ensures DecodeQuads(a, padded, q[..3] + (if padded then "=" else "")) == Some([x, y])
  {
    var e := q[..3] + (if padded then "=" else "");
    assert e[..3] == q[..3];
    assert !padded ==> e == q[..3];
  }

  lemma ShortRoundTrip1(a: Alphabet, padded: bool, x: Byte, zero: Byte)
    requires zero == 0
    ensures DecodeQuads(a, padded, Encode(a, padded, [x])) == Some([x])
  {
    QuadRoundTrip(a, x, zero, zero);
    DecodesTwo(a, padded, Quad(a, x, zero, zero), x, zero, zero);
  }

  lemma ShortRoundTrip2(a: Alphabet, padded: bool, x: Byte, y: Byte, zero: Byte)
    requires zero == 0
    ensures DecodeQuads(a, padded, Encode(a, padded, [x, y])) == Some([x, y])
  {
    QuadRoundTrip(a, x, y, zero);
    DecodesThree(a, padded, Quad(a, x, y, zero), x, y, zero);
  }

  lemma {:induction false} QuadsRoundTrip(a: Alphabet, padded: bool, bs: seq<Byte>)
    ensures DecodeQuads(a, padded, Encode(a, padded, bs)) == Some(bs)
  {
    if |bs| == 1 {
      ShortRoundTrip1(a, padded, bs[0], 0);
      assert bs == [bs[0]];
    } else if |bs| == 2 {
      ShortRoundTrip2(a, padded, bs[0], bs[1], 0);
      assert bs == [bs[0], bs[1]];
    } else if |bs| >= 3 {
      QuadRoundTrip(a, bs[0], bs[1], bs[2]);
      QuadsRoundTrip(a, padded, bs[3..]);
      var q, e := Quad(a, bs[0], bs[1], bs[2]), Encode(a, padded, bs);
      assert e[4..] == Encode(a, padded, bs[3..]);
      assert e[0] == q[0] && e[1] == q[1] && e[2] == q[2] && e[3] == q[3];
      assert bs == [bs[0], bs[1], bs[2]] + bs[3..];
    }
  }

  /** An encoder's output contains no dot and no line break. */
  lemma {:induction false} EncodeChars(a: Alphabet, padded: bool, bs: seq<Byte>)
    ensures forall c :: c in Encode(a, padded, bs) ==> c != '\n' && c != '\r' && c != '.'
  {
    if |bs| == 1 {
      CharRoundTrip(a, bs[0] / 4);
      CharRoundTrip(a, bs[0] % 4 * 16);
    } else if |bs| == 2 {
      CharRoundTrip(a, bs[0] / 4);
      CharRoundTrip(a, bs[0] % 4 * 16 + bs[1] / 16);
      CharRoundTrip(a, bs[1] % 16 * 4);
    } else if |bs| >= 3 {
      CharRoundTrip(a, bs[0] / 4);
      CharRoundTrip(a, bs[0] % 4 * 16 + bs[1] / 16);
      CharRoundTrip(a, bs[1] % 16 * 4 + bs[2] / 64);
      CharRoundTrip(a, bs[2] % 64);
      EncodeChars(a, padded, bs[3..]);
    }
  }

  lemma {:induction false} NoBreaksIdentity(s: string)
    requires forall c :: c in s ==> c != '\n' && c != '\r'
    ensures NoBreaks(s) == s
  {
    if s != "" {
      assert s[0] in s;
      forall c | c in s[1..] ensures c in s {}
      NoBreaksIdentity(s[1..]);
      assert s == [s[0]] + s[1..];
    }
  }

  /** Decoding inverts encoding, in both alphabets, padded or not. */
  lemma RoundTrip(a: Alphabet, padded: bool, bs: seq<Byte>)
    ensures Decode(a, padded, Encode(a, padded, bs)) == Some(bs)
  {
    EncodeChars(a, padded, bs);
    NoBreaksIdentity(Encode(a, padded, bs));
    QuadsRoundTrip(a, padded, bs);
  }

  /** Length of an encoding. */
  lemma {:induction false} EncodeLength(a: Alphabet, bs: seq<Byte>)
    ensures |Encode(a, true, bs)| == (|bs| + 2) / 3 * 4
    ensures |Encode(a, false, bs)| == (|bs| * 4 + 2) / 3
  {
    if |bs| >= 3 {
      EncodeLength(a, bs[3..]);
      assert |Encode(a, true, bs)| == 4 + |Encode(a, true, bs[3..])|;
      assert |Encode(a, false, bs)| == 4 + |Encode(a, false, bs[3..])|;
      ThreeMore(|bs| - 3);
    }
  }

  lemma ThreeMore(n: nat)
    ensures (n + 5) / 3 * 4 == 4 + (n + 2) / 3 * 4
    ensures ((n + 3) * 4 + 2) / 3 == 4 + (n * 4 + 2) / 3
  {
  }

  /** What padding adds to an unpadded text of length n. */
  function Padding(n: nat): string {
    if n % 4 == 2 then "==" else if n % 4 == 3 then "=" else ""
  }

  /** The padding is what brings the unpadded text up to a multiple of four. */
  lemma {:induction false} PaddedFromRaw(a: Alphabet, bs: seq<Byte>)
    ensures |Encode(a, false, bs)| % 4 != 1
    ensures Encode(a, true, bs) == Encode(a, false, bs) + Padding(|Encode(a, false, bs)|)
  {
    if |bs| >= 3 {
      PaddedFromRaw(a, bs[3..]);
      var raw, rest := Encode(a, false, bs), Encode(a, false, bs[3..]);
      FourMore(Quad(a, bs[0], bs[1], bs[2]), rest);
      assert raw == Quad(a, bs[0], bs[1], bs[2]) + rest;
    }
  }

  lemma FourMore(q: string, rest: string)
    requires |q| == 4
    ensures |q + rest| % 4 == |rest| % 4
    ensures q + (rest + Padding(|rest|)) == (q + rest) + Padding(|q + rest|)
  {
  }
}
