/** NIP-44 version 2: padding, key derivation and the encrypted payload's layout. */
module Nip44 {
  import opened Common
  import opened Base64

  // ----- Padding -----

  /** The power of two above m: 1 << (floor(log2(m)) + 1). */
  function PowerAbove(m: int): (p: int)
    requires m >= 1
    ensures p / 2 <= m < p
    ensures p >= 2 && p % 2 == 0
  {
    if m == 1 then 2 else 2 * PowerAbove(m / 2)
  }

  function Chunk(n: int): int
    requires n > 32
  {
    var next := PowerAbove(n - 1);
    if next <= 256 then 32 else next / 8
  }

  function PaddedLen(n: nat): int {
    if n <= 32 then 32 else Chunk(n) * ((n - 1) / Chunk(n) + 1)
  }

  predicate SmallOrWhole(p: int) {
    p in {2, 4, 8, 16, 32, 64, 128} || (p >= 256 && p % 256 == 0)
  }

  lemma DoubleShape(p: int)
    requires SmallOrWhole(p)
    ensures SmallOrWhole(2 * p)
  {
  }

  /** A power of two of at least 256 is a multiple of 256. */
  lemma {:induction false} PowerShape(m: int)
    requires m >= 1
    ensures SmallOrWhole(PowerAbove(m))
  {
    if m > 1 {
      PowerShape(m / 2);
      DoubleShape(PowerAbove(m / 2));
    }
  }

  lemma {:induction false} PowerMonotone(a: int, b: int)
    requires 1 <= a <= b
    ensures PowerAbove(a) == PowerAbove(b) || 2 * PowerAbove(a) <= PowerAbove(b)
  {
    if a > 1 {
      PowerMonotone(a / 2, b / 2);
    } else if b > 1 {
      PowerMonotone(1, b / 2);
    }
  }

  /** Chunks are multiples of 32 that divide the enclosing power of two, which is 2, 4 or 8 chunks. */
  lemma ChunkShape(n: int)
    requires n > 32
    ensures Chunk(n) >= 32 && Chunk(n) % 32 == 0
    ensures PowerAbove(n - 1) in {2 * Chunk(n), 4 * Chunk(n), 8 * Chunk(n)}
    ensures Chunk(n) == 32 || 4 * Chunk(n) <= n - 1
  {
    PowerShape(n - 1);
  }

  /** Rounding up to a whole number of chunks. */
  lemma RoundUp(n: int, c: int)
    requires n >= 1 && c >= 1
    ensures
      var r := c * ((n - 1) / c + 1);
      n <= r < n + c && r % c == 0
  {
    var q := (n - 1) / c;
    assert c * q <= n - 1 < c * q + c;
    assert c * (q + 1) == c * q + c;
    MultipleMod(q + 1, c);
  }

  lemma MultipleMod(q: int, c: int)
    requires c >= 1
    ensures (c * q) % c == 0
  {
    var r, k := (c * q) % c, (c * q) / c;
    assert c * q == c * k + r;
    assert c * (q - k) == r;
    assert q - k >= 1 ==> c * (q - k) >= c;
    assert q - k <= -1 ==> c * (q - k) <= -c;
  }

  lemma BlocksOf32(c: int, q: int)
    requires c % 32 == 0
    ensures (c * q) % 32 == 0
  {
    var k := c / 32;
    var t := k * q;
    assert c * q == 32 * t;
  }

  /** Rounding up lands on the least multiple of c that is at least n. */
  lemma RoundUpLeast(n: int, c: int, k: int)
    requires n >= 1 && c >= 1 && n <= c * k
    ensures c * ((n - 1) / c + 1) <= c * k
  {
    var q := (n - 1) / c;
    assert c * q <= n - 1;
    assert q >= k ==> c * q >= c * k;
    assert q + 1 <= k;
    assert c * (q + 1) <= c * k;
  }

  /** The padded length covers the text, is a whole number of 32-byte blocks, and stays within a quarter of it. */
  lemma PaddedLenBounds(n: nat)
    requires n >= 1
    ensures n <= PaddedLen(n)
    ensures PaddedLen(n) % 32 == 0
    ensures PaddedLen(n) - n < 32 || 4 * (PaddedLen(n) - n) < n
  {
    if n > 32 {
      var c := Chunk(n);
      ChunkShape(n);
      RoundUp(n, c);
      BlocksOf32(c, (n - 1) / c + 1);
    }
  }

  /** The padded length never crosses the enclosing power of two. */
  lemma PaddedBelowPower(n: nat)
    requires n > 32
    ensures PaddedLen(n) <= PowerAbove(n - 1)
  {
    var c, p := Chunk(n), PowerAbove(n - 1);
    ChunkShape(n);
    var k := if p == 2 * c then 2 else if p == 4 * c then 4 else 8;
    RoundUpLeast(n, c, k);
  }

  /** Longer texts never get shorter paddings. */
  lemma PaddedLenMonotone(m: nat, n: nat)
    requires 1 <= m <= n
    ensures PaddedLen(m) <= PaddedLen(n)
  {
    PaddedLenBounds(n);
    if m > 32 {
      PowerMonotone(m - 1, n - 1);
      if PowerAbove(m - 1) == PowerAbove(n - 1) {
        var c := Chunk(m);
        ChunkShape(m);
        RoundUp(n, c);
        RoundUpLeast(m, c, (n - 1) / c + 1);
      } else {
        PaddedBelowPower(m);
        assert PowerAbove(m - 1) <= PowerAbove(n - 1) / 2 <= n - 1;
      }
    }
  }

  /** A padded length is its own padded length. */
  lemma PaddedLenFixed(n: nat)
    requires n >= 1
    ensures PaddedLen(PaddedLen(n)) == PaddedLen(n)
  {
    if n > 32 {
      var c, r := Chunk(n), PaddedLen(n);
      ChunkShape(n);
      RoundUp(n, c);
      PaddedBelowPower(n);
      PowerUnique(n - 1, r - 1);
      assert Chunk(r) == c;
      RoundUp(r, c);
      RoundUpLeast(r, c, (n - 1) / c + 1);
    }
  }

  lemma PowerUnique(a: int, b: int)
    requires 1 <= a <= b < PowerAbove(a)
    ensures PowerAbove(b) == PowerAbove(a)
  {
    PowerMonotone(a, b);
  }

  // ----- Pad and unpad -----

  datatype Error = BadLength | BadPadding | BadVersion | BadMac | BadBase64 | TooShort | BadHkdfLength

  function Zeros(n: nat): (z: seq<Byte>)
    ensures |z| == n
  {
    seq(n, _ => 0)
  }

  function Pad(text: seq<Byte>): Result<seq<Byte>, Error> {
    if |text| < 1 || |text| > 65535 then Err(BadLength)
    else
      PaddedLenBounds(|text|);
      Ok([|text| / 256, |text| % 256] + text + Zeros(PaddedLen(|text|) - |text|))
  }

  /** A Python slice s[lo:hi] with non-negative bounds: clamped, never an error. */
  function Slice(s: seq<Byte>, lo: nat, hi: nat): seq<Byte> {
    var h := if hi <= |s| then hi else |s|;
    if lo <= h then s[lo..h] else []
  }

  function Unpad(padded: seq<Byte>): Result<seq<Byte>, Error> {
    if |padded| < 2 then Err(BadPadding)
    else
      var n: nat := padded[0] as int * 256 + padded[1] as int;
      var text := Slice(padded, 2, 2 + n);
      if n == 0 || |text| != n then Err(BadPadding) else Ok(text)
  }

  lemma PadRoundTrip(text: seq<Byte>)
    requires 1 <= |text| <= 65535
    ensures Pad(text).Ok?
    ensures |Pad(text).value| == 2 + PaddedLen(|text|)
    ensures Unpad(Pad(text).value) == Ok(text)
  {
    PaddedLenBounds(|text|);
    var p := Pad(text).value;
    assert p[2..2 + |text|] == text;
  }

  /** The padded text: its length in two bytes, high byte first, the text, and zeros. */
  lemma PadLayout(text: seq<Byte>)
    requires 1 <= |text| <= 65535
    ensures
      var p := Pad(text);
      && p.Ok? && |p.value| == 2 + PaddedLen(|text|) && |text| <= PaddedLen(|text|)
      && p.value[0] as int * 256 + p.value[1] as int == |text| && p.value[2..2 + |text|] == text
      && forall i :: 2 + |text| <= i < |p.value| ==> p.value[i] == 0
  {
    PaddedLenBounds(|text|);
    PadParts(text, Zeros(PaddedLen(|text|) - |text|));
  }

  lemma PadParts(text: seq<Byte>, zeros: seq<Byte>)
    requires |text| <= 65535
    ensures
      var p := [|text| / 256, |text| % 256] + text + zeros;
      p[0] as int * 256 + p[1] as int == |text| && p[2..2 + |text|] == text && p[2 + |text|..] == zeros
  {
  }

  function Pow2(k: nat): nat {
    if k == 0 then 1 else 2 * Pow2(k - 1)
  }

  lemma {:induction false} PowerIs(m: int, k: nat)
    requires Pow2(k) <= m < Pow2(k + 1)
    ensures PowerAbove(m) == Pow2(k + 1)
  {
    if k > 0 {
      PowerIs(m / 2, k - 1);
    }
  }

  /** Up to 32 bytes pad to 32; beyond, to whole chunks of an eighth of the enclosing power of two, at least 32. */
  lemma PaddedLenIs(n: nat, k: nat)
    requires n >= 1
    ensures n <= 32 ==> PaddedLen(n) == 32
    ensures n > 32 && Pow2(k) < n <= Pow2(k + 1) ==>
              var chunk := if Pow2(k + 1) <= 256 then 32 else Pow2(k + 1) / 8;
              PaddedLen(n) == chunk * ((n - 1) / chunk + 1)
  {
    if n > 32 && Pow2(k) < n <= Pow2(k + 1) {
      PowerIs(n - 1, k);
    }
  }

  // ----- HKDF -----

  /** HMAC-SHA256 and the ChaCha20 keystream, which this model does not look into. */
  datatype Primitives = Primitives(
    hmac: (seq<Byte>, seq<Byte>) -> seq<Byte>,
    keystream: (seq<Byte>, seq<Byte>, nat) -> seq<Byte>)

  ghost predicate Sound(c: Primitives) {
    && (forall k, m :: |c.hmac(k, m)| == 32)
    && (forall k, n, len :: |c.keystream(k, n, len)| == len)
  }

  /** T(i) of section 2.3 of RFC 5869. */
  function HkdfBlock(c: Primitives, prk: seq<Byte>, info: seq<Byte>, i: nat): seq<Byte>
    requires i <= 255
  {
    if i == 0 then [] else c.hmac(prk, HkdfBlock(c, prk, info, i - 1) + info + [i])
  }

  /** T(1) + ... + T(n). */
  function HkdfBlocks(c: Primitives, prk: seq<Byte>, info: seq<Byte>, n: nat): (r: seq<Byte>)
    requires Sound(c) && n <= 255
    ensures |r| == 32 * n
  {
    if n == 0 then [] else HkdfBlocks(c, prk, info, n - 1) + HkdfBlock(c, prk, info, n)
  }

  function HkdfExpanded(c: Primitives, prk: seq<Byte>, info: seq<Byte>, length: nat): (r: Result<seq<Byte>, Error>)
    requires Sound(c)
    ensures r.Ok? ==> |r.value| == length
  {
    var n := (length + 31) / 32;
    if n > 255 then Err(BadHkdfLength) else Ok(HkdfBlocks(c, prk, info, n)[..length])
  }

  /** The expansion loop; a 256th block would not fit the counter byte. */
  method HkdfExpand(c: Primitives, prk: seq<Byte>, info: seq<Byte>, length: nat)
    returns (r: Result<seq<Byte>, Error>)
    requires Sound(c)
    ensures r == HkdfExpanded(c, prk, info, length)
    ensures r.Ok? <==> length <= 255 * 32
    ensures r.Ok? ==> |r.value| == length
  {
    var n := (length + 31) / 32;
    var okm: seq<Byte>, t: seq<Byte> := [], [];
    for i := 1 to n + 1
      invariant i <= 256
      invariant t == HkdfBlock(c, prk, info, i - 1)
      invariant okm == HkdfBlocks(c, prk, info, i - 1)
    {
      if i > 255 {
        return Err(BadHkdfLength);
      }
      t := c.hmac(prk, t + info + [i]);
      okm := okm + t;
    }
    return Ok(okm[..length]);
  }

  /** Every block is the HMAC of the block before it, the info and its number. */
  lemma {:induction false} HkdfBlockAt(c: Primitives, prk: seq<Byte>, info: seq<Byte>, n: nat, i: nat)
    requires Sound(c) && i < n <= 255
    ensures
      var b := HkdfBlocks(c, prk, info, n);
      b[32 * i..32 * (i + 1)] == c.hmac(prk, (if i == 0 then [] else b[32 * (i - 1)..32 * i]) + info + [i + 1])
  {
    var b, front := HkdfBlocks(c, prk, info, n), HkdfBlocks(c, prk, info, n - 1);
    if i < n - 1 {
      HkdfBlockAt(c, prk, info, n - 1, i);
      assert b[32 * i..32 * (i + 1)] == front[32 * i..32 * (i + 1)];
      if i > 0 {
        assert b[32 * (i - 1)..32 * i] == front[32 * (i - 1)..32 * i];
      }
    } else {
      assert b[32 * i..32 * (i + 1)] == HkdfBlock(c, prk, info, n);
      if i > 0 {
        LastBlock(c, prk, info, n - 1);
        assert b[32 * (i - 1)..32 * i] == front[32 * (i - 1)..32 * i];
      }
    }
  }

  lemma LastBlock(c: Primitives, prk: seq<Byte>, info: seq<Byte>, n: nat)
    requires Sound(c) && 1 <= n <= 255
    ensures HkdfBlocks(c, prk, info, n)[32 * (n - 1)..32 * n] == HkdfBlock(c, prk, info, n)
  {
  }

  // ----- Encrypt and decrypt -----

  datatype Keys = Keys(chachaKey: seq<Byte>, chachaNonce: seq<Byte>, hmacKey: seq<Byte>)

  function MessageKeys(c: Primitives, conversationKey: seq<Byte>, nonce: seq<Byte>): (k: Keys)
    requires Sound(c)
    ensures |k.chachaKey| == 32 && |k.chachaNonce| == 12 && |k.hmacKey| == 32
  {
    var keys := HkdfBlocks(c, conversationKey, nonce, 3)[..76];
    assert HkdfExpanded(c, conversationKey, nonce, 76) == Ok(keys);
    Keys(keys[0..32], keys[32..44], keys[44..76])
  }

  /** Exclusive or of the low k bits. */
  function XorBits(a: nat, b: nat, k: nat): (r: nat)
  {
    if k == 0 then 0 else (a % 2 + b % 2) % 2 + 2 * XorBits(a / 2, b / 2, k - 1)
  }

  /** Bit j of a number. */
  function Bit(n: nat, j: nat): nat {
    if j == 0 then n % 2 else Bit(n / 2, j - 1)
  }

  /** It is exclusive or, bit by bit. */
  lemma {:induction false} XorBitsAt(a: nat, b: nat, k: nat, j: nat)
    requires j < k
    ensures Bit(XorBits(a, b, k), j) == if Bit(a, j) == Bit(b, j) then 0 else 1
  {
    var low, high := (a % 2 + b % 2) % 2, XorBits(a / 2, b / 2, k - 1);
    assert (low + 2 * high) % 2 == low && (low + 2 * high) / 2 == high;
    if j > 0 {
      XorBitsAt(a / 2, b / 2, k - 1, j - 1);
    }
  }

  lemma ParityTwice(a: nat, b: nat)
    ensures ((a % 2 + b % 2) % 2 + b % 2) % 2 == a % 2
  {
  }

  lemma {:induction false} XorBitsTwice(a: nat, b: nat, k: nat)
    requires a < Pow2(k)
    ensures XorBits(XorBits(a, b, k), b, k) == a
  {
    if k > 0 {
      var low, high := (a % 2 + b % 2) % 2, XorBits(a / 2, b / 2, k - 1);
      var x := low + 2 * high;
      assert x == XorBits(a, b, k);
      assert x % 2 == low && x / 2 == high;
      XorBitsTwice(a / 2, b / 2, k - 1);
      ParityTwice(a, b);
      assert XorBits(x, b, k) == (low + b % 2) % 2 + 2 * XorBits(high, b / 2, k - 1);
    }
  }

  lemma {:induction false} XorBitsBound(a: nat, b: nat, k: nat)
    ensures XorBits(a, b, k) < Pow2(k)
  {
    if k > 0 {
      XorBitsBound(a / 2, b / 2, k - 1);
    }
  }

  lemma Pow2Of8()
    ensures Pow2(8) == 256
  {
    assert Pow2(4) == 16;
  }

  function XorByte(a: Byte, b: Byte): Byte {
    XorBitsBound(a, b, 8);
    Pow2Of8();
    XorBits(a, b, 8)
  }

  function Xor(a: seq<Byte>, b: seq<Byte>): (r: seq<Byte>)
    requires |a| == |b|
    ensures |r| == |a|
  {
    seq(|a|, i requires 0 <= i < |a| => XorByte(a[i], b[i]))
  }

  function Chacha20(c: Primitives, key: seq<Byte>, nonce: seq<Byte>, data: seq<Byte>): (r: seq<Byte>)
    requires Sound(c)
    ensures |r| == |data|
  {
    Xor(data, c.keystream(key, nonce, |data|))
  }

  lemma XorByteTwice(a: Byte, b: Byte)
    ensures XorByte(XorByte(a, b), b) == a
  {
    Pow2Of8();
    XorBitsTwice(a, b, 8);
  }

  lemma Chacha20Twice(c: Primitives, key: seq<Byte>, nonce: seq<Byte>, data: seq<Byte>)
    requires Sound(c)
    ensures Chacha20(c, key, nonce, Chacha20(c, key, nonce, data)) == data
  {
    var ks := c.keystream(key, nonce, |data|);
    forall i | 0 <= i < |data| ensures XorByte(XorByte(data[i], ks[i]), ks[i]) == data[i] {
      XorByteTwice(data[i], ks[i]);
    }
  }

  function Encrypt(c: Primitives, text: seq<Byte>, conversationKey: seq<Byte>, nonce: seq<Byte>): Result<string, Error>
    requires Sound(c)
  {
    var k := MessageKeys(c, conversationKey, nonce);
    var padded := Pad(text);
    if padded.Err? then Err(padded.error)
    else
      var ciphertext := Chacha20(c, k.chachaKey, k.chachaNonce, padded.value);
      var mac := c.hmac(k.hmacKey, nonce + ciphertext);
      Ok(Encode(Standard, true, [2] + nonce + ciphertext + mac))
  }

  /** The last `n` elements, as Python's s[-n:] gives them. */
  function Last(s: seq<Byte>, n: nat): seq<Byte> {
    if |s| <= n then s else s[|s| - n..]
  }

  function Decrypt(c: Primitives, payload: string, conversationKey: seq<Byte>): Result<seq<Byte>, Error>
    requires Sound(c)
  {
    var decoded := Decode(Standard, true, payload);
    if decoded.None? then Err(BadBase64)
    else
      var data := decoded.value;
      if |data| == 0 then Err(TooShort)
      else if data[0] != 2 then Err(BadVersion)
      else
        var nonce, mac := Slice(data, 1, 33), Last(data, 32);
        var ciphertext := Slice(data, 33, if |data| < 32 then 0 else |data| - 32);
        var k := MessageKeys(c, conversationKey, nonce);
        if c.hmac(k.hmacKey, nonce + ciphertext) != mac then Err(BadMac)
        else Unpad(Chacha20(c, k.chachaKey, k.chachaNonce, ciphertext))
  }

  /** Slicing the payload gives back its four parts. */
  lemma PayloadParts(nonce: seq<Byte>, ciphertext: seq<Byte>, mac: seq<Byte>)
    requires |nonce| == 32 && |mac| == 32
    ensures
      var data := [2] + nonce + ciphertext + mac;
      && Slice(data, 1, 33) == nonce
      && Last(data, 32) == mac
      && Slice(data, 33, |data| - 32) == ciphertext
  {
    var data: seq<Byte> := [2] + nonce + ciphertext + mac;
    assert data[1..33] == nonce;
    assert data[|data| - 32..] == mac;
    assert data[33..|data| - 32] == ciphertext;
  }

  /** Encryption refuses exactly the lengths outside 1..65535, and decryption undoes all others. */
  lemma EncryptDecryptRoundTrip(c: Primitives, text: seq<Byte>, conversationKey: seq<Byte>, nonce: seq<Byte>)
    requires Sound(c) && |nonce| == 32
    ensures
      var e := Encrypt(c, text, conversationKey, nonce);
      && (e.Ok? <==> 1 <= |text| <= 65535)
      && (e.Ok? ==> Decrypt(c, e.value, conversationKey) == Ok(text))
  {
    if 1 <= |text| <= 65535 {
      PadRoundTrip(text);
      var k := MessageKeys(c, conversationKey, nonce);
      var ciphertext := Chacha20(c, k.chachaKey, k.chachaNonce, Pad(text).value);
      var mac := c.hmac(k.hmacKey, nonce + ciphertext);
      PayloadParts(nonce, ciphertext, mac);
      RoundTrip(Standard, true, [2] + nonce + ciphertext + mac);
      Chacha20Twice(c, k.chachaKey, k.chachaNonce, Pad(text).value);
    }
  }

  /** The payload's size depends on the text only through its padded length. */
  lemma PayloadHidesLength(c: Primitives, a: seq<Byte>, b: seq<Byte>, key: seq<Byte>, na: seq<Byte>, nb: seq<Byte>)
    requires Sound(c) && |na| == 32 && |nb| == 32
    requires 1 <= |a| <= 65535 && 1 <= |b| <= 65535
    ensures |Encrypt(c, a, key, na).value| == (67 + PaddedLen(|a|) + 2) / 3 * 4
    ensures PaddedLen(|a|) == PaddedLen(|b|) ==> |Encrypt(c, a, key, na).value| == |Encrypt(c, b, key, nb).value|
  {
    PayloadLength(c, a, key, na);
    PayloadLength(c, b, key, nb);
  }

  lemma PayloadLength(c: Primitives, a: seq<Byte>, key: seq<Byte>, nonce: seq<Byte>)
    requires Sound(c) && |nonce| == 32 && 1 <= |a| <= 65535
    ensures Encrypt(c, a, key, nonce).Ok?
    ensures |Encrypt(c, a, key, nonce).value| == (67 + PaddedLen(|a|) + 2) / 3 * 4
  {
    PadRoundTrip(a);
    var k := MessageKeys(c, key, nonce);
    var ciphertext := Chacha20(c, k.chachaKey, k.chachaNonce, Pad(a).value);
    EncodeLength(Standard, [2] + nonce + ciphertext + c.hmac(k.hmacKey, nonce + ciphertext));
  }

  /** The keys are the first 76 bytes of three chained HMACs: 32 for the cipher, 12 for its nonce, 32 for the MAC. */
  lemma MessageKeysAre(c: Primitives, conversationKey: seq<Byte>, nonce: seq<Byte>)
    requires Sound(c)
    ensures
      var k := MessageKeys(c, conversationKey, nonce);
      var t1 := c.hmac(conversationKey, nonce + [1]);
      var t2 := c.hmac(conversationKey, t1 + nonce + [2]);
      var t3 := c.hmac(conversationKey, t2 + nonce + [3]);
      && k.chachaKey == t1 && |k.chachaNonce| == 12 && |k.hmacKey| == 32
      && k.chachaNonce + k.hmacKey == (t2 + t3)[..44]
  {
    var t1 := HkdfBlock(c, conversationKey, nonce, 1);
    var t2 := HkdfBlock(c, conversationKey, nonce, 2);
    var t3 := HkdfBlock(c, conversationKey, nonce, 3);
    assert HkdfBlock(c, conversationKey, nonce, 0) + nonce + [1] == nonce + [1];
    assert t2 == c.hmac(conversationKey, t1 + nonce + [2]);
    assert t3 == c.hmac(conversationKey, t2 + nonce + [3]);
    ThreeBlocks(c, conversationKey, nonce);
    CutKeys(t1, t2, t3);
  }

  lemma CutKeys(t1: seq<Byte>, t2: seq<Byte>, t3: seq<Byte>)
    requires |t1| == |t2| == |t3| == 32
    ensures
      var keys := (t1 + t2 + t3)[..76];
      keys[0..32] == t1 && keys[32..44] + keys[44..76] == (t2 + t3)[..44]
  {
    var keys := (t1 + t2 + t3)[..76];
    assert t1 + t2 + t3 == t1 + (t2 + t3);
    assert keys == t1 + (t2 + t3)[..44];
    assert keys[32..44] + keys[44..76] == keys[32..76];
  }

  lemma ThreeBlocks(c: Primitives, prk: seq<Byte>, info: seq<Byte>)
    requires Sound(c)
    ensures HkdfBlocks(c, prk, info, 3) ==
            HkdfBlock(c, prk, info, 1) + HkdfBlock(c, prk, info, 2) + HkdfBlock(c, prk, info, 3)
  {
    assert HkdfBlocks(c, prk, info, 0) == [];
    assert HkdfBlocks(c, prk, info, 1) == HkdfBlock(c, prk, info, 1);
  }

  /** Bytes that a holder of the keys produced: version 2, the MAC over nonce and ciphertext, a well-formed padding. */
  ghost predicate Genuine(c: Primitives, data: seq<Byte>, conversationKey: seq<Byte>, text: seq<Byte>)
    requires Sound(c)
  {
    && |data| >= 68 && data[0] == 2
    && var k := MessageKeys(c, conversationKey, data[1..33]);
    && data[|data| - 32..] == c.hmac(k.hmacKey, data[1..|data| - 32])
    && var ciphertext := data[33..|data| - 32];
    var stream := c.keystream(k.chachaKey, k.chachaNonce, |ciphertext|);
    var plain := Xor(ciphertext, stream);
    && |text| >= 1 && |plain| >= 2 + |text|
    && plain[0] as int * 256 + plain[1] as int == |text| && plain[2..2 + |text|] == text
  }

  /** A payload is accepted as a text exactly when it is genuine for that text: version, MAC and padding all checked. */
  lemma DecryptIff(c: Primitives, payload: string, conversationKey: seq<Byte>, text: seq<Byte>)
    requires Sound(c)
    ensures
      var data := Decode(Standard, true, payload);
      Decrypt(c, payload, conversationKey) == Ok(text) <==>
      data.Some? && Genuine(c, data.value, conversationKey, text)
  {
    var decoded := Decode(Standard, true, payload);
    if decoded.Some? && |decoded.value| >= 68 {
      DecryptLong(c, payload, decoded.value, conversationKey, text);
    } else if decoded.Some? {
      DecryptShort(c, payload, decoded.value, conversationKey);
    }
  }

  lemma DecryptShort(c: Primitives, payload: string, data: seq<Byte>, conversationKey: seq<Byte>)
    requires Sound(c) && Decode(Standard, true, payload) == Some(data) && |data| < 68
    ensures Decrypt(c, payload, conversationKey).Err?
  {
    var ciphertext := Slice(data, 33, if |data| < 32 then 0 else |data| - 32);
    assert |ciphertext| <= 2;
    forall k, n ensures Unpad(Chacha20(c, k, n, ciphertext)).Err? {
      ShortUnpad(Chacha20(c, k, n, ciphertext));
    }
  }

  lemma ShortUnpad(padded: seq<Byte>)
    requires |padded| <= 2
    ensures Unpad(padded).Err?
  {
  }

  lemma DecryptLong(c: Primitives, payload: string, data: seq<Byte>, conversationKey: seq<Byte>, text: seq<Byte>)
    requires Sound(c) && Decode(Standard, true, payload) == Some(data) && |data| >= 68
    ensures Decrypt(c, payload, conversationKey) == Ok(text) <==> Genuine(c, data, conversationKey, text)
  {
    var nonce, ciphertext := data[1..33], data[33..|data| - 32];
    assert Slice(data, 1, 33) == nonce && Last(data, 32) == data[|data| - 32..];
    assert Slice(data, 33, |data| - 32) == ciphertext;
    assert nonce + ciphertext == data[1..|data| - 32];
    var k := MessageKeys(c, conversationKey, nonce);
    UnpadIff(Chacha20(c, k.chachaKey, k.chachaNonce, ciphertext), text);
  }

  lemma UnpadIff(padded: seq<Byte>, text: seq<Byte>)
    ensures Unpad(padded) == Ok(text) <==>
            && |text| >= 1 && |padded| >= 2 + |text|
            && padded[0] as int * 256 + padded[1] as int == |text| && padded[2..2 + |text|] == text
  {
  }

  /** Which check refuses: another version, or a MAC that is not the one over nonce and ciphertext. */
  lemma TamperedRefused(c: Primitives, version: Byte, nonce: seq<Byte>, ciphertext: seq<Byte>, mac: seq<Byte>,
                        conversationKey: seq<Byte>)
    requires Sound(c) && |nonce| == 32 && |mac| == 32
    ensures
      var r := Decrypt(c, Encode(Standard, true, [version] + nonce + ciphertext + mac), conversationKey);
      && (version != 2 ==> r == Err(BadVersion))
      && (version == 2 && mac != c.hmac(MessageKeys(c, conversationKey, nonce).hmacKey, nonce + ciphertext) ==>
            r == Err(BadMac))
  {
    RoundTrip(Standard, true, [version] + nonce + ciphertext + mac);
    if version == 2 {
      PayloadParts(nonce, ciphertext, mac);
    }
  }

  /** What encryption sends: genuine bytes for its text under the same key, with the nonce that was given. */
  lemma EncryptIsGenuine(c: Primitives, text: seq<Byte>, conversationKey: seq<Byte>, nonce: seq<Byte>)
    requires Sound(c) && |nonce| == 32 && 1 <= |text| <= 65535
    ensures
      var e := Encrypt(c, text, conversationKey, nonce);
      && e.Ok?
      && var data := Decode(Standard, true, e.value);
      data.Some? && Genuine(c, data.value, conversationKey, text) && data.value[1..33] == nonce
  {
    EncryptDecryptRoundTrip(c, text, conversationKey, nonce);
    var e := Encrypt(c, text, conversationKey, nonce);
    DecryptIff(c, e.value, conversationKey, text);
    var k := MessageKeys(c, conversationKey, nonce);
    var ciphertext := Chacha20(c, k.chachaKey, k.chachaNonce, Pad(text).value);
    var mac := c.hmac(k.hmacKey, nonce + ciphertext);
    RoundTrip(Standard, true, [2] + nonce + ciphertext + mac);
    PayloadParts(nonce, ciphertext, mac);
  }
}
