/** The signed RADIUS Class attribute (section 5.25 of RFC 2865). */
module RadiusClass {
  import opened Common
  import opened Base64
  import Text

  const CLASS_PREFIX := "tg1:"
  const MAX_CLASS_LENGTH := 253

  datatype SessionClass = SessionClass(operatorId: string, mac: string, tokenHash: string, timestamp: int,
      nonce: string)

  datatype ClassError = TooLong | BadPrefix | BadBase64 | BadJson | NoSeparator | BadSignature

  /** The parts this model does not look into: JSON string escaping and parsing, and HMAC-SHA256. */
  datatype Primitives = Primitives(
    escape: string -> seq<Byte>,
    unmarshal: seq<Byte> -> Option<SessionClass>,
    hmac: (seq<Byte>, string) -> seq<Byte>)

  predicate PlainChar(c: char) {
    ' ' <= c <= '~' && c != '"' && c != '\\' && c != '<' && c != '>' && c != '&'
  }

  /** Text that JSON writes as it stands. */
  predicate Plain(s: string) {
    forall i :: 0 <= i < |s| ==> PlainChar(s[i])
  }

  function Ascii(s: string): (r: seq<Byte>)
    ensures |r| == |s|
  {
    seq(|s|, i requires 0 <= i < |s| => s[i] as int % 256)
  }

  ghost predicate Sound(p: Primitives) {
    && (forall k, m :: |p.hmac(k, m)| == 32)
    && (forall s :: Plain(s) ==> p.escape(s) == Ascii(s))
  }

  function Itoa(n: int): string {
    if n < 0 then "-" + Text.Decimal(-n) else Text.Decimal(n)
  }

  function Marshal(p: Primitives, c: SessionClass): seq<Byte> {
    Ascii("{\"op\":\"") + p.escape(c.operatorId) +
    Ascii("\",\"mac\":\"") + p.escape(c.mac) +
    Ascii("\",\"th\":\"") + p.escape(c.tokenHash) +
    Ascii("\",\"ts\":") + Ascii(Itoa(c.timestamp)) +
    Ascii(",\"n\":\"") + p.escape(c.nonce) + Ascii("\"}")
  }

  function EncodeClass(p: Primitives, c: SessionClass): Result<string, ClassError> {
    var encoded := CLASS_PREFIX + Encode(Url, false, Marshal(p, c));
    if |encoded| > MAX_CLASS_LENGTH then Err(TooLong) else Ok(encoded)
  }

  function DecodeClass(p: Primitives, s: string): Result<SessionClass, ClassError> {
    if !(CLASS_PREFIX <= s) then Err(BadPrefix)
    else
      var data := Decode(Url, false, s[|CLASS_PREFIX|..]);
      if data.None? then Err(BadBase64)
      else
        var c := p.unmarshal(data.value);
        if c.None? then Err(BadJson) else Ok(c.value)
  }

  function Signature(p: Primitives, key: seq<Byte>, text: string): (sig: string)
    requires Sound(p)
    ensures |sig| == 16 && '.' !in sig
  {
    var h := Text.Hex(p.hmac(key, text));
    assert forall c :: c in h[..16] ==> c in h;
    h[..16]
  }

  function HMACSign(p: Primitives, c: SessionClass, key: seq<Byte>): Result<string, ClassError>
    requires Sound(p)
  {
    var encoded := EncodeClass(p, c);
    if encoded.Err? then encoded
    else
      var result := encoded.value + "." + Signature(p, key, encoded.value);
      if |result| > MAX_CLASS_LENGTH then Err(TooLong) else Ok(result)
  }

  /** Position of the last dot, or -1. */
  function LastDot(s: string): (k: int)
    ensures -1 <= k < |s|
    ensures k >= 0 ==> s[k] == '.'
    ensures forall i :: k < i < |s| ==> s[i] != '.'
  {
    if s == "" then -1
    else if s[|s| - 1] == '.' then |s| - 1
    else LastDot(s[..|s| - 1])
  }

  function Verified(p: Primitives, s: string, key: seq<Byte>): Result<SessionClass, ClassError>
    requires Sound(p)
  {
    var k := LastDot(s);
    if k < 0 then Err(NoSeparator)
    else if s[k + 1..] != Signature(p, key, s[..k]) then Err(BadSignature)
    else DecodeClass(p, s[..k])
  }

  /** The verifier as written: a backwards scan for the separator, then a comparison. */
  method VerifyClass(p: Primitives, s: string, key: seq<Byte>) returns (r: Result<SessionClass, ClassError>)
    requires Sound(p)
    ensures r == Verified(p, s, key)
  {
    var lastDot := -1;
    var i := |s| - 1;
    while i >= 0
      invariant -1 <= i < |s|
      invariant lastDot == -1
      invariant LastDot(s) <= i
    {
      if s[i] == '.' {
        lastDot := i;
        break;
      }
      i := i - 1;
    }
    if lastDot < 0 {
      return Err(NoSeparator);
    }
    var prefix, provided := s[..lastDot], s[lastDot + 1..];
    if provided != Signature(p, key, prefix) {
      return Err(BadSignature);
    }
    r := DecodeClass(p, prefix);
  }

  /** The prefix, the encoded body and a signature never contain the separator, so it is found where it was put. */
  lemma {:induction false} SeparatorFound(head: string, sig: string)
    requires '.' !in sig
    ensures LastDot(head + "." + sig) == |head|
  {
    var s := head + "." + sig;
    if sig == "" {
      assert s[|s| - 1] == '.';
    } else {
      var last := |sig| - 1;
      SeparatorFound(head, sig[..last]);
      assert s[|s| - 1] == sig[last];
      assert s[..|s| - 1] == head + "." + sig[..last];
    }
  }

  /** Verification returns the class that was signed, whenever signing succeeded, and the result fits the attribute. */
  lemma SignVerifyRoundTrip(p: Primitives, c: SessionClass, key: seq<Byte>)
    requires Sound(p)
    requires p.unmarshal(Marshal(p, c)) == Some(c)
    ensures
      var signed := HMACSign(p, c, key);
      signed.Ok? ==> |signed.value| <= MAX_CLASS_LENGTH && Verified(p, signed.value, key) == Ok(c)
  {
    var signed := HMACSign(p, c, key);
    if signed.Ok? {
      var body := Encode(Url, false, Marshal(p, c));
      var encoded := CLASS_PREFIX + body;
      var sig := Signature(p, key, encoded);
      var s := encoded + "." + sig;
      SeparatorFound(encoded, sig);
      assert s[..|encoded|] == encoded && s[|encoded| + 1..] == sig;
      assert encoded[|CLASS_PREFIX|..] == body;
      RoundTrip(Url, false, Marshal(p, c));
    }
  }

  /** No text with a dot in it is base64url. */
  lemma {:induction false} DotNotDecoded(s: string)
    requires '.' in s
    ensures DecodeQuads(Url, false, s).None?
  {
    if |s| >= 4 {
      if '.' in s[4..] {
        DotNotDecoded(s[4..]);
      } else {
        assert s[0] == '.' || s[1] == '.' || s[2] == '.' || s[3] == '.' by {
          assert s == s[..4] + s[4..];
        }
      }
    }
  }

  lemma {:induction false} DotStays(s: string)
    requires '.' in s
    ensures '.' in NoBreaks(s)
  {
    if s[0] != '.' {
      DotStays(s[1..]);
    }
  }

  /** A dot after the signed body makes everything before the last dot undecodable. */
  lemma DottedBody(p: Primitives, body: string, more: string)
    ensures DecodeClass(p, CLASS_PREFIX + body + "." + more) == Err(BadBase64)
  {
    var s := CLASS_PREFIX + body + "." + more;
    var data := s[|CLASS_PREFIX|..];
    assert data == body + "." + more;
    assert data[|body|] == '.';
    DotStays(data);
    DotNotDecoded(NoBreaks(data));
  }

  /** With a dot in the new text, what stands before the last dot no longer decodes. */
  lemma DottedRefused(p: Primitives, body: string, sig: string, key: seq<Byte>)
    requires Sound(p) && '.' in sig
    ensures
      var r := Verified(p, CLASS_PREFIX + body + "." + sig, key);
      r == Err(BadSignature) || r == Err(BadBase64)
  {
    var head := CLASS_PREFIX + body;
    var s := head + "." + sig;
    var k := LastDot(s);
    var i :| 0 <= i < |sig| && sig[i] == '.';
    assert s[|head| + 1 + i] == '.';
    assert s[..k] == head + "." + sig[..k - |head| - 1];
    DottedBody(p, body, sig[..k - |head| - 1]);
  }

  /** Any other text in the place of the signature is refused, dots in it or not. */
  lemma TamperedSignatureRefused(p: Primitives, c: SessionClass, key: seq<Byte>, sig: string)
    requires Sound(p) && HMACSign(p, c, key).Ok? && sig != Signature(p, key, EncodeClass(p, c).value)
    ensures
      var r := Verified(p, EncodeClass(p, c).value + "." + sig, key);
      r == Err(BadSignature) || ('.' in sig && r == Err(BadBase64))
  {
    var encoded := EncodeClass(p, c).value;
    var s := encoded + "." + sig;
    if '.' in sig {
      DottedRefused(p, Encode(Url, false, Marshal(p, c)), sig, key);
    } else {
      SeparatorFound(encoded, sig);
      assert s[..|encoded|] == encoded && s[|encoded| + 1..] == sig;
    }
  }

  /** The signature spells the first eight bytes of the HMAC of the text under the key. */
  lemma SignatureIs(p: Primitives, key: seq<Byte>, text: string)
    requires Sound(p)
    ensures Signature(p, key, text) == Text.Hex(p.hmac(key, text)[..8])
    ensures Text.HexOf(Signature(p, key, text), p.hmac(key, text)[..8])
  {
    Text.HexPrefix(p.hmac(key, text), 8);
    Text.HexIs(p.hmac(key, text)[..8]);
  }

  /** Prefix and base64url of a class, a dot, and the MAC over all that precedes the dot. */
  ghost predicate SignedAs(p: Primitives, s: string, key: seq<Byte>, c: SessionClass, body: string, sig: string)
    requires Sound(p)
  {
    && s == "tg1:" + body + "." + sig && Text.HexOf(sig, p.hmac(key, "tg1:" + body)[..8])
    && Decode(Url, false, body).Some? && p.unmarshal(Decode(Url, false, body).value) == Some(c)
  }

  /** Verification accepts exactly what is signed that way, with the key at hand. */
  lemma VerifiesIff(p: Primitives, s: string, key: seq<Byte>, c: SessionClass)
    requires Sound(p)
    ensures Verified(p, s, key) == Ok(c) <==> exists body, sig :: SignedAs(p, s, key, c, body, sig)
  {
    if Verified(p, s, key) == Ok(c) {
      VerifiedIsSigned(p, s, key, c);
    }
    if body, sig :| SignedAs(p, s, key, c, body, sig) {
      SignedVerifies(p, s, key, c, body, sig);
    }
  }

  lemma VerifiedIsSigned(p: Primitives, s: string, key: seq<Byte>, c: SessionClass)
    requires Sound(p) && Verified(p, s, key) == Ok(c)
    ensures exists body, sig :: SignedAs(p, s, key, c, body, sig)
  {
    var k := LastDot(s);
    var body, sig := s[4..k], s[k + 1..];
    assert s[..k] == "tg1:" + body;
    SignatureIs(p, key, s[..k]);
    assert s == s[..k] + "." + sig;
    assert SignedAs(p, s, key, c, body, sig);
  }

  lemma SignedVerifies(p: Primitives, s: string, key: seq<Byte>, c: SessionClass, body: string, sig: string)
    requires Sound(p) && SignedAs(p, s, key, c, body, sig)
    ensures Verified(p, s, key) == Ok(c)
  {
    var head := "tg1:" + body;
    SignatureIs(p, key, head);
    HexOfUnique(sig, Signature(p, key, head), p.hmac(key, head)[..8]);
    SeparatorFound(head, sig);
    assert s[..|head|] == head && s[|head| + 1..] == sig && head[4..] == body;
  }

  lemma HexOfUnique(s: string, t: string, bs: seq<Byte>)
    requires Text.HexOf(s, bs) && Text.HexOf(t, bs)
    ensures s == t
  {
    forall i | 0 <= i < |s| ensures s[i] == t[i] {
      var k := i / 2;
      assert 0 <= k < |bs|;
      if i % 2 == 0 {
        assert s[2 * k] == t[2 * k];
      } else {
        assert s[2 * k + 1] == t[2 * k + 1];
      }
    }
  }

  /** A class signed under one key verifies under another exactly when the MACs agree in their first eight bytes. */
  lemma OtherKeyIff(p: Primitives, c: SessionClass, key: seq<Byte>, other: seq<Byte>)
    requires Sound(p) && p.unmarshal(Marshal(p, c)) == Some(c) && HMACSign(p, c, key).Ok?
    ensures
      var text := EncodeClass(p, c).value;
      Verified(p, HMACSign(p, c, key).value, other).Ok? <==> p.hmac(key, text)[..8] == p.hmac(other, text)[..8]
  {
    var text := EncodeClass(p, c).value;
    var sig, s := Signature(p, key, text), HMACSign(p, c, key).value;
    SeparatorFound(text, sig);
    assert s[..|text|] == text && s[|text| + 1..] == sig;
    SignatureIs(p, key, text);
    SignatureIs(p, other, text);
    if sig == Signature(p, other, text) {
      Text.HexInjective(p.hmac(key, text)[..8], p.hmac(other, text)[..8]);
      SignVerifyRoundTrip(p, c, other);
    }
  }

  /** What is signed: one JSON object with the five fields in order, for fields that need no escaping. */
  lemma MarshalText(p: Primitives, c: SessionClass)
    requires Sound(p) && Plain(c.operatorId) && Plain(c.mac) && Plain(c.tokenHash) && Plain(c.nonce)
    ensures Marshal(p, c) ==
            Ascii("{\"op\":\"" + c.operatorId + "\",\"mac\":\"" + c.mac + "\",\"th\":\"" + c.tokenHash +
                  "\",\"ts\":" + Itoa(c.timestamp) + ",\"n\":\"" + c.nonce + "\"}")
  {
    AsciiParts("{\"op\":\"", c.operatorId, "\",\"mac\":\"", c.mac, "\",\"th\":\"", c.tokenHash,
               "\",\"ts\":", Itoa(c.timestamp), ",\"n\":\"", c.nonce, "\"}");
  }

  lemma AsciiConcat(s: string, t: string)
    ensures Ascii(s + t) == Ascii(s) + Ascii(t)
  {
  }

  lemma AsciiParts(a: string, op: string, b: string, mac: string, d: string, th: string, e: string, ts: string,
                   f: string, n: string, g: string)
    ensures Ascii(a + op + b + mac + d + th + e + ts + f + n + g) ==
            Ascii(a) + Ascii(op) + Ascii(b) + Ascii(mac) + Ascii(d) + Ascii(th) + Ascii(e) + Ascii(ts) +
            Ascii(f) + Ascii(n) + Ascii(g)
  {
    AsciiConcat(a, op);
    AsciiConcat(a + op, b);
    AsciiConcat(a + op + b, mac);
    AsciiConcat(a + op + b + mac, d);
    AsciiConcat(a + op + b + mac + d, th);
    AsciiConcat(a + op + b + mac + d + th, e);
    AsciiConcat(a + op + b + mac + d + th + e, ts);
    AsciiConcat(a + op + b + mac + d + th + e + ts, f);
    AsciiConcat(a + op + b + mac + d + th + e + ts + f, n);
    AsciiConcat(a + op + b + mac + d + th + e + ts + f + n, g);
  }

  /** Signing fails exactly when the JSON is longer than 174 bytes. */
  lemma SignsIffShort(p: Primitives, c: SessionClass, key: seq<Byte>)
    requires Sound(p)
    ensures HMACSign(p, c, key).Ok? <==> |Marshal(p, c)| <= 174
    ensures HMACSign(p, c, key).Err? ==> HMACSign(p, c, key) == Err(TooLong)
  {
    EncodeLength(Url, Marshal(p, c));
  }

  /** With the field sizes the daemon uses, signing succeeds exactly for operator ids of at most 44 bytes. */
  lemma SignsIffOperatorFits(p: Primitives, c: SessionClass, key: seq<Byte>)
    requires Sound(p)
    requires Plain(c.operatorId) && Plain(c.mac) && Plain(c.tokenHash) && Plain(c.nonce)
    requires |c.mac| == 17 && |c.tokenHash| == 32 && |c.nonce| == 32
    requires 1_000_000_000 <= c.timestamp < 10_000_000_000
    ensures HMACSign(p, c, key).Ok? <==> |c.operatorId| <= 44
  {
    assert Text.Pow10(9) == 1_000_000_000 by {
      assert Text.Pow10(3) == 1_000;
      assert Text.Pow10(6) == 1_000_000;
    }
    Text.DecimalLength(c.timestamp, 10);
    SignsIffShort(p, c, key);
  }
}
