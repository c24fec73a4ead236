/** Cashu token decoding (NUT-00 versions 3 and 4) and the NUT-07 proof-state check. */
module CashuToken {
  import opened Common
  import opened Base64
  import Text

  datatype Proof = Proof(amount: int, id: string, secret: string, c: string)

  datatype TokenData = TokenData(mint: string, unit: string, memo: string, amount: int, proofs: seq<Proof>)

  datatype V3Mint = V3Mint(mint: string, proofs: seq<Proof>)

  datatype V3Token = V3Token(token: seq<V3Mint>, unit: string, memo: string)

  datatype V4Proof = V4Proof(amount: int, secret: string, c: seq<Byte>)

  datatype V4Entry = V4Entry(keysetId: seq<Byte>, proofs: seq<V4Proof>)

  datatype V4Token = V4Token(mint: string, unit: string, memo: string, token: seq<V4Entry>)

  datatype TokenError = NotCashu | BadBase64 | BadBody | NoMint | ZeroValue | MultiMint

  /** The JSON and CBOR parsers, which this model does not look into. */
  datatype Parsers = Parsers(json: seq<Byte> -> Option<V3Token>, cbor: seq<Byte> -> Option<V4Token>)

  function StdChar(c: char): char {
    if c == '-' then '+' else if c == '_' then '/' else c
  }

  function ToStdAlphabet(s: string): (r: string)
    ensures |r| == |s|
  {
    seq(|s|, i requires 0 <= i < |s| => StdChar(s[i]))
  }

  function B64urlDecode(s: string): Option<seq<Byte>> {
    Decode(Standard, true, PadUp(ToStdAlphabet(s)))
  }

  function PadUp(t: string): string {
    if |t| % 4 == 2 then t + "==" else if |t| % 4 == 3 then t + "=" else t
  }

  lemma StdCharOfUrl(n: Sextet)
    ensures StdChar(ToChar(Url, n)) == ToChar(Standard, n)
  {
  }

  lemma {:induction false} ToStdOfEncode(padded: bool, bs: seq<Byte>)
    ensures ToStdAlphabet(Encode(Url, padded, bs)) == Encode(Standard, padded, bs)
  {
    if |bs| == 1 {
      StdQuad(bs[0], 0, 0);
      ToStdConcat(Quad(Url, bs[0], 0, 0)[..2], if padded then "==" else "");
    } else if |bs| == 2 {
      StdQuad(bs[0], bs[1], 0);
      ToStdConcat(Quad(Url, bs[0], bs[1], 0)[..3], if padded then "=" else "");
    } else if |bs| >= 3 {
      StdQuad(bs[0], bs[1], bs[2]);
      ToStdOfEncode(padded, bs[3..]);
      ToStdConcat(Quad(Url, bs[0], bs[1], bs[2]), Encode(Url, padded, bs[3..]));
    }
  }

  lemma StdQuad(x: Byte, y: Byte, z: Byte)
    ensures ToStdAlphabet(Quad(Url, x, y, z)) == Quad(Standard, x, y, z)
    ensures ToStdAlphabet(Quad(Url, x, y, z)[..2]) == Quad(Standard, x, y, z)[..2]
    ensures ToStdAlphabet(Quad(Url, x, y, z)[..3]) == Quad(Standard, x, y, z)[..3]
  {
    StdCharOfUrl(x / 4);
    StdCharOfUrl(x % 4 * 16 + y / 16);
    StdCharOfUrl(y % 16 * 4 + z / 64);
    StdCharOfUrl(z % 64);
  }

  lemma ToStdConcat(s: string, t: string)
    ensures ToStdAlphabet(s + t) == ToStdAlphabet(s) + ToStdAlphabet(t)
    ensures forall u :: u == "" || u == "=" || u == "==" ==> ToStdAlphabet(u) == u
  {
  }

  /** The decoder accepts base64url with its padding and without, for every byte string. */
  lemma B64urlRoundTrip(padded: bool, bs: seq<Byte>)
    ensures B64urlDecode(Encode(Url, padded, bs)) == Some(bs)
  {
    ToStdOfEncode(padded, bs);
    PadUpEncode(padded, bs);
    RoundTrip(Standard, true, bs);
  }

  /** Text in the standard alphabet is understood as well. */
  lemma StandardAlphabetToo(padded: bool, bs: seq<Byte>)
    ensures B64urlDecode(Encode(Standard, padded, bs)) == Some(bs)
  {
    StdFixed(padded, bs);
    PadUpEncode(padded, bs);
    RoundTrip(Standard, true, bs);
  }

  lemma {:induction false} StdFixed(padded: bool, bs: seq<Byte>)
    ensures ToStdAlphabet(Encode(Standard, padded, bs)) == Encode(Standard, padded, bs)
  {
    NoUrlChars(padded, bs);
    var e := Encode(Standard, padded, bs);
    forall i | 0 <= i < |e| ensures StdChar(e[i]) == e[i] {
      assert e[i] in e;
    }
  }

  lemma {:induction false} NoUrlChars(padded: bool, bs: seq<Byte>)
    ensures '-' !in Encode(Standard, padded, bs) && '_' !in Encode(Standard, padded, bs)
  {
    if |bs| >= 3 {
      NoUrlChars(padded, bs[3..]);
    }
  }

  lemma PadUpEncode(padded: bool, bs: seq<Byte>)
    ensures PadUp(Encode(Standard, padded, bs)) == Encode(Standard, true, bs)
  {
    PaddedFromRaw(Standard, bs);
    PadUpEither(Encode(Standard, false, bs));
  }

  /** Padding up completes an unpadded text and leaves a padded one alone. */
  lemma PadUpEither(raw: string)
    requires |raw| % 4 != 1
    ensures PadUp(raw) == PadUp(raw + Padding(|raw|)) == raw + Padding(|raw|)
  {
    assert |raw + Padding(|raw|)| % 4 == 0;
  }

  // ----- What a decoded token holds -----

  function Total(ps: seq<Proof>): int {
    if ps == [] then 0 else Total(ps[..|ps| - 1]) + ps[|ps| - 1].amount
  }

  /** All proofs of a version 3 token, in order. */
  function Proofs3(ms: seq<V3Mint>): seq<Proof> {
    if ms == [] then [] else Proofs3(ms[..|ms| - 1]) + ms[|ms| - 1].proofs
  }

  function Proof4(e: V4Entry, p: V4Proof): Proof {
    Proof(p.amount, Text.Hex(e.keysetId), p.secret, Text.Hex(p.c))
  }

  function EntryProofs4(e: V4Entry): (r: seq<Proof>)
    ensures |r| == |e.proofs|
  {
    seq(|e.proofs|, i requires 0 <= i < |e.proofs| => Proof4(e, e.proofs[i]))
  }

  /** All proofs of a version 4 token, in order, each under its keyset's id. */
  function Proofs4(es: seq<V4Entry>): seq<Proof> {
    if es == [] then [] else Proofs4(es[..|es| - 1]) + EntryProofs4(es[|es| - 1])
  }

  function MintsOf(ms: seq<V3Mint>): set<string> {
    set m | m in ms && m.mint != "" :: m.mint
  }

  lemma TotalSnoc(ps: seq<Proof>, p: Proof)
    ensures Wrap64(Total(ps + [p])) == Wrap64(Wrap64(Total(ps)) + p.amount)
  {
    assert (ps + [p])[..|ps|] == ps;
    WrapAdd(Total(ps), p.amount);
  }

  lemma TakeOne(before: seq<Proof>, row: seq<Proof>, j: nat)
    requires j < |row|
    ensures before + row[..j + 1] == before + row[..j] + [row[j]]
  {
  }

  /** What decoding a parsed version 3 token must answer, error by error. */
  ghost predicate AnswersV3(v3: V3Token, r: Result<TokenData, TokenError>) {
    var proofs, mints := Proofs3(v3.token), MintsOf(v3.token);
    var amount := Wrap64(Total(proofs));
    && (r == Err(ZeroValue) <==> amount == 0)
    && (r == Err(NoMint) <==> amount != 0 && mints == {})
    && (r == Err(MultiMint) <==> amount != 0 && |mints| > 1)
    && (r.Ok? <==> amount != 0 && |mints| == 1)
    && (r.Ok? ==> mints == {r.value.mint} && r.value == TokenData(r.value.mint, v3.unit, v3.memo, amount, proofs))
  }

  /** The decoding loop: running amount, proof list, last mint seen and the set of mints. */
  method GatherV3(token: seq<V3Mint>) returns (proofs: seq<Proof>, amount: int, mint: string, mints: set<string>)
    ensures proofs == Proofs3(token)
    ensures amount == Wrap64(Total(proofs))
    ensures mints == MintsOf(token)
    ensures if mints == {} then mint == "" else mint in mints
  {
    proofs, amount, mint, mints := [], 0, "", {};
    for i := 0 to |token|
      invariant proofs == Proofs3(token[..i])
      invariant amount == Wrap64(Total(proofs))
      invariant mints == MintsOf(token[..i])
      invariant if mints == {} then mint == "" else mint in mints
    {
      var t := token[i];
      assert token[..i + 1] == token[..i] + [t];
      if t.mint != "" {
        mint := t.mint;
        mints := mints + {t.mint};
      }
      assert mints == MintsOf(token[..i + 1]) by {
        assert forall m :: m in token[..i + 1] <==> m in token[..i] || m == t;
      }
      assert token[..i + 1][..i] == token[..i];
      proofs, amount := GatherEntry3(t.proofs, proofs, amount);
    }
    assert token[..|token|] == token;
  }

  /** The inner loop: one entry's proofs, appended and counted. */
  method GatherEntry3(row: seq<Proof>, before: seq<Proof>, sum: int) returns (proofs: seq<Proof>, amount: int)
    requires sum == Wrap64(Total(before))
    ensures proofs == before + row
    ensures amount == Wrap64(Total(proofs))
  {
    proofs, amount := before, sum;
    for j := 0 to |row|
      invariant proofs == before + row[..j]
      invariant amount == Wrap64(Total(proofs))
    {
      var p := row[j];
      TotalSnoc(proofs, p);
      TakeOne(before, row, j);
      amount := Wrap64(amount + p.amount);
      proofs := proofs + [p];
    }
    assert row[..|row|] == row;
  }

  method DecodeV3(parsers: Parsers, raw: string) returns (r: Result<TokenData, TokenError>)
    ensures r != Err(NotCashu)
    ensures B64urlDecode(raw).None? <==> r == Err(BadBase64)
    ensures B64urlDecode(raw).Some? ==>
              var v3 := parsers.json(B64urlDecode(raw).value);
              (v3.None? <==> r == Err(BadBody)) && (v3.Some? ==> AnswersV3(v3.value, r))
  {
    var bytes := B64urlDecode(raw);
    if bytes.None? {
      return Err(BadBase64);
    }
    var parsed := parsers.json(bytes.value);
    if parsed.None? {
      return Err(BadBody);
    }
    var v3 := parsed.value;
    var proofs, amount, mint, mints := GatherV3(v3.token);
    if amount == 0 {
      return Err(ZeroValue);
    }
    if mint == "" {
      assert mints == {} by {
        assert "" !in MintsOf(v3.token);
      }
      return Err(NoMint);
    }
    if |mints| > 1 {
      return Err(MultiMint);
    }
    SingleMember(mints, mint);
    return Ok(TokenData(mint, v3.unit, v3.memo, amount, proofs));
  }

  lemma SingleMember(s: set<string>, x: string)
    requires x in s && |s| <= 1
    ensures s == {x}
  {
    assert |s - {x}| == |s| - 1;
    assert s - {x} == {};
  }

  /** What decoding a parsed version 4 token must answer. */
  ghost predicate AnswersV4(v4: V4Token, r: Result<TokenData, TokenError>) {
    var proofs := Proofs4(v4.token);
    var amount := Wrap64(Total(proofs));
    if v4.mint == "" then r == Err(NoMint)
    else if amount == 0 then r == Err(ZeroValue)
    else r == Ok(TokenData(v4.mint, v4.unit, v4.memo, amount, proofs))
  }

  method GatherV4(token: seq<V4Entry>) returns (proofs: seq<Proof>, amount: int)
    ensures proofs == Proofs4(token)
    ensures amount == Wrap64(Total(proofs))
  {
    proofs, amount := [], 0;
    for i := 0 to |token|
      invariant proofs == Proofs4(token[..i])
      invariant amount == Wrap64(Total(proofs))
    {
      assert token[..i + 1][..i] == token[..i];
      proofs, amount := GatherEntry4(token[i], proofs, amount);
    }
    assert token[..|token|] == token;
  }

  /** The inner loop: one entry's proofs, converted and counted. */
  method GatherEntry4(e: V4Entry, before: seq<Proof>, sum: int) returns (proofs: seq<Proof>, amount: int)
    requires sum == Wrap64(Total(before))
    ensures proofs == before + EntryProofs4(e)
    ensures amount == Wrap64(Total(proofs))
  {
    proofs, amount := before, sum;
    ghost var row := EntryProofs4(e);
    for j := 0 to |e.proofs|
      invariant proofs == before + row[..j]
      invariant amount == Wrap64(Total(proofs))
    {
      var p := Proof4(e, e.proofs[j]);
      TotalSnoc(proofs, p);
      TakeOne(before, row, j);
      amount := Wrap64(amount + p.amount);
      proofs := proofs + [p];
    }
    assert row[..|e.proofs|] == row;
  }

  method DecodeV4(parsers: Parsers, raw: string) returns (r: Result<TokenData, TokenError>)
    ensures r != Err(NotCashu)
    ensures B64urlDecode(raw).None? <==> r == Err(BadBase64)
    ensures B64urlDecode(raw).Some? ==>
              var v4 := parsers.cbor(B64urlDecode(raw).value);
              (v4.None? <==> r == Err(BadBody)) && (v4.Some? ==> AnswersV4(v4.value, r))
  {
    var bytes := B64urlDecode(raw);
    if bytes.None? {
      return Err(BadBase64);
    }
    var parsed := parsers.cbor(bytes.value);
    if parsed.None? {
      return Err(BadBody);
    }
    var v4 := parsed.value;
    if v4.mint == "" {
      return Err(NoMint);
    }
    var proofs, amount := GatherV4(v4.token);
    if amount == 0 {
      return Err(ZeroValue);
    }
    return Ok(TokenData(v4.mint, v4.unit, v4.memo, amount, proofs));
  }

  /** When a token must be accepted: its parts decode, it names one mint, and it has a value. */
  ghost predicate Decodable(parsers: Parsers, token: string) {
    || ("cashuB" <= token && B64urlDecode(token[6..]).Some? &&
        var v4 := parsers.cbor(B64urlDecode(token[6..]).value);
        v4.Some? && v4.value.mint != "" && Wrap64(Total(Proofs4(v4.value.token))) != 0)
    || ("cashuA" <= token && B64urlDecode(token[6..]).Some? &&
        var v3 := parsers.json(B64urlDecode(token[6..]).value);
        && v3.Some? && Wrap64(Total(Proofs3(v3.value.token))) != 0
        && (exists m :: m in v3.value.token && m.mint != "")
        && OneName(v3.value.token))
  }

  /** All entries that name a mint name the same. */
  predicate OneName(ms: seq<V3Mint>) {
    forall m, n :: m in ms && n in ms && m.mint != "" && n.mint != "" ==> m.mint == n.mint
  }

  lemma OneMint(ms: seq<V3Mint>)
    ensures |MintsOf(ms)| == 1 <==>
            && (exists m :: m in ms && m.mint != "")
            && OneName(ms)
  {
    var s := MintsOf(ms);
    if |s| == 1 {
      var x :| x in s;
      SingleMember(s, x);
      forall m | m in ms && m.mint != "" ensures m.mint == x {
        assert m.mint in s;
      }
    }
    if m :| m in ms && m.mint != "" {
      assert m.mint in s;
      if OneName(ms) {
        assert s == {m.mint};
      }
    }
  }

  /** Flattening keeps entries and proofs in order, and loses and repeats none. */
  lemma FlattenSnoc3(es: seq<V3Mint>, e: V3Mint)
    ensures Proofs3(es + [e]) == Proofs3(es) + e.proofs
  {
    assert (es + [e])[..|es|] == es;
  }

  lemma {:induction false} FlattenConcat3(a: seq<V3Mint>, b: seq<V3Mint>)
    ensures Proofs3(a + b) == Proofs3(a) + Proofs3(b)
    ensures |b| == 1 ==> Proofs3(b) == b[0].proofs
  {
    if b == [] {
      assert a + b == a;
    } else {
      var front, e := b[..|b| - 1], b[|b| - 1];
      assert b == front + [e] && a + b == (a + front) + [e];
      FlattenConcat3(a, front);
      FlattenSnoc3(front, e);
      FlattenSnoc3(a + front, e);
    }
  }

  lemma FlattenSnoc4(es: seq<V4Entry>, e: V4Entry)
    ensures Proofs4(es + [e]) == Proofs4(es) + EntryProofs4(e)
  {
    assert (es + [e])[..|es|] == es;
  }

  lemma {:induction false} FlattenConcat4(a: seq<V4Entry>, b: seq<V4Entry>)
    ensures Proofs4(a + b) == Proofs4(a) + Proofs4(b)
    ensures |b| == 1 ==> Proofs4(b) == EntryProofs4(b[0])
  {
    if b == [] {
      assert a + b == a;
    } else {
      var front, e := b[..|b| - 1], b[|b| - 1];
      assert b == front + [e] && a + b == (a + front) + [e];
      FlattenConcat4(a, front);
      FlattenSnoc4(front, e);
      FlattenSnoc4(a + front, e);
    }
  }

  lemma {:induction false} TotalConcat(a: seq<Proof>, b: seq<Proof>)
    ensures Total(a + b) == Total(a) + Total(b)
    ensures |b| == 1 ==> Total(b) == b[0].amount
  {
    if b == [] {
      assert a + b == a;
    } else {
      var n := |b| - 1;
      assert (a + b)[..|a + b| - 1] == a + b[..n];
      TotalConcat(a, b[..n]);
    }
  }

  /** Each version 4 proof keeps its amount and secret, and spells keyset id and signature in hexadecimal. */
  lemma EntryProofIs(e: V4Entry, i: nat)
    requires i < |e.proofs|
    ensures
      var p, q := EntryProofs4(e)[i], e.proofs[i];
      && p.amount == q.amount && p.secret == q.secret
      && Text.HexOf(p.id, e.keysetId) && Text.HexOf(p.c, q.c)
  {
    Text.HexIs(e.keysetId);
    Text.HexIs(e.proofs[i].c);
  }

  /** Whatever the version, a decoded token's amount is the (64-bit) sum of its own proofs. */
  method DecodeToken(parsers: Parsers, token: string) returns (r: Result<TokenData, TokenError>)
    ensures r == Err(NotCashu) <==> !("cashuA" <= token) && !("cashuB" <= token)
    ensures r.Ok? <==> Decodable(parsers, token)
    ensures r.Ok? ==> r.value.amount == Wrap64(Total(r.value.proofs)) && r.value.amount != 0 && r.value.mint != ""
    ensures r.Ok? ==>
              var bytes := B64urlDecode(token[6..]);
              && bytes.Some?
              && ("cashuB" <= token ==>
                    var v4 := parsers.cbor(bytes.value);
                    v4.Some? && r.value.proofs == Proofs4(v4.value.token) && r.value.mint == v4.value.mint)
              && ("cashuA" <= token ==>
                    var v3 := parsers.json(bytes.value);
                    && v3.Some? && r.value.proofs == Proofs3(v3.value.token)
                    && forall m :: m in v3.value.token && m.mint != "" ==> m.mint == r.value.mint)
  {
    if "cashuB" <= token {
      r := DecodeV4(parsers, token[6..]);
      assert !("cashuA" <= token) by { assert token[5] == 'B'; }
    } else if "cashuA" <= token {
      r := DecodeV3(parsers, token[6..]);
      assert !("cashuB" <= token) by { assert token[5] == 'A'; }
      if B64urlDecode(token[6..]).Some? && parsers.json(B64urlDecode(token[6..]).value).Some? {
        OneMint(parsers.json(B64urlDecode(token[6..]).value).value.token);
      }
      if r.Ok? {
        ghost var v3 := parsers.json(B64urlDecode(token[6..]).value);
        forall m | m in v3.value.token && m.mint != "" ensures m.mint == r.value.mint {
          assert m.mint in MintsOf(v3.value.token);
        }
        assert r.value.mint in MintsOf(v3.value.token);
      }
    } else {
      return Err(NotCashu);
    }
  }

  // ----- NUT-07 -----

  datatype ProofState = Unspent | Spent | Pending

  predicate SpentWord(s: string) {
    s == "SPENT" || s == "PENDING_SPENT"
  }

  predicate PendingWord(s: string) {
    s == "PENDING" || s == "RESERVED"
  }

  predicate KnownWord(s: string) {
    SpentWord(s) || PendingWord(s) || s == "UNSPENT"
  }

  /**
   * Aggregates the mint's answer. The result is Unspent only for one UNSPENT per proof; any unknown word or
   * a wrong number of answers fails closed, wherever it stands in the list.
   */
  method AggregateStates(proofs: nat, states: seq<string>) returns (r: Option<ProofState>)
    ensures r.Some? <==>
            && |states| == proofs
            && forall s :: s in states ==> s in {"UNSPENT", "SPENT", "PENDING_SPENT", "PENDING", "RESERVED"}
    ensures r.Some? ==> (r == Some(Spent) <==> "SPENT" in states || "PENDING_SPENT" in states)
    ensures r == Some(Unspent) <==> |states| == proofs && forall s :: s in states ==> s == "UNSPENT"
  {
    if |states| != proofs {
      return None;
    }
    var hasSpent, hasPending := false, false;
    for i := 0 to |states|
      invariant forall s :: s in states[..i] ==> KnownWord(s)
      invariant hasSpent <==> exists s :: s in states[..i] && SpentWord(s)
      invariant hasPending <==> exists s :: s in states[..i] && PendingWord(s)
    {
      var s := states[i];
      assert states[..i + 1] == states[..i] + [s];
      assert forall x :: x in states[..i + 1] <==> x in states[..i] || x == s;
      if SpentWord(s) {
        hasSpent := true;
      } else if PendingWord(s) {
        hasPending := true;
      } else if s != "UNSPENT" {
        assert s in states && !KnownWord(s);
        return None;
      }
    }
    assert states[..|states|] == states;
    if hasSpent {
      return Some(Spent);
    }
    if hasPending {
      return Some(Pending);
    }
    return Some(Unspent);
  }
}
