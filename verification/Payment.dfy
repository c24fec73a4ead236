/**
 * Finding a payment credential in the RADIUS username and password fields.
 * A Go string is a `string` here, one char per byte.
 */
module Payment {
  import opened Common

  const TOKEN_SPLIT_LEN := 200
  const MAX_INPUT_LEN := 8192

  datatype PaymentType = Cashu | Lnurlw

  datatype Source = Username | Password | CleartextPassword | SplitPassword | SplitCleartext

  datatype Credential = Credential(value: string, source: Source, kind: PaymentType)

  predicate Alnum(c: char) {
    'A' <= c <= 'Z' || 'a' <= c <= 'z' || '0' <= c <= '9'
  }

  predicate TokenChar(c: char) {
    Alnum(c) || c == '-' || c == '_' || c == '='
  }

  predicate HasPrefix(s: string, p: string) {
    p <= s
  }

  predicate IsCashuToken(s: string) {
    HasPrefix(s, "cashuA") || HasPrefix(s, "cashuB")
  }

  predicate IsValidCashuToken(s: string) {
    |s| >= 10 && IsCashuToken(s) && forall i :: 6 <= i < |s| ==> TokenChar(s[i])
  }

  function LowerChar(c: char): char {
    if 'A' <= c <= 'Z' then (c as int + 32) as char else c
  }

  function ToLower(s: string): (r: string)
    ensures |r| == |s|
  {
    seq(|s|, i requires 0 <= i < |s| => LowerChar(s[i]))
  }

  predicate IsLNURLw(s: string) {
    |s| >= 10 && HasPrefix(ToLower(s), "lnurlw")
  }

  predicate IsValidLNURLw(s: string) {
    IsLNURLw(s) && forall i :: 0 <= i < |s| ==> Alnum(s[i])
  }

  predicate Base64urlChar(c: char) {
    Alnum(c) || c == '-' || c == '_'
  }

  predicate IsBase64url(s: string) {
    |s| > 0 && forall i :: 0 <= i < |s| ==> Base64urlChar(s[i])
  }

  predicate Metachar(c: char) {
    c in "'\\;`$()|&><\n\r\0"
  }

  predicate SanitizeInput(s: string) {
    |s| <= MAX_INPUT_LEN && forall i :: 0 <= i < |s| ==> !Metachar(s[i])
  }

  /** The guard shared by both split branches. */
  predicate SplitPair(head: string, username: string) {
    && IsValidCashuToken(head) && |head| == TOKEN_SPLIT_LEN
    && IsBase64url(username) && !IsCashuToken(username) && !IsLNURLw(username)
    && SanitizeInput(head + username)
  }

  function ExtractPayment(username: string, password: string, cleartext: string): Option<Credential> {
    if IsValidCashuToken(username) then Some(Credential(username, Username, Cashu))
    else if IsValidLNURLw(username) then Some(Credential(username, Username, Lnurlw))
    else if IsValidLNURLw(password) then Some(Credential(password, Password, Lnurlw))
    else if IsValidLNURLw(cleartext) then Some(Credential(cleartext, CleartextPassword, Lnurlw))
    else if SplitPair(password, username) then Some(Credential(password + username, SplitPassword, Cashu))
    else if SplitPair(cleartext, username) then Some(Credential(cleartext + username, SplitCleartext, Cashu))
    else if IsValidCashuToken(password) && |password| != TOKEN_SPLIT_LEN then
      Some(Credential(password, Password, Cashu))
    else if IsValidCashuToken(cleartext) && |cleartext| != TOKEN_SPLIT_LEN then
      Some(Credential(cleartext, CleartextPassword, Cashu))
    else None
  }

  predicate MacPattern(mac: string) {
    forall i :: 0 <= i < |mac| ==> MacChar(mac[i])
  }

  predicate MacChar(c: char) {
    '0' <= c <= '9' || 'a' <= c <= 'f' || 'A' <= c <= 'F' || c == ':' || c == '-' || c == '.'
  }

  function Without(s: string, c: char): (r: string)
    ensures c !in r
    ensures forall x :: x in r ==> x in s
  {
    if s == "" then ""
    else if s[0] == c then Without(s[1..], c)
    else [s[0]] + Without(s[1..], c)
  }

  function SanitizeMAC(mac: string): Option<string> {
    if MacPattern(mac) then Some(Without(Without(ToLower(mac), ':'), '-')) else None
  }

  /** A valid token contains no shell metacharacter, so only its length can fail sanitising. */
  lemma ValidTokenSanitized(s: string)
    requires IsValidCashuToken(s)
    ensures SanitizeInput(s) <==> |s| <= 8192
  {
    forall i | 0 <= i < |s| ensures !Metachar(s[i]) {
      if i < 6 {
        assert s[i] == "cashuA"[i] || s[i] == "cashuB"[i];
      } else {
        assert TokenChar(s[i]);
      }
    }
  }

  /** Gluing a base64url tail onto a valid head keeps it valid. */
  lemma JoinedTokenValid(head: string, tail: string)
    requires IsValidCashuToken(head) && IsBase64url(tail)
    ensures IsValidCashuToken(head + tail)
  {
    var s := head + tail;
    assert s[..6] == head[..6];
    forall i | 6 <= i < |s| ensures TokenChar(s[i]) {
      if i >= |head| {
        assert s[i] == tail[i - |head|];
      }
    }
  }

  /** Nothing but a well-formed token ever reaches the token decoder or the redeem subprocess. */
  lemma ExtractedCashuIsValid(username: string, password: string, cleartext: string)
    ensures
      var c := ExtractPayment(username, password, cleartext);
      c.Some? && c.value.kind == Cashu ==> IsValidCashuToken(c.value.value)
  {
    if SplitPair(password, username) {
      JoinedTokenValid(password, username);
    }
    if SplitPair(cleartext, username) {
      JoinedTokenValid(cleartext, username);
    }
  }

  /** The first bytes of a token are never mistaken for an LNURLw code. */
  lemma CashuIsNotLnurlw(s: string)
    requires IsCashuToken(s)
    ensures !IsLNURLw(s)
  {
    assert s[0] == 'c';
    if |s| >= 6 {
      assert ToLower(s)[0] == 'c' && "lnurlw"[0] == 'l';
    }
  }

  /**
   * Splitting a token at byte 200 and extracting it again gives the token back exactly when the tail is
   * base64url without a credential prefix of its own and the third field is not an LNURLw code.
   */
  lemma SplitRoundTrip(token: string, cleartext: string)
    requires IsValidCashuToken(token) && 200 < |token| <= 8192
    ensures
      var head, tail := token[..200], token[200..];
      ExtractPayment(tail, head, cleartext) == Some(Credential(token, SplitPassword, Cashu))
      <==> IsBase64url(tail) && !IsCashuToken(tail) && !IsLNURLw(tail) && !IsValidLNURLw(cleartext)
  {
    var head, tail := token[..TOKEN_SPLIT_LEN], token[TOKEN_SPLIT_LEN..];
    assert head + tail == token;
    assert head[..6] == token[..6];
    assert IsValidCashuToken(head);
    ValidTokenSanitized(token);
    CashuIsNotLnurlw(head);
  }

  /** A token is cashuA or cashuB and four or more letters, digits, hyphens, underscores and equals signs. */
  lemma ValidTokenIs(s: string)
    ensures IsValidCashuToken(s) <==>
            && |s| >= 10 && (s[..6] == "cashuA" || s[..6] == "cashuB")
            && forall i :: 6 <= i < |s| ==>
                 var n := s[i] as int;
                 48 <= n <= 57 || 65 <= n <= 90 || 97 <= n <= 122 || n == 45 || n == 95 || n == 61
  {
  }

  /** An LNURLw code is lnurlw in any case and at least four more characters, all of them letters and digits. */
  lemma ValidLnurlwIs(s: string)
    ensures IsValidLNURLw(s) <==>
            && |s| >= 10 && ToLower(s[..6]) == "lnurlw"
            && forall i :: 0 <= i < |s| ==> var n := s[i] as int; 48 <= n <= 57 || 65 <= n <= 90 || 97 <= n <= 122
  {
    if |s| >= 10 {
      assert ToLower(s)[..6] == ToLower(s[..6]);
    }
  }

  /** Which fields make a pair: a 200-byte token start and a base64url tail, up to 8192 bytes together. */
  lemma SplitPairIs(head: string, tail: string)
    ensures SplitPair(head, tail) <==>
            && IsValidCashuToken(head) && |head| == 200 && |tail| > 0 && |head| + |tail| <= 8192
            && !("cashuA" <= tail) && !("cashuB" <= tail) && !(|tail| >= 10 && ToLower(tail[..6]) == "lnurlw")
            && forall i :: 0 <= i < |tail| ==>
                 var n := tail[i] as int; 48 <= n <= 57 || 65 <= n <= 90 || 97 <= n <= 122 || n == 45 || n == 95
  {
    if |tail| >= 10 {
      assert ToLower(tail)[..6] == ToLower(tail[..6]);
    }
    if IsValidCashuToken(head) && IsBase64url(tail) {
      JoinedTokenValid(head, tail);
      ValidTokenSanitized(head + tail);
    }
  }

  /** The value is the text of the very fields that the source names, and of the kind that is claimed. */
  lemma ExtractedFromSource(username: string, password: string, cleartext: string)
    ensures
      var found := ExtractPayment(username, password, cleartext);
      found.Some? ==>
        var c := found.value;
        && (c.source == Username ==> c.value == username)
        && (c.source == Password ==> c.value == password)
        && (c.source == CleartextPassword ==> c.value == cleartext)
        && (c.source == SplitPassword ==> |password| == 200 && c.value == password + username && c.kind == Cashu)
        && (c.source == SplitCleartext ==> |cleartext| == 200 && c.value == cleartext + username && c.kind == Cashu)
        && (c.kind == Lnurlw <==> IsValidLNURLw(c.value))
  {
    var found := ExtractPayment(username, password, cleartext);
    if found.Some? && found.value.kind == Cashu {
      ExtractedCashuIsValid(username, password, cleartext);
      CashuIsNotLnurlw(found.value.value);
    }
  }

  /** Nothing is found exactly when no field holds a credential and no pair of fields makes one. */
  lemma NothingFoundIff(username: string, password: string, cleartext: string)
    ensures ExtractPayment(username, password, cleartext) == None <==>
            && !IsValidCashuToken(username) && !IsValidLNURLw(username)
            && !IsValidLNURLw(password) && !IsValidLNURLw(cleartext)
            && !SplitPair(password, username) && !SplitPair(cleartext, username)
            && (IsValidCashuToken(password) ==> |password| == 200)
            && (IsValidCashuToken(cleartext) ==> |cleartext| == 200)
  {
  }

  /** A token in the username always pays; an LNURLw code is taken exactly when no username token comes first. */
  lemma UsernameFirst(username: string, password: string, cleartext: string)
    ensures IsValidCashuToken(username) ==>
              ExtractPayment(username, password, cleartext) == Some(Credential(username, Username, Cashu))
    ensures
      var found := ExtractPayment(username, password, cleartext);
      found.Some? && found.value.kind == Lnurlw <==>
        !IsValidCashuToken(username) &&
        (IsValidLNURLw(username) || IsValidLNURLw(password) || IsValidLNURLw(cleartext))
  {
  }

  /**
   * A whole token in the password pays exactly when neither the username nor the third field holds a credential
   * that goes first, alone or as a pair.
   */
  lemma PasswordTokenIff(username: string, password: string, cleartext: string)
    requires IsValidCashuToken(password) && |password| != 200
    ensures ExtractPayment(username, password, cleartext) == Some(Credential(password, Password, Cashu)) <==>
            && !IsValidCashuToken(username) && !IsValidLNURLw(username) && !IsValidLNURLw(cleartext)
            && !SplitPair(cleartext, username)
  {
    CashuIsNotLnurlw(password);
  }

  /** A whole token in the third field pays exactly when nothing goes before it. */
  lemma CleartextTokenIff(username: string, password: string, cleartext: string)
    requires IsValidCashuToken(cleartext) && |cleartext| != 200
    ensures ExtractPayment(username, password, cleartext) == Some(Credential(cleartext, CleartextPassword, Cashu)) <==>
            && !IsValidCashuToken(username) && !IsValidLNURLw(username) && !IsValidLNURLw(password)
            && !SplitPair(password, username) && (IsValidCashuToken(password) ==> |password| == 200)
  {
    CashuIsNotLnurlw(cleartext);
  }

  /** The same split through the third field. */
  lemma CleartextSplit(token: string, password: string)
    requires IsValidCashuToken(token) && 200 < |token| <= 8192
    ensures
      var head, tail := token[..200], token[200..];
      ExtractPayment(tail, password, head) == Some(Credential(token, SplitCleartext, Cashu))
      <==>
      && IsBase64url(tail) && !IsCashuToken(tail) && !IsLNURLw(tail) && !IsValidLNURLw(password)
      && !SplitPair(password, tail)
  {
    var head, tail := token[..200], token[200..];
    assert head + tail == token;
    CashuIsNotLnurlw(head);
    ValidTokenSanitized(token);
    assert head[..6] == token[..6];
    assert IsValidCashuToken(head) by {
      forall i | 6 <= i < |head| ensures TokenChar(head[i]) {
        assert head[i] == token[i];
      }
    }
  }
}
