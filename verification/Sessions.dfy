/** The session store: one file per session path, times in nanoseconds. */
module Sessions {
  import opened Common
  import opened Payment

  const NS := 1_000_000_000
  const HOUR := 3600 * NS
  const RATE_SEC_PER_SAT := 10

  datatype Record = Record(
    mac: string, token: string, guest: string, mint: string, amount: int, unit: string,
    started: int, duration: int, source: Source, payType: PaymentType, classAttr: string)

  /** A session file either parses or does not. */
  datatype File = Json(rec: Record) | Corrupt

  type Files = map<string, File>

  /** What a file write leaves behind: the record, an unreadable remnant, or the old content. */
  datatype WriteOutcome = Written | Torn | Failed

  function Deadline(rec: Record): int {
    rec.started + Wrap64(rec.duration * NS)
  }

  predicate IsActive(rec: Record, now: int) {
    now < Deadline(rec)
  }

  function Prefix(s: string, n: nat): string {
    if |s| < n then s else s[..n]
  }

  function Path(hash: string -> string, mac: string): string {
    match SanitizeMAC(mac)
    case Some(clean) => clean + ".json"
    case None => Prefix(hash(mac), 16) + ".json"
  }

  function Get(files: Files, path: string): Option<Record> {
    if path in files && files[path].Json? then Some(files[path].rec) else None
  }

  /** An active record at a path: the only thing a reconnect can resume. */
  function Live(files: Files, path: string, now: int): Option<Record> {
    var rec := Get(files, path);
    if rec.Some? && IsActive(rec.value, now) then rec else None
  }

  function SaveTo(files: Files, path: string, rec: Record, outcome: WriteOutcome): Files {
    match outcome
    case Written => files[path := Json(rec)]
    case Torn => files[path := Corrupt]
    case Failed => files
  }

  predicate IsSessionFile(name: string) {
    |name| >= 5 && name[|name| - 5..] == ".json"
  }

  /** What cleanup deletes: unreadable files and records more than an hour past their deadline. */
  predicate Removable(f: File, now: int) {
    f.Corrupt? || now > Deadline(f.rec) + HOUR
  }

  function Cleaned(files: Files, now: int): Files {
    map p | p in files && !(IsSessionFile(p) && Removable(files[p], now)) :: files[p]
  }

  /** Cleanup in plain figures: a session file goes when it is unreadable or an hour past its paid time. */
  lemma CleanedIs(files: Files, now: int, p: string)
    requires p in files && (files[p].Json? ==> 0 <= files[p].rec.duration <= 9_223_372_036)
    ensures p in Cleaned(files, now) <==>
            || !(exists stem: string :: p == stem + ".json")
            || (files[p].Json? && now <= files[p].rec.started + (files[p].rec.duration + 3600) * 1_000_000_000)
  {
    SessionFileIff(p);
  }

  lemma SessionFileIff(p: string)
    ensures IsSessionFile(p) <==> exists stem: string :: p == stem + ".json"
  {
    if IsSessionFile(p) {
      assert p == p[..|p| - 5] + ".json";
    }
    if stem: string :| p == stem + ".json" {
      assert p[|p| - 5..] == ".json";
    }
  }

  /** A paid session is active exactly for ten seconds a sat from its start. */
  lemma ActiveIff(rec: Record, now: int)
    requires 0 < rec.amount <= 922_337_203 && rec.duration == Seconds(rec.amount)
    ensures IsActive(rec, now) <==> now < rec.started + 10 * rec.amount * 1_000_000_000
  {
    DeadlineExactIff(rec);
  }

  /** A MAC's hexadecimal digits in lower case, colons and hyphens left out, in one pass. */
  function Bare(mac: string): string {
    if mac == "" then ""
    else if mac[0] in {':', '-'} then Bare(mac[1..])
    else [if 65 <= mac[0] as int <= 90 then (mac[0] as int + 32) as char else mac[0]] + Bare(mac[1..])
  }

  lemma {:induction false} WithoutLower(s: string, c: char)
    requires c in {':', '-'}
    ensures Without(ToLower(s), c) == ToLower(Without(s, c))
  {
    if s != "" {
      WithoutLower(s[1..], c);
      assert ToLower(s)[1..] == ToLower(s[1..]);
      if s[0] == c {
        assert Without(s, c) == Without(s[1..], c);
      } else {
        assert LowerChar(s[0]) != c;
        assert ToLower([s[0]] + Without(s[1..], c)) == [LowerChar(s[0])] + ToLower(Without(s[1..], c));
      }
    }
  }

  lemma {:induction false} BareIs(mac: string)
    ensures ToLower(Without(Without(mac, ':'), '-')) == Bare(mac)
  {
    if mac != "" {
      BareIs(mac[1..]);
      var rest := Without(Without(mac[1..], ':'), '-');
      if mac[0] != ':' && mac[0] != '-' {
        var inner := Without(mac[1..], ':');
        assert Without(mac, ':') == [mac[0]] + inner;
        assert ([mac[0]] + inner)[1..] == inner;
        assert ToLower([mac[0]] + rest) == [LowerChar(mac[0])] + ToLower(rest);
      } else if mac[0] == '-' {
        var inner := Without(mac[1..], ':');
        assert Without(mac, ':') == ['-'] + inner;
        assert (['-'] + inner)[1..] == inner;
      }
    }
  }

  /**
   * The file of a client: its MAC's digits, whatever the case and separators; for other session ids, the first
   * sixteen characters of the id's hash. Two MACs share a file exactly when their digits agree.
   */
  lemma PathIs(hash: string -> string, mac: string, other: string)
    ensures MacPattern(mac) ==> Path(hash, mac) == Bare(mac) + ".json"
    ensures !MacPattern(mac) ==> Path(hash, mac) == Prefix(hash(mac), 16) + ".json"
    ensures MacPattern(mac) && MacPattern(other) ==>
              (Path(hash, mac) == Path(hash, other) <==> Bare(mac) == Bare(other))
  {
    PathOfMac(hash, mac);
    PathOfMac(hash, other);
    if MacPattern(mac) && MacPattern(other) && Path(hash, mac) == Path(hash, other) {
      var p := Path(hash, mac);
      assert p[..|p| - 5] == Bare(mac) && p[..|p| - 5] == Bare(other);
    }
  }

  lemma PathOfMac(hash: string -> string, mac: string)
    ensures MacPattern(mac) ==> Path(hash, mac) == Bare(mac) + ".json"
  {
    WithoutLower(mac, ':');
    WithoutLower(Without(mac, ':'), '-');
    BareIs(mac);
  }

  /** Lower-case digits without separators stand for themselves, so distinct plain MACs have distinct files. */
  lemma {:induction false} BareFixed(mac: string)
    requires forall i :: 0 <= i < |mac| ==> '0' <= mac[i] <= '9' || 'a' <= mac[i] <= 'f' || mac[i] == '.'
    ensures Bare(mac) == mac
  {
    if mac != "" {
      BareFixed(mac[1..]);
      assert mac == [mac[0]] + mac[1..];
    }
  }

  class SessionStore {
    const hash: string -> string
    var files: Files

    /** A store over a directory, with whatever session files it holds. */
    constructor (hash: string -> string, files: Files)
      ensures this.hash == hash && this.files == files
    {
      this.hash := hash;
      this.files := files;
    }

    method Lookup(mac: string) returns (rec: Option<Record>)
      ensures rec == Get(files, Path(hash, mac))
      ensures rec.Some? <==> Path(hash, mac) in files && files[Path(hash, mac)].Json?
      ensures rec.Some? ==> files[Path(hash, mac)] == Json(rec.value)
    {
      var path := Path(hash, mac);
      if path !in files {
        return None;
      }
      match files[path]
      case Json(r) => return Some(r);
      case Corrupt => return None;
    }

    method Save(rec: Record, outcome: WriteOutcome)
      modifies this
      ensures files == SaveTo(old(files), Path(hash, rec.mac), rec, outcome)
      ensures forall p :: p != Path(hash, rec.mac) ==>
                (p in files <==> p in old(files)) && (p in files ==> files[p] == old(files)[p])
      ensures outcome == Failed ==> files == old(files)
      ensures outcome != Failed ==>
                var p := Path(hash, rec.mac);
                p in files && files[p] == if outcome == Torn then Corrupt else Json(rec)
    {
      var path := Path(hash, rec.mac);
      if outcome != Failed {
        files := files[path := if outcome == Written then Json(rec) else Corrupt];
      }
    }

    method Remove(mac: string)
      modifies this
      ensures files == old(files) - {Path(hash, mac)}
    {
      files := files - {Path(hash, mac)};
    }

    /** One sweep over the directory listing taken at the start, with one clock reading. */
    method Cleanup(now: int)
      modifies this
      ensures files == Cleaned(old(files), now)
      ensures forall p, t :: p in old(files) && p !in files && t >= now ==> Live(old(files), p, t) == None
    {
      ghost var before := files;
      var todo := files.Keys;
      while todo != {}
        invariant todo <= before.Keys
        invariant forall p :: p in todo ==> p in files && files[p] == before[p]
        invariant files == map p | p in before && (p in todo || p in Cleaned(before, now)) :: before[p]
        decreases todo
      {
        var name :| name in todo;
        todo := todo - {name};
        if IsSessionFile(name) {
          match files[name]
          case Corrupt =>
            files := files - {name};
          case Json(rec) =>
            if now > Deadline(rec) + HOUR {
              files := files - {name};
            }
        }
      }
    }
  }

  /** Seconds bought by an amount: ten per sat, in 64-bit arithmetic. */
  function Seconds(amount: int): int {
    Wrap64(amount * RATE_SEC_PER_SAT)
  }

  /** Exactly the amounts up to 922,337,203,685,477,580 sat buy ten seconds each; the next one buys negative time. */
  lemma SecondsExactIff(amount: int)
    requires 0 < amount < TWO63
    ensures Seconds(amount) == 10 * amount <==> amount <= 922_337_203_685_477_580
  {
  }

  lemma SecondsWrapsNegative()
    ensures Seconds(922_337_203_685_477_581) < 0
  {
  }

  /** Exactly the amounts up to 922,337,203 sat have a deadline that many seconds after the start. */
  lemma DeadlineExactIff(rec: Record)
    requires 0 < rec.amount <= 922_337_203_685_477_580 && rec.duration == Seconds(rec.amount)
    ensures Deadline(rec) == rec.started + rec.amount * RATE_SEC_PER_SAT * NS <==> rec.amount <= 922_337_203
  {
  }
}
