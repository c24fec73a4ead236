/** The OCPI store: maps and a capped log in memory, one file per record and an append-only log on disk. */
module OcpiStore {
  import opened Common
  import Lines

  datatype Prepay = Prepay(
    uid: string, tokenHash: string, allotmentSec: int, credit: int, mintUrl: string,
    used: bool, authorizedAt: Option<int>)

  datatype Cdr = Cdr(id: string, authId: string, kwh: real, totalCost: real, credit: int)

  datatype Event = Event(at: int, uid: string, allowed: string, reason: string, source: string)

  const AUTHZ_LOG_MAX := 100

  // ----- File names; a string is a sequence of code points here -----

  predicate SafeChar(c: char) {
    'a' <= c <= 'z' || 'A' <= c <= 'Z' || '0' <= c <= '9' || c == '-' || c == '_' || c == '.'
  }

  function Sanitize(s: string): (r: string)
    ensures |r| == |s|
  {
    seq(|s|, i requires 0 <= i < |s| => if SafeChar(s[i]) then s[i] else '_')
  }

  method SanitizeFileName(s: string) returns (r: string)
    ensures r == Sanitize(s) && |r| == |s|
    ensures forall i :: 0 <= i < |s| ==> r[i] == if KeptChar(s[i]) then s[i] else '_'
  {
    r := "";
    for i := 0 to |s|
      invariant r == Sanitize(s)[..i]
    {
      if SafeChar(s[i]) {
        r := r + [s[i]];
      } else {
        r := r + ['_'];
      }
    }
  }

  /** The characters a file name keeps, by code point: hyphen, dot, digits, capitals, underscore, small letters. */
  predicate KeptChar(c: char) {
    var n := c as int;
    n == 45 || n == 46 || 48 <= n <= 57 || 65 <= n <= 90 || n == 95 || 97 <= n <= 122
  }

  /** Two ids are stored under one name when they differ only where both have a replaced character or an underscore. */
  predicate Collides(a: string, b: string) {
    && |a| == |b|
    && forall i :: 0 <= i < |a| ==> a[i] == b[i] || (ReplacedChar(a[i]) && ReplacedChar(b[i]))
  }

  predicate ReplacedChar(c: char) {
    !KeptChar(c) || c == '_'
  }

  lemma CollidesIff(a: string, b: string)
    ensures Sanitize(a) == Sanitize(b) <==> Collides(a, b)
  {
    forall i | 0 <= i < |a| && i < |b| ensures Sanitize(a)[i] == Sanitize(b)[i] <==>
                                               a[i] == b[i] || (ReplacedChar(a[i]) && ReplacedChar(b[i]))
    {
    }
    if Collides(a, b) {
      assert Sanitize(a) == Sanitize(b);
    } else if |a| == |b| {
      var i :| 0 <= i < |a| && !(a[i] == b[i] || (ReplacedChar(a[i]) && ReplacedChar(b[i])));
      assert Sanitize(a)[i] != Sanitize(b)[i];
    }
  }

  function FileName(id: string): string {
    Sanitize(id) + ".json"
  }

  function TmpName(name: string): string {
    name + ".tmp"
  }

  predicate IsRecordFile(name: string) {
    |name| >= 5 && name[|name| - 5..] == ".json"
  }

  /** Record files and temporary files never share a name, whatever the ids. */
  lemma NamesApart(id: string, name: string)
    ensures IsRecordFile(FileName(id))
    ensures !IsRecordFile(TmpName(name))
    ensures FileName(id) != TmpName(name)
  {
    var f, t := FileName(id), TmpName(name);
    assert f[|f| - 5..] == ".json";
    assert t[|t| - 1] == 'p' && f[|f| - 1] == 'n';
    assert |t| >= 5 ==> t[|t| - 5..][4] == 'p';
  }

  lemma TmpNotRecord(name: string)
    ensures !IsRecordFile(TmpName(name))
  {
    NamesApart("", name);
  }

  lemma SameFile(a: string, b: string)
    ensures FileName(a) == FileName(b) <==> Sanitize(a) == Sanitize(b)
  {
    if FileName(a) == FileName(b) {
      assert Sanitize(a) == FileName(a)[..|FileName(a)| - 5];
      assert Sanitize(b) == FileName(b)[..|FileName(b)| - 5];
    }
  }

  // ----- A directory of JSON files -----

  /** A file holds a parsable value or not; the JSON text itself is not looked into. */
  datatype File<T> = Json(value: T) | Garbage

  type Dir<T> = map<string, File<T>>

  datatype DiskOp<T> = WriteTmp(name: string, value: T) | Rename(name: string)

  function Do<T>(d: Dir<T>, op: DiskOp<T>): Dir<T> {
    match op
    case WriteTmp(name, v) => d[TmpName(name) := Json(v)]
    case Rename(name) =>
      if TmpName(name) in d then (d - {TmpName(name)})[name := d[TmpName(name)]] else d
  }

  /** What an interrupted operation leaves: a torn temporary file, or no rename at all. */
  function Tear<T>(d: Dir<T>, op: DiskOp<T>): Dir<T> {
    match op
    case WriteTmp(name, _) => d[TmpName(name) := Garbage]
    case Rename(_) => d
  }

  /** Loading a directory: unreadable files and records without an id are skipped. */
  function LoadDir<T>(names: seq<string>, d: Dir<T>, id: T -> string): map<string, T> {
    if names == [] then map[]
    else
      var before, n := LoadDir(names[..|names| - 1], d, id), names[|names| - 1];
      if IsRecordFile(n) && n in d && d[n].Json? && id(d[n].value) != "" then before[id(d[n].value) := d[n].value]
      else before
  }

  ghost predicate Enumerates<T>(names: seq<string>, d: Dir<T>) {
    forall n :: n in d <==> n in names
  }

  /** Every record file holds a record of that name. */
  ghost predicate WellNamed<T>(d: Dir<T>, id: T -> string) {
    forall n :: n in d && IsRecordFile(n) ==>
      d[n].Json? && id(d[n].value) != "" && FileName(id(d[n].value)) == n
  }

  /** Memory and directory agree: each file is the current value of its record, each record with an id has a file. */
  ghost predicate Agrees<T>(mem: map<string, T>, d: Dir<T>, id: T -> string) {
    && WellNamed(d, id)
    && (forall n :: n in d && IsRecordFile(n) ==>
          id(d[n].value) in mem && mem[id(d[n].value)] == d[n].value)
    && (forall k :: k in mem ==> id(mem[k]) == k)
    && (forall k :: k in mem && k != "" ==> FileName(k) in d)
  }

  /** Storing a record and then replacing its file keeps memory and directory in agreement. */
  lemma PersistAgrees<T>(mem: map<string, T>, d: Dir<T>, id: T -> string, v: T)
    requires Agrees(mem, d, id) && id(v) != ""
    ensures
      var n := FileName(id(v));
      Agrees(mem[id(v) := v], Do(Do(d, WriteTmp(n, v)), Rename(n)), id)
  {
    NamesApart(id(v), FileName(id(v)));
  }

  lemma {:induction false} LoadedFrom<T>(names: seq<string>, d: Dir<T>, id: T -> string, k: string)
    requires WellNamed(d, id)
    ensures
      var m := LoadDir(names, d, id);
      && (k in m <==> k != "" && FileName(k) in names && FileName(k) in d && id(d[FileName(k)].value) == k)
      && (k in m ==> m[k] == d[FileName(k)].value)
  {
    NamesApart(k, "");
    if names != [] {
      var front, n := names[..|names| - 1], names[|names| - 1];
      LoadedFrom(front, d, id, k);
      assert forall x :: x in names <==> x in front || x == n;
    }
  }

  /** A listed file that a load takes: a .json file that parses and has this id. */
  ghost predicate TakenAs<T>(d: Dir<T>, id: T -> string, n: string, k: string) {
    && (exists stem: string :: n == stem + ".json")
    && n in d && d[n].Json? && id(d[n].value) == k && k != ""
  }

  lemma RecordFileIff(n: string)
    ensures IsRecordFile(n) <==> exists stem: string :: n == stem + ".json"
  {
    if IsRecordFile(n) {
      assert n == n[..|n| - 5] + ".json";
    }
    if stem: string :| n == stem + ".json" {
      assert n[|n| - 5..] == ".json";
    }
  }

  /** Whatever a directory holds: a load finds exactly the ids of such files, each with the last one's record. */
  lemma {:induction false} LoadedAny<T>(names: seq<string>, d: Dir<T>, id: T -> string, k: string)
    ensures
      var m := LoadDir(names, d, id);
      && (k in m <==> exists i :: 0 <= i < |names| && TakenAs(d, id, names[i], k))
      && (k in m ==> exists i :: 0 <= i < |names| && TakenAs(d, id, names[i], k) && m[k] == d[names[i]].value &&
                                 forall j :: i < j < |names| ==> !TakenAs(d, id, names[j], k))
  {
    if names != [] {
      var n := |names| - 1;
      var front, m, before := names[..n], LoadDir(names, d, id), LoadDir(names[..n], d, id);
      LoadedAny(front, d, id, k);
      RecordFileIff(names[n]);
      if TakenAs(d, id, names[n], k) {
        assert k in m && m[k] == d[names[n]].value;
      } else {
        assert k in m <==> k in before;
        if k in before {
          var i :| 0 <= i < |front| && TakenAs(d, id, front[i], k) && before[k] == d[front[i]].value &&
                   forall j :: i < j < |front| ==> !TakenAs(d, id, front[j], k);
          assert names[i] == front[i] && m[k] == before[k];
          forall j | i < j < |names| ensures !TakenAs(d, id, names[j], k) {
            assert j < n ==> names[j] == front[j];
          }
        } else {
          forall i | 0 <= i < |names| ensures !TakenAs(d, id, names[i], k) {
            assert i < n ==> names[i] == front[i];
          }
        }
      }
    }
  }

  /** What a reload rebuilds agrees with the directory again. */
  lemma ReloadAgrees<T>(names: seq<string>, d: Dir<T>, id: T -> string)
    requires WellNamed(d, id) && Enumerates(names, d)
    ensures Agrees(LoadDir(names, d, id), d, id)
  {
    var m := LoadDir(names, d, id);
    forall n | n in d && IsRecordFile(n) ensures id(d[n].value) in m && m[id(d[n].value)] == d[n].value {
      LoadedFrom(names, d, id, id(d[n].value));
    }
    forall k | k in m ensures id(m[k]) == k && FileName(k) in d {
      LoadedFrom(names, d, id, k);
    }
  }

  ghost predicate DistinctNames(keys: set<string>) {
    && "" !in keys
    && forall a, b :: a in keys && b in keys && a != b ==> !Collides(a, b)
  }

  /** A reload rebuilds exactly the memory if and only if the ids are non-empty and sanitise to distinct names. */
  lemma ReloadIff<T>(mem: map<string, T>, names: seq<string>, d: Dir<T>, id: T -> string)
    requires Agrees(mem, d, id) && Enumerates(names, d)
    ensures LoadDir(names, d, id) == mem <==> DistinctNames(mem.Keys)
  {
    var m := LoadDir(names, d, id);
    forall k ensures k in m ==> k in mem && m[k] == mem[k] && k != "" {
      LoadedFrom(names, d, id, k);
      NamesApart(k, "");
    }
    if m == mem {
      forall a, b | a in mem && b in mem && Sanitize(a) == Sanitize(b) ensures a == b {
        LoadedFrom(names, d, id, a);
        LoadedFrom(names, d, id, b);
        SameFile(a, b);
      }
      forall a, b | a in mem && b in mem && a != b ensures !Collides(a, b) {
        CollidesIff(a, b);
      }
    }
    if DistinctNames(mem.Keys) {
      forall k | k in mem ensures k in m {
        var n := FileName(k);
        NamesApart(k, "");
        SameFile(k, id(d[n].value));
        CollidesIff(k, id(d[n].value));
        LoadedFrom(names, d, id, k);
      }
    }
  }

  // ----- The audit log -----

  datatype Codec = Codec(render: Event -> string, parse: string -> Option<Event>)

  /** JSON objects are single lines that start with a brace and end with one. */
  ghost predicate Sound(c: Codec) {
    forall e :: Braced(c.render(e)) && c.parse(c.render(e)) == Some(e)
  }

  /** Text that is not blank, followed by the beginning of a JSON object or all of it, is not an event. */
  ghost predicate GluedFails(c: Codec) {
    forall t, e, k :: 0 < k <= |c.render(e)| && Trim(t) != "" ==> c.parse(Trim(t + c.render(e)[..k])).None?
  }

  /** A JSON object cut short is not an event. */
  ghost predicate CutFails(c: Codec) {
    forall e, k :: 0 < k < |c.render(e)| ==> c.parse(Trim(c.render(e)[..k])).None?
  }

  predicate Braced(l: string) {
    |l| >= 2 && l[0] == '{' && l[|l| - 1] == '}' && '\n' !in l
  }

  /** What Go's TrimSpace takes for a blank. */
  predicate Space(c: char) {
    || c in " \t\n\r\U{0B}\U{0C}\U{85}\U{A0}\U{1680}\U{2028}\U{2029}\U{202F}\U{205F}\U{3000}"
    || '\U{2000}' <= c <= '\U{200A}'
  }

  function TrimRight(s: string): string {
    if s != "" && Space(s[|s| - 1]) then TrimRight(s[..|s| - 1]) else s
  }

  function Trim(s: string): string
    decreases |s|
  {
    if s != "" && Space(s[0]) then Trim(s[1..]) else TrimRight(s)
  }

  lemma {:induction false} TrimRightIs(s: string)
    ensures TrimRight(s) <= s
    ensures TrimRight(s) != "" ==> !Space(TrimRight(s)[|TrimRight(s)| - 1])
    ensures forall i :: |TrimRight(s)| <= i < |s| ==> Space(s[i])
  {
    if s != "" && Space(s[|s| - 1]) {
      TrimRightIs(s[..|s| - 1]);
    }
  }

  /** The text t stands in s from k on, with blanks around it only, and starts and ends with none. */
  predicate TrimmedAt(s: string, t: string, k: nat) {
    && k + |t| <= |s| && s[k..k + |t|] == t
    && (t != "" ==> !Space(t[0]) && !Space(t[|t| - 1]))
    && forall i :: 0 <= i < |s| && !(k <= i < k + |t|) ==> Space(s[i])
  }

  lemma TrimmedLater(c: char, s: string, t: string, k: nat)
    requires TrimmedAt(s, t, k) && Space(c)
    ensures TrimmedAt([c] + s, t, k + 1)
  {
    assert ([c] + s)[k + 1..k + 1 + |t|] == s[k..k + |t|];
    forall i | 0 <= i < |s| + 1 && !(k + 1 <= i < k + 1 + |t|) ensures Space(([c] + s)[i]) {
      if i > 0 {
        assert ([c] + s)[i] == s[i - 1];
      }
    }
  }

  /** Trimming takes the blanks off both ends, and nothing else. */
  lemma {:induction false} TrimIs(s: string) returns (k: nat)
    ensures TrimmedAt(s, Trim(s), k)
    decreases |s|
  {
    if s != "" && Space(s[0]) {
      k := TrimIs(s[1..]);
      TrimmedLater(s[0], s[1..], Trim(s), k);
      assert [s[0]] + s[1..] == s;
      k := k + 1;
    } else {
      TrimRightIs(s);
      k := 0;
    }
  }

  /** The event on one line, if any. */
  function LineEvents(c: Codec, l: string): seq<Event> {
    if Trim(l) != "" && c.parse(Trim(l)).Some? then [c.parse(Trim(l)).value] else []
  }

  /** The events on the pieces of a file; blank lines and lines that do not parse are dropped. */
  function Events(c: Codec, ps: seq<string>): seq<Event> {
    if ps == [] then [] else Events(c, ps[..|ps| - 1]) + LineEvents(c, ps[|ps| - 1])
  }

  function DiskEvents(c: Codec, file: string): seq<Event> {
    Events(c, Lines.Split(file))
  }

  function Newest(es: seq<Event>): seq<Event> {
    if |es| > AUTHZ_LOG_MAX then es[|es| - AUTHZ_LOG_MAX..] else es
  }

  function Reverse(es: seq<Event>): (r: seq<Event>)
    ensures |r| == |es|
    ensures forall i :: 0 <= i < |r| ==> r[i] == es[|es| - 1 - i]
  {
    seq(|es|, i requires 0 <= i < |es| => es[|es| - 1 - i])
  }

  /** The in-memory view of a log: newest first, at most a hundred. */
  function LogView(es: seq<Event>): seq<Event> {
    Reverse(Newest(es))
  }

  function Capped(log: seq<Event>): seq<Event> {
    if |log| > AUTHZ_LOG_MAX then log[..AUTHZ_LOG_MAX] else log
  }

  /** The view has the last hundred events, the last one first. */
  lemma LogViewIs(es: seq<Event>)
    ensures |LogView(es)| == if |es| < 100 then |es| else 100
    ensures forall i :: 0 <= i < |LogView(es)| ==> LogView(es)[i] == es[|es| - 1 - i]
  {
  }

  /** Prepending and capping in memory is appending on disk. */
  lemma LogViewAppend(es: seq<Event>, e: Event)
    ensures LogView(es + [e]) == Capped([e] + LogView(es))
  {
    var a, b := LogView(es + [e]), Capped([e] + LogView(es));
    var n, m := Newest(es + [e]), Newest(es);
    assert |a| == |b|;
    forall i | 0 <= i < |a| ensures a[i] == b[i] {
      assert a[i] == n[|n| - 1 - i];
      if i > 0 {
        assert b[i] == LogView(es)[i - 1] == m[|m| - i];
      }
    }
  }

  lemma EventsOne(c: Codec, ps: seq<string>, l: string)
    ensures Events(c, ps + [l]) == Events(c, ps) + LineEvents(c, l)
  {
    assert (ps + [l])[..|ps|] == ps;
  }

  lemma EventsBeforeBlank(c: Codec, front: seq<string>, l: string)
    ensures Events(c, front + [l] + [""]) == Events(c, front + [""]) + LineEvents(c, l)
  {
    assert Trim("") == "";
    EventsOne(c, front, "");
    EventsOne(c, front + [l], "");
    EventsOne(c, front, l);
  }

  lemma TrimBraced(l: string)
    requires Braced(l)
    ensures Trim(l) == l
  {
    assert !Space(l[0]) && !Space(l[|l| - 1]);
  }

  /** Appending a line to a complete file adds that line's event and keeps the file complete. */
  lemma LineReadBack(c: Codec, file: string, l: string)
    requires Lines.Complete(file) && '\n' !in l
    ensures Lines.Complete(file + l + "\n")
    ensures DiskEvents(c, file + l + "\n") == DiskEvents(c, file) + LineEvents(c, l)
  {
    Lines.CompleteAppend(file, l);
    EventsBeforeBlank(c, Lines.Front(Lines.Split(file)), l);
  }

  /** Appending to a complete log file adds exactly that event to what a reload reads. */
  lemma AppendReadBack(c: Codec, file: string, e: Event)
    requires Sound(c) && Lines.Complete(file)
    ensures Lines.Complete(file + c.render(e) + "\n")
    ensures DiskEvents(c, file + c.render(e) + "\n") == DiskEvents(c, file) + [e]
  {
    assert Braced(c.render(e));
    TrimBraced(c.render(e));
    LineReadBack(c, file, c.render(e));
  }

  /** Blanks in front of an object are trimmed away. */
  lemma {:induction false} TrimBlankBraced(s: string, l: string)
    requires Trim(s) == "" && Braced(l)
    ensures Trim(s + l) == l
    decreases |s|
  {
    if s == "" {
      assert s + l == l;
      TrimBraced(l);
    } else if Space(s[0]) {
      TrimBlankBraced(s[1..], l);
      assert (s + l)[1..] == s[1..] + l;
    } else {
      TrimRightNonBlank(s);
    }
  }

  lemma {:induction false} TrimRightNonBlank(s: string)
    requires s != "" && !Space(s[0])
    ensures TrimRight(s) != ""
  {
    if Space(s[|s| - 1]) {
      TrimRightNonBlank(s[..|s| - 1]);
    }
  }

  /** The events on the finished lines of a log file. */
  function FinishedEvents(c: Codec, file: string): seq<Event> {
    Events(c, Lines.Front(Lines.Split(file)))
  }

  /** The text after the last line feed. */
  function Unfinished(file: string): string {
    Lines.Last(Lines.Split(file))
  }

  lemma DiskEventsParts(c: Codec, file: string)
    ensures DiskEvents(c, file) == FinishedEvents(c, file) + LineEvents(c, Unfinished(file))
  {
  }

  /** What any log file reads as after an append: finished lines, then the old unfinished text with the new line. */
  lemma AppendParts(c: Codec, file: string, l: string)
    requires '\n' !in l
    ensures FinishedEvents(c, file + l + "\n") == FinishedEvents(c, file) + LineEvents(c, Unfinished(file) + l)
    ensures Unfinished(file + l + "\n") == ""
  {
    Lines.SplitAppend(file, l);
    var front, glued := Lines.Front(Lines.Split(file)), Unfinished(file) + l;
    assert Lines.Front(front + [glued, ""]) == front + [glued];
    EventsOne(c, front, glued);
  }

  /**
   * An append adds its event to what a reload reads if and only if the file ends in a finished line, blanks aside;
   * otherwise the event and the unfinished line's own are both gone.
   */
  lemma AppendReadBackIff(c: Codec, file: string, e: Event)
    requires Sound(c) && GluedFails(c)
    ensures
      var after := DiskEvents(c, file + c.render(e) + "\n");
      && (after == DiskEvents(c, file) + [e] <==> Trim(Unfinished(file)) == "")
      && (Trim(Unfinished(file)) != "" ==> after == FinishedEvents(c, file))
      && Lines.Complete(file + c.render(e) + "\n")
  {
    var l, p := c.render(e), Unfinished(file);
    assert Braced(l) && l[..|l|] == l;
    AppendParts(c, file, l);
    DiskEventsParts(c, file);
    DiskEventsParts(c, file + l + "\n");
    assert Trim("") == "";
    if Trim(p) == "" {
      TrimBlankBraced(p, l);
    }
  }

  /** Appending events one by one. */
  function AppendAll(c: Codec, file: string, es: seq<Event>): string {
    if es == [] then file else AppendAll(c, file, es[..|es| - 1]) + c.render(es[|es| - 1]) + "\n"
  }

  lemma {:induction false} AppendAllReadBack(c: Codec, file: string, es: seq<Event>)
    requires Sound(c) && Lines.Complete(file)
    ensures Lines.Complete(AppendAll(c, file, es))
    ensures DiskEvents(c, AppendAll(c, file, es)) == DiskEvents(c, file) + es
  {
    if es == [] {
      assert DiskEvents(c, file) + es == DiskEvents(c, file);
    } else {
      var front, e := es[..|es| - 1], es[|es| - 1];
      AppendAllReadBack(c, file, front);
      AppendReadBack(c, AppendAll(c, file, front), e);
      assert es == front + [e];
      assert DiskEvents(c, file) + front + [e] == DiskEvents(c, file) + es;
    }
  }

  /** What an unfinished line costs is never recovered: however many events follow, it and the next one stay lost. */
  lemma TornAppendLosesNext(c: Codec, file: string, e: Event, es: seq<Event>)
    requires Sound(c) && GluedFails(c) && Trim(Unfinished(file)) != ""
    ensures DiskEvents(c, AppendAll(c, file + c.render(e) + "\n", es)) == FinishedEvents(c, file) + es
  {
    AppendReadBackIff(c, file, e);
    AppendAllReadBack(c, file + c.render(e) + "\n", es);
  }

  // ----- The log file through crashes -----

  /** The events on finished lines, and what the unfinished line reads as, if there is one. */
  datatype Log = Log(done: seq<Event>, tail: Option<seq<Event>>)

  function Readable(log: Log): seq<Event> {
    log.done + (if log.tail.None? then [] else log.tail.value)
  }

  /** Writing the first `kept` characters of an event's line. */
  function Fed(c: Codec, log: Log, e: Event, kept: nat): Log {
    var n := |c.render(e)|;
    if kept == 0 then log
    else if kept > n then Log(log.done + (if log.tail.None? then [e] else []), None)
    else Log(log.done, Some(if log.tail.None? && kept == n then [e] else []))
  }

  ghost predicate LogIs(c: Codec, file: string, log: Log) {
    && FinishedEvents(c, file) == log.done
    && (log.tail.None? ==> Unfinished(file) == "")
    && (log.tail.Some? ==> Trim(Unfinished(file)) != "" && LineEvents(c, Unfinished(file)) == log.tail.value)
  }

  lemma LogReads(c: Codec, file: string, log: Log)
    requires LogIs(c, file, log)
    ensures DiskEvents(c, file) == Readable(log)
  {
    DiskEventsParts(c, file);
    assert Trim("") == "";
  }

  function Cut(text: string, kept: nat): string {
    if kept < |text| then text[..kept] else text
  }

  /** Text without a line feed extends the unfinished line. */
  lemma ExtendParts(c: Codec, file: string, l: string)
    requires '\n' !in l
    ensures FinishedEvents(c, file + l) == FinishedEvents(c, file) && Unfinished(file + l) == Unfinished(file) + l
  {
    Lines.SplitLine(l);
    Lines.SplitConcat(file, l);
    var ps := Lines.Split(file);
    assert Lines.Glue(ps, [l]) == Lines.Front(ps) + [Lines.Last(ps) + l];
  }

  /** A line that starts with an object is not blank, whatever stands in front. */
  lemma {:induction false} NotBlank(s: string, l: string)
    requires l != "" && l[0] == '{'
    ensures Trim(s + l) != ""
    decreases |s|
  {
    if s != "" && Space(s[0]) {
      NotBlank(s[1..], l);
      assert (s + l)[1..] == s[1..] + l;
    } else {
      assert !Space((s + l)[0]);
      TrimRightNonBlank(s + l);
    }
  }

  /** One append, complete or cut anywhere, does to the file what it does to the abstract log. */
  lemma FedFile(c: Codec, file: string, log: Log, e: Event, kept: nat)
    requires Sound(c) && GluedFails(c) && CutFails(c) && LogIs(c, file, log)
    ensures LogIs(c, file + Cut(c.render(e) + "\n", kept), Fed(c, log, e, kept))
  {
    var l, p := c.render(e), Unfinished(file);
    assert Braced(l) && l[..|l|] == l;
    if kept == 0 {
      assert file + Cut(l + "\n", 0) == file;
    } else if kept > |l| {
      assert file + Cut(l + "\n", kept) == file + l + "\n";
      AppendParts(c, file, l);
      if log.tail.None? {
        assert p + l == l;
        TrimBraced(l);
      }
    } else {
      FedPart(c, file, log, e, kept);
    }
  }

  lemma FedPart(c: Codec, file: string, log: Log, e: Event, kept: nat)
    requires Sound(c) && GluedFails(c) && CutFails(c) && LogIs(c, file, log) && 0 < kept <= |c.render(e)|
    ensures LogIs(c, file + Cut(c.render(e) + "\n", kept), Fed(c, log, e, kept))
  {
    var l, p := c.render(e), Unfinished(file);
    var part := l[..kept];
    assert Braced(l);
    assert Cut(l + "\n", kept) == part;
    forall x | x in part ensures x in l {}
    ExtendParts(c, file, part);
    NotBlank(p, part);
    if log.tail.None? {
      assert p + part == part;
      if kept == |l| {
        assert part == l;
        TrimBraced(l);
      }
    }
  }

  // ----- Memory and disk together -----

  datatype Mem = Mem(tokens: map<string, Prepay>, cdrs: map<string, Cdr>, log: seq<Event>)

  datatype Disk = Disk(prepay: Dir<Prepay>, cdrs: Dir<Cdr>, authz: string)

  function PrepayId(r: Prepay): string {
    r.uid
  }

  function CdrId(c: Cdr): string {
    c.id
  }

  datatype Op =
    | PutPrepay(r: Prepay)
    | MarkAuthorized(uid: string, now: int)
    | PutCdr(c: Cdr)
    | AppendAuthz(e: Event)

  datatype Step = PrepayStep(p: DiskOp<Prepay>) | CdrStep(c: DiskOp<Cdr>) | AppendStep(text: string)

  function MemAfter(m: Mem, op: Op): Mem {
    match op
    case PutPrepay(r) => m.(tokens := m.tokens[r.uid := r])
    case MarkAuthorized(uid, now) =>
      if uid in m.tokens then m.(tokens := m.tokens[uid := m.tokens[uid].(authorizedAt := Some(now))]) else m
    case PutCdr(c) =>
      var tokens := if c.authId in m.tokens then m.tokens[c.authId := m.tokens[c.authId].(used := true)] else m.tokens;
      m.(cdrs := m.cdrs[c.id := c], tokens := tokens)
    case AppendAuthz(e) => m.(log := Capped([e] + m.log))
  }

  function PrepaySteps(r: Prepay): seq<Step> {
    if r.uid == "" then []
    else [PrepayStep(WriteTmp(FileName(r.uid), r)), PrepayStep(Rename(FileName(r.uid)))]
  }

  function CdrSteps(c: Cdr): seq<Step> {
    if c.id == "" then [] else [CdrStep(WriteTmp(FileName(c.id), c)), CdrStep(Rename(FileName(c.id)))]
  }

  /** The disk operations one store operation performs, in order. */
  function StepsOf(codec: Codec, m: Mem, op: Op): seq<Step> {
    match op
    case PutPrepay(r) => PrepaySteps(r)
    case MarkAuthorized(uid, now) =>
      if uid in m.tokens then PrepaySteps(m.tokens[uid].(authorizedAt := Some(now))) else []
    case PutCdr(c) =>
      CdrSteps(c) + (if c.authId in m.tokens then PrepaySteps(m.tokens[c.authId].(used := true)) else [])
    case AppendAuthz(e) => [AppendStep(codec.render(e) + "\n")]
  }

  function DoStep(d: Disk, s: Step): Disk {
    match s
    case PrepayStep(p) => d.(prepay := Do(d.prepay, p))
    case CdrStep(c) => d.(cdrs := Do(d.cdrs, c))
    case AppendStep(text) => d.(authz := d.authz + text)
  }

  function DoSteps(d: Disk, ss: seq<Step>): Disk
    decreases |ss|
  {
    if ss == [] then d else DoSteps(DoStep(d, ss[0]), ss[1..])
  }

  function TearStep(d: Disk, s: Step, kept: nat): Disk {
    match s
    case PrepayStep(p) => d.(prepay := Tear(d.prepay, p))
    case CdrStep(c) => d.(cdrs := Tear(d.cdrs, c))
    case AppendStep(text) => d.(authz := d.authz + Cut(text, kept))
  }

  /** The disk after a crash: the first k steps are done, and the next one may be caught half-way. */
  function Crashed(d: Disk, ss: seq<Step>, k: nat, torn: bool, kept: nat): Disk
    requires k <= |ss|
  {
    var done := DoSteps(d, ss[..k]);
    if torn && k < |ss| then TearStep(done, ss[k], kept) else done
  }

  ghost predicate DirsSynced(m: Mem, d: Disk) {
    Agrees(m.tokens, d.prepay, PrepayId) && Agrees(m.cdrs, d.cdrs, CdrId)
  }

  ghost predicate LogSynced(codec: Codec, m: Mem, d: Disk) {
    Lines.Complete(d.authz) && m.log == LogView(DiskEvents(codec, d.authz))
  }

  function Reload(codec: Codec, d: Disk, prepayNames: seq<string>, cdrNames: seq<string>): Mem {
    Mem(LoadDir(prepayNames, d.prepay, PrepayId), LoadDir(cdrNames, d.cdrs, CdrId), LogView(DiskEvents(codec, d.authz)))
  }

  lemma DoTwo(d: Disk, a: Step, b: Step)
    ensures DoSteps(d, [a, b]) == DoStep(DoStep(d, a), b)
  {
    assert [a, b][1..] == [b];
    assert [b][1..] == [];
    assert DoSteps(DoStep(d, a), [b]) == DoStep(DoStep(d, a), b);
  }

  lemma {:induction false} DoConcat(d: Disk, xs: seq<Step>, ys: seq<Step>)
    ensures DoSteps(d, xs + ys) == DoSteps(DoSteps(d, xs), ys)
    decreases |xs|
  {
    if xs == [] {
      assert xs + ys == ys;
    } else {
      assert (xs + ys)[1..] == xs[1..] + ys;
      DoConcat(DoStep(d, xs[0]), xs[1..], ys);
    }
  }

  /** Persisting a stored prepay record, with or without an id. */
  lemma PrepayPersisted(m: Mem, d: Disk, r: Prepay)
    requires DirsSynced(m, d)
    ensures DirsSynced(m.(tokens := m.tokens[r.uid := r]), DoSteps(d, PrepaySteps(r)))
    ensures DoSteps(d, PrepaySteps(r)).authz == d.authz
  {
    if r.uid != "" {
      var n := FileName(r.uid);
      PersistAgrees(m.tokens, d.prepay, PrepayId, r);
      DoTwo(d, PrepayStep(WriteTmp(n, r)), PrepayStep(Rename(n)));
    }
  }

  lemma CdrPersisted(m: Mem, d: Disk, c: Cdr)
    requires DirsSynced(m, d)
    ensures DirsSynced(m.(cdrs := m.cdrs[c.id := c]), DoSteps(d, CdrSteps(c)))
    ensures DoSteps(d, CdrSteps(c)).authz == d.authz
  {
    if c.id != "" {
      var n := FileName(c.id);
      PersistAgrees(m.cdrs, d.cdrs, CdrId, c);
      DoTwo(d, CdrStep(WriteTmp(n, c)), CdrStep(Rename(n)));
    }
  }

  lemma OpKeepsDirs(codec: Codec, m: Mem, d: Disk, op: Op)
    requires DirsSynced(m, d)
    ensures DirsSynced(MemAfter(m, op), DoSteps(d, StepsOf(codec, m, op)))
    ensures !op.AppendAuthz? ==> DoSteps(d, StepsOf(codec, m, op)).authz == d.authz
  {
    match op
    case PutPrepay(r) => PrepayPersisted(m, d, r);
    case MarkAuthorized(uid, now) =>
      if uid in m.tokens {
        PrepayPersisted(m, d, m.tokens[uid].(authorizedAt := Some(now)));
      }
    case PutCdr(c) =>
      CdrPersisted(m, d, c);
      if c.authId in m.tokens {
        var r := m.tokens[c.authId].(used := true);
        PrepayPersisted(m.(cdrs := m.cdrs[c.id := c]), DoSteps(d, CdrSteps(c)), r);
        DoConcat(d, CdrSteps(c), PrepaySteps(r));
      } else {
        assert CdrSteps(c) + [] == CdrSteps(c);
      }
    case AppendAuthz(e) =>
      assert [AppendStep(codec.render(e) + "\n")][1..] == [];
  }

  lemma OpKeepsLog(codec: Codec, m: Mem, d: Disk, op: Op)
    requires Sound(codec) && DirsSynced(m, d) && LogSynced(codec, m, d)
    ensures LogSynced(codec, MemAfter(m, op), DoSteps(d, StepsOf(codec, m, op)))
  {
    OpKeepsDirs(codec, m, d, op);
    if op.AppendAuthz? {
      var text := codec.render(op.e) + "\n";
      assert [AppendStep(text)][1..] == [];
      assert d.authz + text == d.authz + codec.render(op.e) + "\n";
      AppendReadBack(codec, d.authz, op.e);
      LogViewAppend(DiskEvents(codec, d.authz), op.e);
    }
  }
}
