/** The JSONL ledger: appending, reading back, and the revenue report. */
module Ledger {
  import opened Common
  import Lines

  datatype EventType = AuthAccept | AuthReject | Other

  /** The fields of an entry that the revenue report or the auth pipeline looks at; `time` is in seconds. */
  datatype Entry = Entry(
    time: int, event: EventType, operatorId: string, nasId: string, mac: string,
    credit: int, duration: int, mintUrl: string, tokenHash: string, classAttr: string)

  /** JSON rendering of one entry and its parser, which this model does not look into. */
  datatype Codec = Codec(render: Entry -> string, parse: string -> Option<Entry>)

  ghost predicate Sound(c: Codec) {
    forall e :: LineOf(c, e) && c.parse(c.render(e)) == Some(e)
  }

  /** A rendered entry is one non-empty line that does not end in a carriage return. */
  ghost predicate LineOf(c: Codec, e: Entry) {
    var l := c.render(e);
    l != "" && '\n' !in l && l[|l| - 1] != '\r'
  }

  /** bufio.Scanner's buffer: a line and its line feed must fit in one MiB. */
  const MAX_LINE := 1024 * 1024

  datatype ReadError = BadLine | LineTooLong

  function DropCR(l: string): string {
    if l != "" && l[|l| - 1] == '\r' then l[..|l| - 1] else l
  }

  /** What scanning the pieces yields: empty lines are skipped, the first bad or oversized line fails the read. */
  function ReadPieces(c: Codec, ps: seq<string>): Result<seq<Entry>, ReadError> {
    if ps == [] then Ok([])
    else
      var before := ReadPieces(c, ps[..|ps| - 1]);
      var raw := ps[|ps| - 1];
      if before.Err? then before
      else if |raw| >= MAX_LINE then Err(LineTooLong)
      else if DropCR(raw) == "" then before
      else
        var e := c.parse(DropCR(raw));
        if e.None? then Err(BadLine) else Ok(before.value + [e.value])
  }

  function Read(c: Codec, file: string): Result<seq<Entry>, ReadError> {
    ReadPieces(c, Lines.Split(file))
  }

  function Appended(c: Codec, file: string, e: Entry): string {
    file + c.render(e) + "\n"
  }

  /** Appending to a complete file keeps it complete and adds one entry to what is read, unless the line is too long. */
  lemma ReadAppended(c: Codec, file: string, e: Entry)
    requires Sound(c) && Lines.Complete(file)
    ensures Lines.Complete(Appended(c, file, e))
    ensures
      var before, after := Read(c, file), Read(c, Appended(c, file, e));
      if before.Err? then after == before
      else if |c.render(e)| >= MAX_LINE then after == Err(LineTooLong)
      else after == Ok(before.value + [e])
  {
    var front := Lines.Front(Lines.Split(file));
    assert LineOf(c, e);
    Lines.CompleteAppend(file, c.render(e));
    SkipEmpty(c, front);
    SkipEmpty(c, front + [c.render(e)]);
    ReadOne(c, front, e);
  }

  lemma ReadOne(c: Codec, ps: seq<string>, e: Entry)
    requires Sound(c)
    ensures
      var before, after := ReadPieces(c, ps), ReadPieces(c, ps + [c.render(e)]);
      if before.Err? then after == before
      else if |c.render(e)| >= MAX_LINE then after == Err(LineTooLong)
      else after == Ok(before.value + [e])
  {
    assert LineOf(c, e);
    assert (ps + [c.render(e)])[..|ps|] == ps;
  }

  lemma SkipEmpty(c: Codec, ps: seq<string>)
    ensures ReadPieces(c, ps + [""]) == ReadPieces(c, ps)
  {
    assert (ps + [""])[..|ps|] == ps;
  }

  /** A carriage return in front of the line feed is not part of the line. */
  lemma CarriageReturnIgnored(c: Codec, ps: seq<string>, l: string)
    requires |l| + 1 < 1_048_576 && (l == "" || l[|l| - 1] != '\r')
    ensures ReadPieces(c, ps + [l + "\r"]) == ReadPieces(c, ps + [l])
  {
    assert (ps + [l + "\r"])[..|ps|] == ps && (ps + [l])[..|ps|] == ps;
    assert (l + "\r")[..|l|] == l;
  }

  /** The file after appending the entries one by one to an empty one. */
  function Written(c: Codec, es: seq<Entry>): string {
    if es == [] then "" else Appended(c, Written(c, es[..|es| - 1]), es[|es| - 1])
  }

  /**
   * Everything recorded is read back, in order, exactly when every rendered line is shorter than one MiB;
   * a single longer line makes every later read fail.
   */
  lemma {:induction false} ReadBackIff(c: Codec, es: seq<Entry>)
    requires Sound(c)
    ensures Lines.Complete(Written(c, es))
    ensures Read(c, Written(c, es)) ==
            if forall e :: e in es ==> |c.render(e)| < 1_048_576 then Ok(es) else Err(LineTooLong)
  {
    if es == [] {
      assert Lines.Split("") == [""];
      SkipEmpty(c, []);
      assert [] + [""] == [""];
    } else {
      var front, e := es[..|es| - 1], es[|es| - 1];
      ReadBackIff(c, front);
      ReadAppended(c, Written(c, front), e);
      assert es == front + [e];
      assert forall x :: x in es <==> x in front || x == e;
    }
  }

  // ----- Unfinished lines -----

  predicate Blank(t: string) {
    forall i :: 0 <= i < |t| ==> t[i] in " \t\r\n"
  }

  /** A JSON parser skips blanks in front of an object and refuses anything else there. */
  ghost predicate ObjectStandsAlone(c: Codec) {
    forall t, e :: c.parse(t + c.render(e)) == if Blank(t) then Some(e) else None
  }

  /** The text after the last line feed: left behind when an append wrote its data but not its line feed. */
  function Unfinished(file: string): string {
    Lines.Last(Lines.Split(file))
  }

  function FinishedRead(c: Codec, file: string): Result<seq<Entry>, ReadError> {
    ReadPieces(c, Lines.Front(Lines.Split(file)))
  }

  /**
   * After an append to any file, the ledger can be read if and only if its finished lines could, the unfinished
   * rest was blank and the line fits; the entry is then the last one read.
   */
  lemma ReadableAfterAppendIff(c: Codec, file: string, e: Entry)
    requires Sound(c) && ObjectStandsAlone(c)
    ensures
      var after := Read(c, Appended(c, file, e));
      && (after.Ok? <==>
            && FinishedRead(c, file).Ok? && Blank(Unfinished(file))
            && |Unfinished(file)| + |c.render(e)| < MAX_LINE)
      && (after.Ok? ==> after.value == FinishedRead(c, file).value + [e])
    ensures Lines.Complete(Appended(c, file, e))
  {
    var l, p, front := c.render(e), Unfinished(file), Lines.Front(Lines.Split(file));
    assert LineOf(c, e);
    Lines.SplitAppend(file, l);
    assert front + [p + l, ""] == front + [p + l] + [""];
    SkipEmpty(c, front + [p + l]);
    assert (front + [p + l])[..|front|] == front;
    assert (p + l)[|p + l| - 1] == l[|l| - 1];
  }

  /** Appending entries one by one. */
  function AppendedAll(c: Codec, file: string, es: seq<Entry>): string {
    if es == [] then file else Appended(c, AppendedAll(c, file, es[..|es| - 1]), es[|es| - 1])
  }

  lemma {:induction false} UnreadableStays(c: Codec, file: string, es: seq<Entry>)
    requires Sound(c) && Lines.Complete(file) && Read(c, file).Err?
    ensures Lines.Complete(AppendedAll(c, file, es)) && Read(c, AppendedAll(c, file, es)) == Read(c, file)
  {
    if es != [] {
      UnreadableStays(c, file, es[..|es| - 1]);
      ReadAppended(c, AppendedAll(c, file, es[..|es| - 1]), es[|es| - 1]);
    }
  }

  /** An append cut short is fatal to the ledger: once the next entry is written, every later read fails. */
  lemma TornAppendFailsForGood(c: Codec, file: string, e: Entry, es: seq<Entry>)
    requires Sound(c) && ObjectStandsAlone(c) && !Blank(Unfinished(file))
    ensures Read(c, AppendedAll(c, Appended(c, file, e), es)).Err?
  {
    ReadableAfterAppendIff(c, file, e);
    UnreadableStays(c, Appended(c, file, e), es);
  }

  // ----- Revenue -----

  /** The total is a Go int and wraps; the average is taken at the end. */
  datatype Report = Report(totalSat: int, sessions: nat, accepted: nat, rejected: nat, average: real)

  predicate Selected(e: Entry, operatorId: string, start: int, end: int) {
    e.operatorId == operatorId && start <= e.time <= end
  }

  function Pick(es: seq<Entry>, operatorId: string, start: int, end: int): seq<Entry> {
    if es == [] then []
    else
      var front, e := Pick(es[..|es| - 1], operatorId, start, end), es[|es| - 1];
      if Selected(e, operatorId, start, end) then front + [e] else front
  }

  function CreditOf(es: seq<Entry>): int {
    if es == [] then 0
    else CreditOf(es[..|es| - 1]) + (if es[|es| - 1].event == AuthAccept then es[|es| - 1].credit else 0)
  }

  function Count(es: seq<Entry>, event: EventType): nat {
    if es == [] then 0
    else Count(es[..|es| - 1], event) + (if es[|es| - 1].event == event then 1 else 0)
  }

  /** The counters over a selection of entries: accepted credit, and how many accepts and rejects. */
  function Tally(es: seq<Entry>): Report {
    Report(Wrap64(CreditOf(es)), Count(es, AuthAccept) + Count(es, AuthReject),
           Count(es, AuthAccept), Count(es, AuthReject), 0.0)
  }

  /** The report of a selection: its counters, and the average per accept where there was one. */
  function ReportOf(es: seq<Entry>): Report {
    var r := Tally(es);
    if r.accepted > 0 then r.(average := r.totalSat as real / r.accepted as real) else r
  }

  lemma AverageTimesAccepted(es: seq<Entry>)
    ensures
      var r := ReportOf(es);
      r.average * r.accepted as real == if r.accepted > 0 then r.totalSat as real else 0.0
  {
  }

  /** One more entry in a report. */
  function WithEntry(r: Report, e: Entry): Report {
    match e.event
    case AuthAccept =>
      r.(totalSat := Wrap64(r.totalSat + e.credit), sessions := r.sessions + 1, accepted := r.accepted + 1)
    case AuthReject => r.(sessions := r.sessions + 1, rejected := r.rejected + 1)
    case Other => r
  }

  lemma PickSnoc(es: seq<Entry>, i: nat, operatorId: string, start: int, end: int)
    requires i < |es|
    ensures Pick(es[..i + 1], operatorId, start, end) ==
            if Selected(es[i], operatorId, start, end)
            then Pick(es[..i], operatorId, start, end) + [es[i]]
            else Pick(es[..i], operatorId, start, end)
  {
    assert es[..i + 1][..i] == es[..i];
  }

  lemma ReportSnoc(es: seq<Entry>, e: Entry)
    ensures Tally(es + [e]) == WithEntry(Tally(es), e)
  {
    assert (es + [e])[..|es|] == es;
    WrapAdd(CreditOf(es), e.credit);
  }

  lemma ReportStep(es: seq<Entry>, i: nat, operatorId: string, start: int, end: int)
    requires i < |es|
    ensures
      var before := Tally(Pick(es[..i], operatorId, start, end));
      var after := Tally(Pick(es[..i + 1], operatorId, start, end));
      after == if Selected(es[i], operatorId, start, end) then WithEntry(before, es[i]) else before
  {
    PickSnoc(es, i, operatorId, start, end);
    ReportSnoc(Pick(es[..i], operatorId, start, end), es[i]);
  }

  /** Exactly the operator's entries of the closed period are picked, each as often as it was recorded. */
  lemma {:induction false} PickExactly(es: seq<Entry>, operatorId: string, start: int, end: int, x: Entry)
    ensures multiset(Pick(es, operatorId, start, end))[x] ==
            if x.operatorId == operatorId && start <= x.time && x.time <= end then multiset(es)[x] else 0
  {
    if es != [] {
      var front, last := es[..|es| - 1], es[|es| - 1];
      PickExactly(front, operatorId, start, end, x);
      assert es == front + [last];
    }
  }

  /** Adjacent periods share nothing and lose nothing: their reports add up. */
  lemma {:induction false} PeriodsAddUp(es: seq<Entry>, operatorId: string, start: int, mid: int, end: int)
    requires start <= mid <= end
    ensures
      var a, b := Pick(es, operatorId, start, mid), Pick(es, operatorId, mid + 1, end);
      var c := Pick(es, operatorId, start, end);
      && CreditOf(c) == CreditOf(a) + CreditOf(b)
      && Count(c, AuthAccept) == Count(a, AuthAccept) + Count(b, AuthAccept)
      && Count(c, AuthReject) == Count(a, AuthReject) + Count(b, AuthReject)
  {
    if es != [] {
      var n := |es| - 1;
      assert es[..n + 1] == es;
      PeriodsAddUp(es[..n], operatorId, start, mid, end);
      CountedOnce(es, n, operatorId, start, mid);
      CountedOnce(es, n, operatorId, mid + 1, end);
      CountedOnce(es, n, operatorId, start, end);
    }
  }

  lemma CountedOnce(es: seq<Entry>, n: nat, operatorId: string, start: int, end: int)
    requires n < |es|
    ensures
      var before, after := Pick(es[..n], operatorId, start, end), Pick(es[..n + 1], operatorId, start, end);
      var here := Selected(es[n], operatorId, start, end);
      && CreditOf(after) == CreditOf(before) + (if here && es[n].event == AuthAccept then es[n].credit else 0)
      && forall ev :: Count(after, ev) == Count(before, ev) + (if here && es[n].event == ev then 1 else 0)
  {
    PickSnoc(es, n, operatorId, start, end);
    var before := Pick(es[..n], operatorId, start, end);
    assert (before + [es[n]])[..|before|] == before;
  }

  lemma {:induction false} PickAll(es: seq<Entry>, operatorId: string, start: int, end: int)
    requires forall e :: e in es ==> Selected(e, operatorId, start, end)
    ensures Pick(es, operatorId, start, end) == es
  {
    if es != [] {
      PickAll(es[..|es| - 1], operatorId, start, end);
      assert es[|es| - 1] in es;
    }
  }

  /** The ledger object: one file, appended to and scanned. */
  class Ledger {
    const codec: Codec
    var file: string

    constructor (codec: Codec, file: string)
      ensures this.codec == codec && this.file == file
    {
      this.codec := codec;
      this.file := file;
    }

    method AppendEntry(e: Entry)
      modifies this
      ensures file == Appended(codec, old(file), e)
    {
      var data := codec.render(e);
      file := file + data;
      file := file + "\n";
    }

    /** One pass of the line scanner. */
    method ReadAll() returns (r: Result<seq<Entry>, ReadError>)
      ensures r == Read(codec, file)
    {
      var ps := Lines.Split(file);
      var entries: seq<Entry> := [];
      for i := 0 to |ps|
        invariant ReadPieces(codec, ps[..i]) == Ok(entries)
      {
        assert ps[..i + 1][..i] == ps[..i];
        if |ps[i]| >= MAX_LINE {
          FailureStays(codec, ps, i + 1);
          return Err(LineTooLong);
        }
        var line := DropCR(ps[i]);
        if line != "" {
          var e := codec.parse(line);
          if e.None? {
            FailureStays(codec, ps, i + 1);
            return Err(BadLine);
          }
          entries := entries + [e.value];
        }
      }
      assert ps[..|ps|] == ps;
      return Ok(entries);
    }

    /** The report over everything the file holds. */
    method RevenueSummary(operatorId: string, start: int, end: int) returns (r: Result<Report, ReadError>)
      ensures Read(codec, file).Err? ==> r == Err(Read(codec, file).error)
      ensures Read(codec, file).Ok? ==> r == Ok(ReportOf(Pick(Read(codec, file).value, operatorId, start, end)))
    {
      var all := ReadAll();
      if all.Err? {
        return Err(all.error);
      }
      var report := Summarise(all.value, operatorId, start, end);
      return Ok(report);
    }
  }

  /** The report loop. */
  method Summarise(entries: seq<Entry>, operatorId: string, start: int, end: int) returns (r: Report)
    ensures r == ReportOf(Pick(entries, operatorId, start, end))
  {
    r := Report(0, 0, 0, 0, 0.0);
    for i := 0 to |entries|
      invariant r == Tally(Pick(entries[..i], operatorId, start, end))
    {
      var e := entries[i];
      ReportStep(entries, i, operatorId, start, end);
      if e.operatorId != operatorId {
        continue;
      }
      if e.time < start || e.time > end {
        continue;
      }
      match e.event
      case AuthAccept =>
        r := r.(sessions := r.sessions + 1, accepted := r.accepted + 1, totalSat := Wrap64(r.totalSat + e.credit));
      case AuthReject =>
        r := r.(sessions := r.sessions + 1, rejected := r.rejected + 1);
      case Other =>
    }
    assert entries[..|entries|] == entries;
    if r.accepted > 0 {
      r := r.(average := r.totalSat as real / r.accepted as real);
    }
  }

  /** Once a prefix of the file fails to read, the whole file fails the same way. */
  lemma {:induction false} FailureStays(c: Codec, ps: seq<string>, i: nat)
    requires i <= |ps| && ReadPieces(c, ps[..i]).Err?
    ensures ReadPieces(c, ps) == ReadPieces(c, ps[..i])
    decreases |ps| - i
  {
    if i < |ps| {
      assert ps[..i + 1][..i] == ps[..i];
      FailureStays(c, ps, i + 1);
    } else {
      assert ps[..i] == ps;
    }
  }
}
