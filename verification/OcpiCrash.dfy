/** The OCPI store over whole runs: operations, restarts, and crashes at any disk step. */
module OcpiCrash {
  import opened Common
  import opened OcpiStore
  import Lines

  datatype State = State(mem: Mem, disk: Disk)

  datatype Cmd =
    | Perform(op: Op)
    | Restart(prepayNames: seq<string>, cdrNames: seq<string>)
    | CrashDuring(op: Op, k: nat, torn: bool, kept: nat, prepayNames: seq<string>, cdrNames: seq<string>)

  function Empty(): State {
    State(Mem(map[], map[], []), Disk(map[], map[], ""))
  }

  function CrashDisk(codec: Codec, s: State, op: Op, k: nat, torn: bool, kept: nat): Disk
    requires k <= |StepsOf(codec, s.mem, op)|
  {
    Crashed(s.disk, StepsOf(codec, s.mem, op), k, torn, kept)
  }

  /** A restart lists the directories as they are; a crash happens within the operation's own steps. */
  ghost predicate Enabled(codec: Codec, s: State, cmd: Cmd) {
    match cmd
    case Perform(_) => true
    case Restart(ps, cs) => Enumerates(ps, s.disk.prepay) && Enumerates(cs, s.disk.cdrs)
    case CrashDuring(op, k, torn, kept, ps, cs) =>
      && k <= |StepsOf(codec, s.mem, op)|
      && Enumerates(ps, CrashDisk(codec, s, op, k, torn, kept).prepay)
      && Enumerates(cs, CrashDisk(codec, s, op, k, torn, kept).cdrs)
  }

  ghost function Apply(codec: Codec, s: State, cmd: Cmd): State
    requires Enabled(codec, s, cmd)
  {
    match cmd
    case Perform(op) => State(MemAfter(s.mem, op), DoSteps(s.disk, StepsOf(codec, s.mem, op)))
    case Restart(ps, cs) => State(Reload(codec, s.disk, ps, cs), s.disk)
    case CrashDuring(op, k, torn, kept, ps, cs) =>
      var d := CrashDisk(codec, s, op, k, torn, kept);
      State(Reload(codec, d, ps, cs), d)
  }

  ghost function Run(codec: Codec, s: State, cmds: seq<Cmd>): Option<State>
    decreases |cmds|
  {
    if cmds == [] then Some(s)
    else if !Enabled(codec, s, cmds[0]) then None
    else Run(codec, Apply(codec, s, cmds[0]), cmds[1..])
  }

  // ----- One record, interrupted -----

  /** Replacing one record file, stopped after k of its two steps. */
  function CrashDir<T>(d: Dir<T>, n: string, v: T, k: nat, torn: bool): Dir<T>
    requires k <= 2
  {
    if k == 0 then (if torn then Tear(d, WriteTmp(n, v)) else d)
    else if k == 1 then Do(d, WriteTmp(n, v))
    else Do(Do(d, WriteTmp(n, v)), Rename(n))
  }

  /** Every record file keeps its old value, or is the one being replaced and holds the whole new value. */
  ghost predicate OldOrNew<T>(d: Dir<T>, e: Dir<T>, n: string, v: T) {
    forall f :: IsRecordFile(f) ==>
      && (f in d ==> f in e)
      && (f in e ==> (f in d && e[f] == d[f]) || (f == n && e[f] == Json(v)))
  }

  lemma TmpInvisible<T>(d: Dir<T>, t: string, n: string, v: T, file: File<T>)
    requires !IsRecordFile(t)
    ensures OldOrNew(d, d[t := file], n, v)
  {
  }

  lemma RenameShows<T>(d: Dir<T>, t: string, n: string, v: T)
    requires !IsRecordFile(t)
    ensures OldOrNew(d, (d[t := Json(v)] - {t})[n := Json(v)], n, v)
  {
    var e := (d[t := Json(v)] - {t})[n := Json(v)];
    forall f | IsRecordFile(f)
      ensures f in d ==> f in e
      ensures f in e ==> (f in d && e[f] == d[f]) || (f == n && e[f] == Json(v))
    {
      assert f != t;
    }
  }

  lemma CrashDirOldOrNew<T>(d: Dir<T>, n: string, v: T, k: nat, torn: bool)
    requires k <= 2
    ensures OldOrNew(d, CrashDir(d, n, v, k, torn), n, v)
    ensures k == 2 ==> n in CrashDir(d, n, v, k, torn) && CrashDir(d, n, v, k, torn)[n] == Json(v)
  {
    TmpNotRecord(n);
    if k == 2 {
      RenameShows(d, TmpName(n), n, v);
      assert CrashDir(d, n, v, k, torn) == (d[TmpName(n) := Json(v)] - {TmpName(n)})[n := Json(v)];
    } else if k == 1 {
      TmpInvisible(d, TmpName(n), n, v, Json(v));
    } else if torn {
      TmpInvisible(d, TmpName(n), n, v, Garbage);
    }
  }

  /** Replacing a record's own file keeps the directory well named. */
  lemma OldOrNewWellNamed<T>(d: Dir<T>, e: Dir<T>, v: T, id: T -> string)
    requires WellNamed(d, id) && id(v) != "" && OldOrNew(d, e, FileName(id(v)), v)
    ensures WellNamed(e, id)
  {
  }

  lemma PrepayCrash(d: Disk, r: Prepay, k: nat, torn: bool, kept: nat)
    requires k <= |PrepaySteps(r)|
    ensures
      var e := Crashed(d, PrepaySteps(r), k, torn, kept);
      && e.cdrs == d.cdrs && e.authz == d.authz
      && OldOrNew(d.prepay, e.prepay, FileName(r.uid), r)
      && (r.uid == "" ==> e.prepay == d.prepay)
      && (r.uid != "" ==> e.prepay == CrashDir(d.prepay, FileName(r.uid), r, k, torn))
  {
    if r.uid != "" {
      var n, ss := FileName(r.uid), PrepaySteps(r);
      CrashDirOldOrNew(d.prepay, n, r, k, torn);
      if k == 1 {
        assert ss[..1] == [ss[0]];
        assert [ss[0]][1..] == [];
        assert DoSteps(d, [ss[0]]) == DoStep(d, ss[0]);
      } else if k == 2 {
        assert ss[..2] == [ss[0], ss[1]];
        DoTwo(d, ss[0], ss[1]);
      }
      assert Crashed(d, ss, k, torn, kept).prepay == CrashDir(d.prepay, n, r, k, torn);
    }
  }

  lemma CdrCrash(d: Disk, c: Cdr, k: nat, torn: bool, kept: nat)
    requires k <= |CdrSteps(c)|
    ensures
      var e := Crashed(d, CdrSteps(c), k, torn, kept);
      && e.prepay == d.prepay && e.authz == d.authz
      && OldOrNew(d.cdrs, e.cdrs, FileName(c.id), c)
      && (c.id == "" ==> e.cdrs == d.cdrs)
      && (c.id != "" ==> e.cdrs == CrashDir(d.cdrs, FileName(c.id), c, k, torn))
      && (c.id != "" && k == 2 ==> FileName(c.id) in e.cdrs && e.cdrs[FileName(c.id)] == Json(c))
  {
    if c.id != "" {
      var n, ss := FileName(c.id), CdrSteps(c);
      CrashDirOldOrNew(d.cdrs, n, c, k, torn);
      if k == 1 {
        assert ss[..1] == [ss[0]];
        assert [ss[0]][1..] == [];
        assert DoSteps(d, [ss[0]]) == DoStep(d, ss[0]);
      } else if k == 2 {
        assert ss[..2] == [ss[0], ss[1]];
        DoTwo(d, ss[0], ss[1]);
      }
      assert Crashed(d, ss, k, torn, kept).cdrs == CrashDir(d.cdrs, n, c, k, torn);
    }
  }

  /** A crash in a two-part operation is a crash in its first part, or in its second with the first complete. */
  lemma CrashedConcat(d: Disk, xs: seq<Step>, ys: seq<Step>, k: nat, torn: bool, kept: nat)
    requires k <= |xs + ys|
    ensures k < |xs| ==> Crashed(d, xs + ys, k, torn, kept) == Crashed(d, xs, k, torn, kept)
    ensures k >= |xs| ==> Crashed(d, xs + ys, k, torn, kept) == Crashed(DoSteps(d, xs), ys, k - |xs|, torn, kept)
  {
    if k < |xs| {
      assert (xs + ys)[..k] == xs[..k];
    } else {
      assert (xs + ys)[..k] == xs + ys[..k - |xs|];
      DoConcat(d, xs, ys[..k - |xs|]);
    }
  }

  lemma CrashedWhole(d: Disk, ss: seq<Step>, torn: bool, kept: nat)
    ensures Crashed(d, ss, |ss|, torn, kept) == DoSteps(d, ss)
  {
    assert ss[..|ss|] == ss;
  }

  /** The prepay record an operation writes, if it writes one. */
  function WrittenPrepay(m: Mem, op: Op): Option<Prepay> {
    match op
    case PutPrepay(r) => Some(r)
    case MarkAuthorized(uid, now) => if uid in m.tokens then Some(m.tokens[uid].(authorizedAt := Some(now))) else None
    case PutCdr(c) => if c.authId in m.tokens then Some(m.tokens[c.authId].(used := true)) else None
    case AppendAuthz(_) => None
  }

  /** What a crash during an operation can do to the two directories. */
  ghost predicate CrashOutcome(m: Mem, d: Disk, e: Disk, op: Op) {
    var r := WrittenPrepay(m, op);
    && (if r.None? || r.value.uid == "" then e.prepay == d.prepay
        else OldOrNew(d.prepay, e.prepay, FileName(r.value.uid), r.value))
    && (if !op.PutCdr? || op.c.id == "" then e.cdrs == d.cdrs
        else OldOrNew(d.cdrs, e.cdrs, FileName(op.c.id), op.c))
    && (op.PutCdr? && op.c.id != "" && e.prepay != d.prepay ==>
          FileName(op.c.id) in e.cdrs && e.cdrs[FileName(op.c.id)] == Json(op.c))
  }

  lemma CrashCases(codec: Codec, m: Mem, d: Disk, op: Op, k: nat, torn: bool, kept: nat)
    requires k <= |StepsOf(codec, m, op)|
    ensures CrashOutcome(m, d, Crashed(d, StepsOf(codec, m, op), k, torn, kept), op)
  {
    match op
    case PutPrepay(r) => PrepayCrash(d, r, k, torn, kept);
    case MarkAuthorized(uid, now) =>
      if uid in m.tokens {
        PrepayCrash(d, m.tokens[uid].(authorizedAt := Some(now)), k, torn, kept);
      }
    case PutCdr(c) => CdrOpCrash(codec, m, d, c, k, torn, kept);
    case AppendAuthz(e) =>
      var ss := [AppendStep(codec.render(e) + "\n")];
      if k == 1 {
        assert ss[..1] == [ss[0]] && [ss[0]][1..] == [];
        assert DoSteps(d, [ss[0]]) == DoStep(d, ss[0]);
      }
  }

  lemma CdrOpCrash(codec: Codec, m: Mem, d: Disk, c: Cdr, k: nat, torn: bool, kept: nat)
    requires k <= |StepsOf(codec, m, PutCdr(c))|
    ensures CrashOutcome(m, d, Crashed(d, StepsOf(codec, m, PutCdr(c)), k, torn, kept), PutCdr(c))
  {
    var xs := CdrSteps(c);
    var ys := if c.authId in m.tokens then PrepaySteps(m.tokens[c.authId].(used := true)) else [];
    CrashedConcat(d, xs, ys, k, torn, kept);
    if k < |xs| {
      CdrCrash(d, c, k, torn, kept);
    } else {
      CdrCrash(d, c, |xs|, torn, kept);
      CrashedWhole(d, xs, torn, kept);
      if c.authId in m.tokens {
        PrepayCrash(DoSteps(d, xs), m.tokens[c.authId].(used := true), k - |xs|, torn, kept);
      }
    }
  }

  /**
   * Whatever step a crash interrupts, every record file afterwards holds its whole old value, or is the very file
   * the operation was replacing and holds the whole new one; no record file disappears.
   */
  lemma CrashWholeValues(codec: Codec, m: Mem, d: Disk, op: Op, k: nat, torn: bool, kept: nat, f: string)
    requires k <= |StepsOf(codec, m, op)| && IsRecordFile(f)
    ensures
      var e := Crashed(d, StepsOf(codec, m, op), k, torn, kept);
      var w := WrittenPrepay(m, op);
      && (f in d.prepay ==> f in e.prepay) && (f in d.cdrs ==> f in e.cdrs)
      && (f in e.prepay ==>
            || (f in d.prepay && e.prepay[f] == d.prepay[f])
            || (w.Some? && w.value.uid != "" && f == FileName(w.value.uid) && e.prepay[f] == Json(w.value)))
      && (f in e.cdrs ==>
            || (f in d.cdrs && e.cdrs[f] == d.cdrs[f])
            || (op.PutCdr? && op.c.id != "" && f == FileName(op.c.id) && e.cdrs[f] == Json(op.c)))
  {
    CrashCases(codec, m, d, op, k, torn, kept);
  }

  // ----- Every run -----

  lemma WrittenPrepayKeyed(m: Mem, d: Disk, op: Op)
    requires DirsSynced(m, d)
    ensures op.PutCdr? && WrittenPrepay(m, op).Some? ==> WrittenPrepay(m, op).value.uid == op.c.authId
  {
  }

  lemma CrashKeepsWellNamed(codec: Codec, m: Mem, d: Disk, op: Op, k: nat, torn: bool, kept: nat)
    requires DirsSynced(m, d) && k <= |StepsOf(codec, m, op)|
    ensures
      var e := Crashed(d, StepsOf(codec, m, op), k, torn, kept);
      WellNamed(e.prepay, PrepayId) && WellNamed(e.cdrs, CdrId)
  {
    var e := Crashed(d, StepsOf(codec, m, op), k, torn, kept);
    CrashCases(codec, m, d, op, k, torn, kept);
    var r := WrittenPrepay(m, op);
    if r.Some? && r.value.uid != "" {
      OldOrNewWellNamed(d.prepay, e.prepay, r.value, PrepayId);
    }
    if op.PutCdr? && op.c.id != "" {
      OldOrNewWellNamed(d.cdrs, e.cdrs, op.c, CdrId);
    }
  }

  lemma ApplyKeepsDirs(codec: Codec, s: State, cmd: Cmd)
    requires DirsSynced(s.mem, s.disk) && Enabled(codec, s, cmd)
    ensures DirsSynced(Apply(codec, s, cmd).mem, Apply(codec, s, cmd).disk)
  {
    match cmd
    case Perform(op) => OpKeepsDirs(codec, s.mem, s.disk, op);
    case Restart(ps, cs) =>
      ReloadAgrees(ps, s.disk.prepay, PrepayId);
      ReloadAgrees(cs, s.disk.cdrs, CdrId);
    case CrashDuring(op, k, torn, kept, ps, cs) =>
      var d := CrashDisk(codec, s, op, k, torn, kept);
      CrashKeepsWellNamed(codec, s.mem, s.disk, op, k, torn, kept);
      ReloadAgrees(ps, d.prepay, PrepayId);
      ReloadAgrees(cs, d.cdrs, CdrId);
  }

  lemma {:induction false} RunKeepsDirs(codec: Codec, s: State, cmds: seq<Cmd>)
    requires DirsSynced(s.mem, s.disk) && Run(codec, s, cmds).Some?
    ensures DirsSynced(Run(codec, s, cmds).value.mem, Run(codec, s, cmds).value.disk)
    decreases |cmds|
  {
    if cmds != [] {
      ApplyKeepsDirs(codec, s, cmds[0]);
      RunKeepsDirs(codec, Apply(codec, s, cmds[0]), cmds[1..]);
    }
  }

  /**
   * After any run of operations, restarts and crashes, a reload rebuilds exactly the tokens (and exactly the
   * CDRs) in memory if and only if their ids are non-empty and sanitise to distinct file names.
   */
  lemma ReloadRebuildsIff(codec: Codec, cmds: seq<Cmd>, prepayNames: seq<string>, cdrNames: seq<string>)
    requires Run(codec, Empty(), cmds).Some?
    requires
      var s := Run(codec, Empty(), cmds).value;
      Enumerates(prepayNames, s.disk.prepay) && Enumerates(cdrNames, s.disk.cdrs)
    ensures
      var s := Run(codec, Empty(), cmds).value;
      var again := Reload(codec, s.disk, prepayNames, cdrNames);
      && (again.tokens == s.mem.tokens <==> DistinctNames(s.mem.tokens.Keys))
      && (again.cdrs == s.mem.cdrs <==> DistinctNames(s.mem.cdrs.Keys))
  {
    RunKeepsDirs(codec, Empty(), cmds);
    var s := Run(codec, Empty(), cmds).value;
    ReloadIff(s.mem.tokens, prepayNames, s.disk.prepay, PrepayId);
    ReloadIff(s.mem.cdrs, cdrNames, s.disk.cdrs, CdrId);
  }

  /** An id that file names keep as it is. */
  predicate PlainId(id: string) {
    id != "" && forall i :: 0 <= i < |id| ==> KeptChar(id[i])
  }

  lemma PlainIdsApart(a: string, b: string)
    requires PlainId(a) && PlainId(b) && a != b
    ensures !Collides(a, b)
  {
    if Collides(a, b) {
      forall i | 0 <= i < |a| ensures a[i] == b[i] {
        assert KeptChar(a[i]) && KeptChar(b[i]);
      }
    }
  }

  /** After any run with crashes, plain ids are enough for a reload to rebuild memory exactly. */
  lemma PlainIdsRebuilt(codec: Codec, cmds: seq<Cmd>, prepayNames: seq<string>, cdrNames: seq<string>)
    requires Run(codec, Empty(), cmds).Some?
    requires
      var s := Run(codec, Empty(), cmds).value;
      Enumerates(prepayNames, s.disk.prepay) && Enumerates(cdrNames, s.disk.cdrs)
    ensures
      var s := Run(codec, Empty(), cmds).value;
      var again := Reload(codec, s.disk, prepayNames, cdrNames);
      && ((forall k :: k in s.mem.tokens ==> PlainId(k)) ==> again.tokens == s.mem.tokens)
      && ((forall k :: k in s.mem.cdrs ==> PlainId(k)) ==> again.cdrs == s.mem.cdrs)
  {
    ReloadRebuildsIff(codec, cmds, prepayNames, cdrNames);
    forall a, b | PlainId(a) && PlainId(b) && a != b ensures !Collides(a, b) {
      PlainIdsApart(a, b);
    }
  }

  // ----- The audit log -----

  predicate NoCrash(cmds: seq<Cmd>) {
    forall i :: 0 <= i < |cmds| ==> !cmds[i].CrashDuring?
  }

  /** The events appended by a run, oldest first. */
  function Appended(cmds: seq<Cmd>): seq<Event> {
    if cmds == [] then []
    else CmdAppends(cmds[0]) + Appended(cmds[1..])
  }

  function CmdAppends(cmd: Cmd): seq<Event> {
    if cmd.Perform? && cmd.op.AppendAuthz? then [cmd.op.e] else []
  }

  /** The disk log holds exactly these events, and memory the view of them. */
  ghost predicate LogHolds(codec: Codec, s: State, es: seq<Event>) {
    DirsSynced(s.mem, s.disk) && LogSynced(codec, s.mem, s.disk) && DiskEvents(codec, s.disk.authz) == es
  }

  lemma ApplyAppends(codec: Codec, s: State, es: seq<Event>, cmd: Cmd)
    requires Sound(codec) && !cmd.CrashDuring? && Enabled(codec, s, cmd) && LogHolds(codec, s, es)
    ensures LogHolds(codec, Apply(codec, s, cmd), es + CmdAppends(cmd))
  {
    ApplyKeepsDirs(codec, s, cmd);
    if cmd.Perform? {
      OpKeepsLog(codec, s.mem, s.disk, cmd.op);
      OpKeepsDirs(codec, s.mem, s.disk, cmd.op);
      if cmd.op.AppendAuthz? {
        AppendStepEvents(codec, s.disk, cmd.op.e);
      }
    }
  }

  lemma {:induction false} RunAppends(codec: Codec, s: State, es: seq<Event>, cmds: seq<Cmd>)
    requires Sound(codec) && NoCrash(cmds) && Run(codec, s, cmds).Some? && LogHolds(codec, s, es)
    ensures LogHolds(codec, Run(codec, s, cmds).value, es + Appended(cmds))
    decreases |cmds|
  {
    if cmds == [] {
      assert es + Appended(cmds) == es;
    } else {
      ApplyAppends(codec, s, es, cmds[0]);
      RunAppends(codec, Apply(codec, s, cmds[0]), es + CmdAppends(cmds[0]), cmds[1..]);
      Associates(es, CmdAppends(cmds[0]), Appended(cmds[1..]));
    }
  }

  lemma Associates(a: seq<Event>, b: seq<Event>, c: seq<Event>)
    ensures (a + b) + c == a + (b + c)
  {
  }

  lemma AppendStepEvents(codec: Codec, d: Disk, e: Event)
    requires Sound(codec) && Lines.Complete(d.authz)
    ensures
      var after := DoSteps(d, [AppendStep(codec.render(e) + "\n")]);
      DiskEvents(codec, after.authz) == DiskEvents(codec, d.authz) + [e]
  {
    var text := codec.render(e) + "\n";
    assert [AppendStep(text)][1..] == [];
    assert d.authz + text == d.authz + codec.render(e) + "\n";
    AppendReadBack(codec, d.authz, e);
  }

  /**
   * Over any crash-free run with any number of restarts in it, the disk log holds every event ever appended, in
   * order, and memory holds the reverse of its last hundred, which is also what the next reload rebuilds.
   */
  lemma LogSurvivesRestarts(codec: Codec, cmds: seq<Cmd>, prepayNames: seq<string>, cdrNames: seq<string>)
    requires Sound(codec) && NoCrash(cmds) && Run(codec, Empty(), cmds).Some?
    ensures
      var s := Run(codec, Empty(), cmds).value;
      && DiskEvents(codec, s.disk.authz) == Appended(cmds)
      && s.mem.log == LogView(Appended(cmds))
      && Reload(codec, s.disk, prepayNames, cdrNames).log == s.mem.log
  {
    EmptyLog(codec);
    RunAppends(codec, Empty(), [], cmds);
    assert [] + Appended(cmds) == Appended(cmds);
  }

  lemma EmptyLog(codec: Codec)
    ensures Lines.Complete("") && DiskEvents(codec, "") == []
  {
    assert Lines.Split("") == [""];
    assert Trim("") == "";
    assert [""][..0] == [];
    assert Events(codec, [""]) == Events(codec, []) + LineEvents(codec, "");
  }

  // ----- The audit log through crashes -----

  /** What a command does to the log: an append is complete, or cut where the crash cut it. */
  function LogAfter(codec: Codec, log: Log, cmd: Cmd): Log {
    match cmd
    case Perform(AppendAuthz(e)) => Fed(codec, log, e, |codec.render(e)| + 1)
    case CrashDuring(AppendAuthz(e), k, torn, kept, _, _) =>
      Fed(codec, log, e, Kept(codec, e, k, torn, kept))
    case _ => log
  }

  /** How many characters of an event's line a crash after k steps leaves in the file. */
  function Kept(codec: Codec, e: Event, k: nat, torn: bool, kept: nat): nat {
    if k > 0 then |codec.render(e)| + 1 else if torn then kept else 0
  }

  function LogOf(codec: Codec, log: Log, cmds: seq<Cmd>): Log
    decreases |cmds|
  {
    if cmds == [] then log else LogOf(codec, LogAfter(codec, log, cmds[0]), cmds[1..])
  }

  lemma ApplyFeeds(codec: Codec, s: State, log: Log, cmd: Cmd)
    requires Sound(codec) && GluedFails(codec) && CutFails(codec)
    requires Enabled(codec, s, cmd) && LogIs(codec, s.disk.authz, log) && DirsSynced(s.mem, s.disk)
    ensures LogIs(codec, Apply(codec, s, cmd).disk.authz, LogAfter(codec, log, cmd))
  {
    match cmd
    case Restart(_, _) => assert LogAfter(codec, log, cmd) == log;
    case Perform(op) => PerformFeeds(codec, s, log, op);
    case CrashDuring(op, k, torn, kept, _, _) => CrashFeeds(codec, s, log, op, k, torn, kept);
  }

  lemma PerformFeeds(codec: Codec, s: State, log: Log, op: Op)
    requires Sound(codec) && GluedFails(codec) && CutFails(codec)
    requires LogIs(codec, s.disk.authz, log) && DirsSynced(s.mem, s.disk)
    ensures LogIs(codec, DoSteps(s.disk, StepsOf(codec, s.mem, op)).authz, LogAfter(codec, log, Perform(op)))
  {
    PerformedLog(codec, s, op);
    if op.AppendAuthz? {
      var n := |codec.render(op.e)| + 1;
      assert LogAfter(codec, log, Perform(op)) == Fed(codec, log, op.e, n);
      FedFile(codec, s.disk.authz, log, op.e, n);
    } else {
      assert LogAfter(codec, log, Perform(op)) == log;
    }
  }

  lemma PerformedLog(codec: Codec, s: State, op: Op)
    requires DirsSynced(s.mem, s.disk)
    ensures
      var after := DoSteps(s.disk, StepsOf(codec, s.mem, op)).authz;
      match op
      case AppendAuthz(e) => after == s.disk.authz + Cut(codec.render(e) + "\n", |codec.render(e)| + 1)
      case _ => after == s.disk.authz
  {
    OpKeepsDirs(codec, s.mem, s.disk, op);
    if op.AppendAuthz? {
      assert [AppendStep(codec.render(op.e) + "\n")][1..] == [];
    }
  }

  lemma CrashFeeds(codec: Codec, s: State, log: Log, op: Op, k: nat, torn: bool, kept: nat)
    requires Sound(codec) && GluedFails(codec) && CutFails(codec)
    requires k <= |StepsOf(codec, s.mem, op)| && LogIs(codec, s.disk.authz, log)
    ensures
      var fed := if op.AppendAuthz? then Fed(codec, log, op.e, Kept(codec, op.e, k, torn, kept)) else log;
      LogIs(codec, CrashDisk(codec, s, op, k, torn, kept).authz, fed)
  {
    CrashedLog(codec, s, op, k, torn, kept);
    if op.AppendAuthz? {
      FedFile(codec, s.disk.authz, log, op.e, Kept(codec, op.e, k, torn, kept));
    }
  }

  lemma CrashedLog(codec: Codec, s: State, op: Op, k: nat, torn: bool, kept: nat)
    requires k <= |StepsOf(codec, s.mem, op)|
    ensures
      var after := CrashDisk(codec, s, op, k, torn, kept).authz;
      match op
      case AppendAuthz(e) =>
        after == s.disk.authz + Cut(codec.render(e) + "\n", Kept(codec, e, k, torn, kept))
      case _ => after == s.disk.authz
  {
    match op
    case PutPrepay(r) => PrepayCrash(s.disk, r, k, torn, kept);
    case MarkAuthorized(uid, now) =>
      if uid in s.mem.tokens {
        PrepayCrash(s.disk, s.mem.tokens[uid].(authorizedAt := Some(now)), k, torn, kept);
      }
    case PutCdr(c) =>
      var xs := CdrSteps(c);
      var ys := if c.authId in s.mem.tokens then PrepaySteps(s.mem.tokens[c.authId].(used := true)) else [];
      CrashedConcat(s.disk, xs, ys, k, torn, kept);
      CrashedWhole(s.disk, xs, torn, kept);
      CdrCrash(s.disk, c, if k < |xs| then k else |xs|, torn, kept);
      if k >= |xs| && c.authId in s.mem.tokens {
        PrepayCrash(DoSteps(s.disk, xs), s.mem.tokens[c.authId].(used := true), k - |xs|, torn, kept);
      }
    case AppendAuthz(e) =>
      var ss := [AppendStep(codec.render(e) + "\n")];
      if k == 1 {
        assert ss[..1] == [ss[0]] && [ss[0]][1..] == [];
        assert DoSteps(s.disk, [ss[0]]) == DoStep(s.disk, ss[0]);
      } else {
        assert s.disk.authz + "" == s.disk.authz;
      }
  }

  lemma {:induction false} RunFeeds(codec: Codec, s: State, log: Log, cmds: seq<Cmd>)
    requires Sound(codec) && GluedFails(codec) && CutFails(codec)
    requires Run(codec, s, cmds).Some? && LogIs(codec, s.disk.authz, log) && DirsSynced(s.mem, s.disk)
    ensures LogIs(codec, Run(codec, s, cmds).value.disk.authz, LogOf(codec, log, cmds))
    decreases |cmds|
  {
    if cmds != [] {
      ApplyFeeds(codec, s, log, cmds[0]);
      ApplyKeepsDirs(codec, s, cmds[0]);
      RunFeeds(codec, Apply(codec, s, cmds[0]), LogAfter(codec, log, cmds[0]), cmds[1..]);
    }
  }

  /**
   * Over any run, with crashes at any step and appends cut at any character, the disk log reads as exactly the
   * events of LogOf: all complete appends, except each one made on top of an unfinished line, which goes together
   * with that line's own event. That is also what the next reload takes into memory.
   */
  lemma LogThroughCrashes(codec: Codec, cmds: seq<Cmd>, prepayNames: seq<string>, cdrNames: seq<string>)
    requires Sound(codec) && GluedFails(codec) && CutFails(codec) && Run(codec, Empty(), cmds).Some?
    ensures
      var s := Run(codec, Empty(), cmds).value;
      var events := Readable(LogOf(codec, Log([], None), cmds));
      && DiskEvents(codec, s.disk.authz) == events
      && Reload(codec, s.disk, prepayNames, cdrNames).log == LogView(events)
  {
    EmptyLog(codec);
    assert LogIs(codec, "", Log([], None)) by {
      assert Lines.Split("") == [""];
      assert Lines.Front([""]) == [];
    }
    RunFeeds(codec, Empty(), Log([], None), cmds);
    LogReads(codec, Run(codec, Empty(), cmds).value.disk.authz, LogOf(codec, Log([], None), cmds));
  }

  // ----- A used prepay always has its CDR -----

  ghost predicate Backed(cdrs: Dir<Cdr>, uid: string) {
    exists f :: f in cdrs && IsRecordFile(f) && cdrs[f].Json? && cdrs[f].value.authId == uid
  }

  predicate UsedFile(prepay: Dir<Prepay>, f: string) {
    f in prepay && IsRecordFile(f) && prepay[f].Json? && prepay[f].value.used
  }

  ghost predicate UsedHasCdr(d: Disk) {
    forall f :: UsedFile(d.prepay, f) ==> Backed(d.cdrs, d.prepay[f].value.uid)
  }

  /** A CDR of this uid will be there: the one being written, or one in a file that is not being replaced. */
  ghost predicate StaysBacked(d: Disk, op: Op, uid: string) {
    var writes := op.PutCdr? && op.c.id != "";
    || (writes && op.c.authId == uid)
    || exists g ::
         && g in d.cdrs && IsRecordFile(g) && d.cdrs[g].Json? && d.cdrs[g].value.authId == uid
         && !(writes && g == FileName(op.c.id))
  }

  /** The prepay file an operation replaces, with its new value. */
  function Replaced(m: Mem, op: Op): Option<(string, Prepay)> {
    var w := WrittenPrepay(m, op);
    if w.Some? && w.value.uid != "" then Some((FileName(w.value.uid), w.value)) else None
  }

  /** What the operation itself writes as used keeps a CDR. */
  ghost predicate WritesBacked(m: Mem, d: Disk, op: Op) {
    var w := Replaced(m, op);
    w.Some? && w.value.1.used ==> StaysBacked(d, op, w.value.1.uid)
  }

  /** Before the operation: every used prepay it leaves in place, and the one it writes, will still have a CDR. */
  ghost predicate EvidenceKept(m: Mem, d: Disk, op: Op) {
    var w := Replaced(m, op);
    && (forall f :: UsedFile(d.prepay, f) && !(w.Some? && f == w.value.0) ==>
          StaysBacked(d, op, d.prepay[f].value.uid))
    && WritesBacked(m, d, op)
  }

  /** The same with the replaced prepay included, which a crash may leave in place. */
  ghost predicate EvidenceSafe(m: Mem, d: Disk, op: Op) {
    && (forall f :: UsedFile(d.prepay, f) ==> StaysBacked(d, op, d.prepay[f].value.uid))
    && WritesBacked(m, d, op)
  }

  /** The disk once the CDR is there, and once everything is, temporary files aside. */
  function CdrDone(d: Disk, op: Op): Disk {
    if op.PutCdr? && op.c.id != "" then d.(cdrs := d.cdrs[FileName(op.c.id) := Json(op.c)]) else d
  }

  function AllDone(m: Mem, d: Disk, op: Op): Disk {
    var e, w := CdrDone(d, op), Replaced(m, op);
    if w.Some? then e.(prepay := e.prepay[w.value.0 := Json(w.value.1)]) else e
  }

  lemma CdrDoneBacked(d: Disk, op: Op, uid: string)
    ensures Backed(CdrDone(d, op).cdrs, uid) <==> StaysBacked(d, op, uid)
  {
    if op.PutCdr? && op.c.id != "" {
      var n, e := FileName(op.c.id), CdrDone(d, op).cdrs;
      NamesApart(op.c.id, "");
      assert n in e && e[n] == Json(op.c);
      if Backed(e, uid) {
        var g :| g in e && IsRecordFile(g) && e[g].Json? && e[g].value.authId == uid;
        assert g != n ==> g in d.cdrs && d.cdrs[g] == e[g];
      }
      if g :| g in d.cdrs && IsRecordFile(g) && d.cdrs[g].Json? && d.cdrs[g].value.authId == uid && g != n {
        assert g in e && e[g] == d.cdrs[g];
      }
    }
  }

  lemma CdrDoneUsed(d: Disk, op: Op)
    ensures UsedHasCdr(CdrDone(d, op)) <==>
            forall f :: UsedFile(d.prepay, f) ==> StaysBacked(d, op, d.prepay[f].value.uid)
  {
    forall f | UsedFile(d.prepay, f)
      ensures Backed(CdrDone(d, op).cdrs, d.prepay[f].value.uid) <==> StaysBacked(d, op, d.prepay[f].value.uid)
    {
      CdrDoneBacked(d, op, d.prepay[f].value.uid);
    }
  }

  lemma AllDoneUsed(m: Mem, d: Disk, op: Op)
    ensures UsedHasCdr(AllDone(m, d, op)) <==> EvidenceKept(m, d, op)
  {
    var e, w := AllDone(m, d, op), Replaced(m, op);
    if w.Some? {
      NamesApart(w.value.1.uid, "");
      assert w.value.0 in e.prepay && e.prepay[w.value.0] == Json(w.value.1);
      CdrDoneBacked(d, op, w.value.1.uid);
    }
    forall f | f in d.prepay && !(w.Some? && f == w.value.0) ensures f in e.prepay && e.prepay[f] == d.prepay[f] {}
    forall f | UsedFile(d.prepay, f)
      ensures Backed(e.cdrs, d.prepay[f].value.uid) <==> StaysBacked(d, op, d.prepay[f].value.uid)
    {
      CdrDoneBacked(d, op, d.prepay[f].value.uid);
    }
  }

  /** The same record files, temporary files aside. */
  ghost predicate SameRecords<T>(d: Dir<T>, e: Dir<T>) {
    forall f :: IsRecordFile(f) ==> (f in d <==> f in e) && (f in d ==> d[f] == e[f])
  }

  ghost predicate SameFiles(d: Disk, e: Disk) {
    SameRecords(d.prepay, e.prepay) && SameRecords(d.cdrs, e.cdrs)
  }

  lemma SameFilesUsed(d: Disk, e: Disk)
    requires SameFiles(d, e) && UsedHasCdr(d)
    ensures UsedHasCdr(e)
  {
    forall f | UsedFile(e.prepay, f) ensures Backed(e.cdrs, e.prepay[f].value.uid) {
      assert UsedFile(d.prepay, f) && e.prepay[f] == d.prepay[f];
      var g :| g in d.cdrs && IsRecordFile(g) && d.cdrs[g].Json? && d.cdrs[g].value.authId == d.prepay[f].value.uid;
      assert g in e.cdrs && e.cdrs[g] == d.cdrs[g];
    }
  }

  lemma CrashDirRecords<T>(d: Dir<T>, n: string, v: T, k: nat, torn: bool)
    requires k <= 2
    ensures SameRecords(if k < 2 then d else d[n := Json(v)], CrashDir(d, n, v, k, torn))
  {
    TmpNotRecord(n);
    if k == 2 {
      assert CrashDir(d, n, v, k, torn) == (d[TmpName(n) := Json(v)] - {TmpName(n)})[n := Json(v)];
    }
  }

  /** A crash leaves the old files, the new CDR alone, or everything new. */
  lemma CrashedFiles(codec: Codec, m: Mem, d: Disk, op: Op, k: nat, torn: bool, kept: nat)
    requires k <= |StepsOf(codec, m, op)|
    ensures
      var e := Crashed(d, StepsOf(codec, m, op), k, torn, kept);
      SameFiles(d, e) || SameFiles(CdrDone(d, op), e) || SameFiles(AllDone(m, d, op), e)
    ensures op.PutCdr? && k == |CdrSteps(op.c)| && !torn ==>
              SameFiles(CdrDone(d, op), Crashed(d, StepsOf(codec, m, op), k, torn, kept))
    ensures k == |StepsOf(codec, m, op)| ==>
              SameFiles(AllDone(m, d, op), Crashed(d, StepsOf(codec, m, op), k, torn, kept))
  {
    match op
    case PutPrepay(r) => PrepayFiles(d, r, k, torn, kept);
    case MarkAuthorized(uid, now) =>
      if uid in m.tokens {
        PrepayFiles(d, m.tokens[uid].(authorizedAt := Some(now)), k, torn, kept);
      }
    case PutCdr(c) => CdrOpFiles(codec, m, d, c, k, torn, kept);
    case AppendAuthz(e) => CrashCases(codec, m, d, op, k, torn, kept);
  }

  lemma PrepayFiles(d: Disk, r: Prepay, k: nat, torn: bool, kept: nat)
    requires k <= |PrepaySteps(r)|
    ensures
      var done := if r.uid == "" || k < 2 then d else d.(prepay := d.prepay[FileName(r.uid) := Json(r)]);
      SameFiles(done, Crashed(d, PrepaySteps(r), k, torn, kept))
  {
    PrepayCrash(d, r, k, torn, kept);
    if r.uid != "" {
      CrashDirRecords(d.prepay, FileName(r.uid), r, k, torn);
    }
  }

  lemma CdrFiles(d: Disk, c: Cdr, k: nat, torn: bool, kept: nat)
    requires k <= |CdrSteps(c)|
    ensures
      var done := if c.id == "" || k < 2 then d else d.(cdrs := d.cdrs[FileName(c.id) := Json(c)]);
      SameFiles(done, Crashed(d, CdrSteps(c), k, torn, kept))
  {
    CdrCrash(d, c, k, torn, kept);
    if c.id != "" {
      CrashDirRecords(d.cdrs, FileName(c.id), c, k, torn);
    }
  }

  lemma CdrOpFiles(codec: Codec, m: Mem, d: Disk, c: Cdr, k: nat, torn: bool, kept: nat)
    requires k <= |StepsOf(codec, m, PutCdr(c))|
    ensures
      var e := Crashed(d, StepsOf(codec, m, PutCdr(c)), k, torn, kept);
      && (SameFiles(d, e) || SameFiles(CdrDone(d, PutCdr(c)), e) || SameFiles(AllDone(m, d, PutCdr(c)), e))
      && (k == |CdrSteps(c)| && !torn ==> SameFiles(CdrDone(d, PutCdr(c)), e))
      && (k == |StepsOf(codec, m, PutCdr(c))| ==> SameFiles(AllDone(m, d, PutCdr(c)), e))
  {
    var xs := CdrSteps(c);
    var ys := if c.authId in m.tokens then PrepaySteps(m.tokens[c.authId].(used := true)) else [];
    CrashedConcat(d, xs, ys, k, torn, kept);
    if k < |xs| {
      CdrFiles(d, c, k, torn, kept);
    } else {
      CdrWritten(d, c);
      if c.authId in m.tokens {
        SecondHalfFiles(d, c, m.tokens[c.authId].(used := true), k - |xs|, torn, kept);
      }
    }
  }

  lemma CdrWritten(d: Disk, c: Cdr)
    ensures SameFiles(CdrDone(d, PutCdr(c)), DoSteps(d, CdrSteps(c)))
  {
    CdrFiles(d, c, |CdrSteps(c)|, false, 0);
    CrashedWhole(d, CdrSteps(c), false, 0);
  }

  lemma SecondHalfFiles(d: Disk, c: Cdr, r: Prepay, k: nat, torn: bool, kept: nat)
    requires k <= |PrepaySteps(r)|
    ensures
      var done := CdrDone(d, PutCdr(c));
      var after := if r.uid == "" || k < 2 then done else done.(prepay := done.prepay[FileName(r.uid) := Json(r)]);
      SameFiles(after, Crashed(DoSteps(d, CdrSteps(c)), PrepaySteps(r), k, torn, kept))
  {
    var mid := DoSteps(d, CdrSteps(c));
    CdrWritten(d, c);
    PrepayFiles(mid, r, k, torn, kept);
    SameThen(CdrDone(d, PutCdr(c)), mid, Crashed(mid, PrepaySteps(r), k, torn, kept), FileName(r.uid), r);
  }

  /** Two disks with the same files keep them the same when the same prepay is replaced. */
  lemma SameThen(a: Disk, b: Disk, e: Disk, n: string, r: Prepay)
    requires SameFiles(a, b)
    ensures SameFiles(b, e) ==> SameFiles(a, e)
    ensures SameFiles(b.(prepay := b.prepay[n := Json(r)]), e) ==> SameFiles(a.(prepay := a.prepay[n := Json(r)]), e)
  {
  }

  /** Whether a completed operation leaves every used prepay with a CDR can be told before it starts. */
  lemma OpKeepsUsedIff(codec: Codec, m: Mem, d: Disk, op: Op)
    ensures UsedHasCdr(DoSteps(d, StepsOf(codec, m, op))) <==> EvidenceKept(m, d, op)
  {
    var ss := StepsOf(codec, m, op);
    CrashedWhole(d, ss, false, 0);
    CrashedFiles(codec, m, d, op, |ss|, false, 0);
    AllDoneUsed(m, d, op);
    SameEither(AllDone(m, d, op), DoSteps(d, ss));
  }

  lemma SameEither(d: Disk, e: Disk)
    requires SameFiles(d, e)
    ensures UsedHasCdr(d) <==> UsedHasCdr(e)
  {
    if UsedHasCdr(d) {
      SameFilesUsed(d, e);
    }
    if UsedHasCdr(e) {
      SameFilesUsed(e, d);
    }
  }

  /** Every used prepay has a CDR wherever a crash interrupts the operation, and at its end. */
  ghost predicate CrashesBacked(codec: Codec, m: Mem, d: Disk, op: Op) {
    forall k: nat, torn, kept: nat :: k <= |StepsOf(codec, m, op)| ==>
      UsedHasCdr(Crashed(d, StepsOf(codec, m, op), k, torn, kept))
  }

  /** Whether the same survives a crash at any step can be told before it starts as well. */
  lemma CrashesBackedIff(codec: Codec, m: Mem, d: Disk, op: Op)
    requires UsedHasCdr(d)
    ensures CrashesBacked(codec, m, d, op) <==> EvidenceSafe(m, d, op)
  {
    var ss := StepsOf(codec, m, op);
    CdrDoneUsed(d, op);
    AllDoneUsed(m, d, op);
    if EvidenceSafe(m, d, op) {
      forall k: nat, torn, kept: nat | k <= |ss| ensures UsedHasCdr(Crashed(d, ss, k, torn, kept)) {
        SafeCrash(codec, m, d, op, k, torn, kept);
      }
    }
    if CrashesBacked(codec, m, d, op) {
      assert UsedHasCdr(Crashed(d, ss, |ss|, false, 0));
      CrashedFiles(codec, m, d, op, |ss|, false, 0);
      SameEither(AllDone(m, d, op), Crashed(d, ss, |ss|, false, 0));
      if op.PutCdr? {
        var k := |CdrSteps(op.c)|;
        assert UsedHasCdr(Crashed(d, ss, k, false, 0));
        CrashedFiles(codec, m, d, op, k, false, 0);
        SameEither(CdrDone(d, op), Crashed(d, ss, k, false, 0));
      }
    }
  }

  lemma SafeCrash(codec: Codec, m: Mem, d: Disk, op: Op, k: nat, torn: bool, kept: nat)
    requires k <= |StepsOf(codec, m, op)|
    requires UsedHasCdr(d) && UsedHasCdr(CdrDone(d, op)) && UsedHasCdr(AllDone(m, d, op))
    ensures UsedHasCdr(Crashed(d, StepsOf(codec, m, op), k, torn, kept))
  {
    var e := Crashed(d, StepsOf(codec, m, op), k, torn, kept);
    CrashedFiles(codec, m, d, op, k, torn, kept);
    if SameFiles(d, e) {
      SameFilesUsed(d, e);
    } else if SameFiles(CdrDone(d, op), e) {
      SameFilesUsed(CdrDone(d, op), e);
    } else {
      SameFilesUsed(AllDone(m, d, op), e);
    }
  }

  /** What that condition amounts to: only another session's CDR file, or a used prepay without a CDR, is dangerous. */
  lemma EvidenceSafeMeans(m: Mem, d: Disk, op: Op)
    requires DirsSynced(m, d) && UsedHasCdr(d)
    ensures op.PutCdr? && op.c.id != "" ==>
              (EvidenceSafe(m, d, op) <==>
               forall f :: UsedFile(d.prepay, f) && d.prepay[f].value.uid != op.c.authId ==>
                 StaysBacked(d, op, d.prepay[f].value.uid))
    ensures !(op.PutCdr? && op.c.id != "") ==>
              (EvidenceSafe(m, d, op) <==>
               (Replaced(m, op).Some? && Replaced(m, op).value.1.used ==> Backed(d.cdrs, Replaced(m, op).value.1.uid)))
  {
    WrittenPrepayKeyed(m, d, op);
    if !(op.PutCdr? && op.c.id != "") {
      forall uid ensures Backed(d.cdrs, uid) <==> StaysBacked(d, op, uid) {
        CdrDoneBacked(d, op, uid);
      }
    }
  }

  predicate HasOp(cmd: Cmd) {
    cmd.Perform? || cmd.CrashDuring?
  }

  /** At every moment of a run, at every step inside its operations too, every used prepay has its CDR. */
  ghost predicate AlwaysBacked(codec: Codec, s: State, cmds: seq<Cmd>)
    decreases |cmds|
  {
    && UsedHasCdr(s.disk)
    && (cmds != [] && HasOp(cmds[0]) ==> CrashesBacked(codec, s.mem, s.disk, cmds[0].op))
    && (cmds != [] && Enabled(codec, s, cmds[0]) ==> AlwaysBacked(codec, Apply(codec, s, cmds[0]), cmds[1..]))
  }

  /** Every operation of the run is safe when it starts. */
  ghost predicate SafeRun(codec: Codec, s: State, cmds: seq<Cmd>)
    decreases |cmds|
  {
    && (cmds != [] && HasOp(cmds[0]) ==> EvidenceSafe(s.mem, s.disk, cmds[0].op))
    && (cmds != [] && Enabled(codec, s, cmds[0]) ==> SafeRun(codec, Apply(codec, s, cmds[0]), cmds[1..]))
  }

  lemma ApplyBacked(codec: Codec, s: State, cmd: Cmd)
    requires Enabled(codec, s, cmd) && UsedHasCdr(s.disk)
    requires HasOp(cmd) ==> CrashesBacked(codec, s.mem, s.disk, cmd.op)
    ensures UsedHasCdr(Apply(codec, s, cmd).disk)
  {
    if cmd.Perform? {
      var ss := StepsOf(codec, s.mem, cmd.op);
      CrashedWhole(s.disk, ss, false, 0);
      assert UsedHasCdr(Crashed(s.disk, ss, |ss|, false, 0));
    }
  }

  lemma {:induction false} RunBackedIff(codec: Codec, s: State, cmds: seq<Cmd>)
    requires UsedHasCdr(s.disk)
    ensures AlwaysBacked(codec, s, cmds) <==> SafeRun(codec, s, cmds)
    decreases |cmds|
  {
    if cmds != [] {
      if HasOp(cmds[0]) {
        CrashesBackedIff(codec, s.mem, s.disk, cmds[0].op);
      }
      if Enabled(codec, s, cmds[0]) && (HasOp(cmds[0]) ==> CrashesBacked(codec, s.mem, s.disk, cmds[0].op)) {
        ApplyBacked(codec, s, cmds[0]);
        RunBackedIff(codec, Apply(codec, s, cmds[0]), cmds[1..]);
      }
    }
  }

  /**
   * Over any run from an empty store, with crashes and restarts: every used prepay has its CDR at every moment if
   * and only if every operation was safe when it started.
   */
  lemma UsedPrepaysBackedIff(codec: Codec, cmds: seq<Cmd>)
    ensures AlwaysBacked(codec, Empty(), cmds) <==> SafeRun(codec, Empty(), cmds)
  {
    RunBackedIff(codec, Empty(), cmds);
  }

  // ----- A rule that is enough -----

  ghost predicate UsedInMemory(m: Mem, d: Disk) {
    forall k :: k in m.tokens && m.tokens[k].used ==> Backed(d.cdrs, k)
  }

  /** Prepays are issued unused; a CDR has an id, and replaces no CDR file but one of the same session. */
  ghost predicate CarefulOp(d: Disk, op: Op) {
    && (op.PutPrepay? ==> !op.r.used)
    && (op.PutCdr? ==>
          && op.c.id != ""
          && var n := FileName(op.c.id);
          n in d.cdrs ==> d.cdrs[n].Json? && d.cdrs[n].value.authId == op.c.authId)
  }

  lemma CarefulStays(d: Disk, op: Op, uid: string)
    requires CarefulOp(d, op) && Backed(d.cdrs, uid)
    ensures StaysBacked(d, op, uid)
  {
    var g :| g in d.cdrs && IsRecordFile(g) && d.cdrs[g].Json? && d.cdrs[g].value.authId == uid;
  }

  lemma CarefulIsSafe(m: Mem, d: Disk, op: Op)
    requires DirsSynced(m, d) && UsedHasCdr(d) && UsedInMemory(m, d) && CarefulOp(d, op)
    ensures EvidenceSafe(m, d, op)
  {
    WrittenPrepayKeyed(m, d, op);
    forall uid | Backed(d.cdrs, uid) ensures StaysBacked(d, op, uid) {
      CarefulStays(d, op, uid);
    }
  }

  lemma OpKeepsUsedInMemory(codec: Codec, m: Mem, d: Disk, op: Op)
    requires DirsSynced(m, d) && UsedInMemory(m, d) && CarefulOp(d, op)
    ensures UsedInMemory(MemAfter(m, op), DoSteps(d, StepsOf(codec, m, op)))
  {
    var ss := StepsOf(codec, m, op);
    var e := DoSteps(d, ss);
    CrashedWhole(d, ss, false, 0);
    CrashedFiles(codec, m, d, op, |ss|, false, 0);
    forall k | k in MemAfter(m, op).tokens && MemAfter(m, op).tokens[k].used ensures Backed(e.cdrs, k) {
      if !(op.PutCdr? && k == op.c.authId) {
        assert k in m.tokens && m.tokens[k].used;
        CarefulStays(d, op, k);
      }
      CdrDoneBacked(d, op, k);
      SameBacked(CdrDone(d, op).cdrs, e.cdrs, k);
    }
  }

  lemma SameBacked(a: Dir<Cdr>, b: Dir<Cdr>, uid: string)
    requires SameRecords(a, b) && Backed(a, uid)
    ensures Backed(b, uid)
  {
    var g :| g in a && IsRecordFile(g) && a[g].Json? && a[g].value.authId == uid;
    assert g in b && b[g] == a[g];
  }

  /** What a reload takes into memory was backed on disk. */
  lemma ReloadUsed(codec: Codec, d: Disk, ps: seq<string>, cs: seq<string>)
    requires UsedHasCdr(d) && WellNamed(d.prepay, PrepayId)
    ensures UsedInMemory(Reload(codec, d, ps, cs), d)
  {
    var m := Reload(codec, d, ps, cs);
    forall k | k in m.tokens && m.tokens[k].used ensures Backed(d.cdrs, k) {
      LoadedFrom(ps, d.prepay, PrepayId, k);
      NamesApart(k, "");
      assert UsedFile(d.prepay, FileName(k));
    }
  }

  ghost predicate CarefulRun(codec: Codec, s: State, cmds: seq<Cmd>)
    decreases |cmds|
  {
    && (cmds != [] && HasOp(cmds[0]) ==> CarefulOp(s.disk, cmds[0].op))
    && (cmds != [] && Enabled(codec, s, cmds[0]) ==> CarefulRun(codec, Apply(codec, s, cmds[0]), cmds[1..]))
  }

  lemma ApplyKeepsUsed(codec: Codec, s: State, cmd: Cmd)
    requires DirsSynced(s.mem, s.disk) && UsedHasCdr(s.disk) && UsedInMemory(s.mem, s.disk) && Enabled(codec, s, cmd)
    requires HasOp(cmd) ==> CarefulOp(s.disk, cmd.op)
    ensures HasOp(cmd) ==> EvidenceSafe(s.mem, s.disk, cmd.op)
    ensures UsedHasCdr(Apply(codec, s, cmd).disk) && UsedInMemory(Apply(codec, s, cmd).mem, Apply(codec, s, cmd).disk)
  {
    if HasOp(cmd) {
      CarefulIsSafe(s.mem, s.disk, cmd.op);
      CrashesBackedIff(codec, s.mem, s.disk, cmd.op);
    }
    ApplyBacked(codec, s, cmd);
    match cmd
    case Perform(op) => OpKeepsUsedInMemory(codec, s.mem, s.disk, op);
    case Restart(ps, cs) => ReloadUsed(codec, s.disk, ps, cs);
    case CrashDuring(op, k, torn, kept, ps, cs) =>
      CrashKeepsWellNamed(codec, s.mem, s.disk, op, k, torn, kept);
      ReloadUsed(codec, CrashDisk(codec, s, op, k, torn, kept), ps, cs);
  }

  lemma {:induction false} CarefulRunIsSafe(codec: Codec, s: State, cmds: seq<Cmd>)
    requires DirsSynced(s.mem, s.disk) && UsedHasCdr(s.disk) && UsedInMemory(s.mem, s.disk)
    requires Run(codec, s, cmds).Some? && CarefulRun(codec, s, cmds)
    ensures SafeRun(codec, s, cmds) && UsedHasCdr(Run(codec, s, cmds).value.disk)
    decreases |cmds|
  {
    if cmds != [] {
      ApplyKeepsDirs(codec, s, cmds[0]);
      ApplyKeepsUsed(codec, s, cmds[0]);
      CarefulRunIsSafe(codec, Apply(codec, s, cmds[0]), cmds[1..]);
    }
  }

  /**
   * When prepays are issued unused and a CDR file is only ever replaced by a CDR of the same session, every used
   * prepay has its CDR at every moment of every run.
   */
  lemma UsedPrepaysHaveCdrs(codec: Codec, cmds: seq<Cmd>)
    requires Run(codec, Empty(), cmds).Some? && CarefulRun(codec, Empty(), cmds)
    ensures AlwaysBacked(codec, Empty(), cmds) && UsedHasCdr(Run(codec, Empty(), cmds).value.disk)
  {
    CarefulRunIsSafe(codec, Empty(), cmds);
    RunBackedIff(codec, Empty(), cmds);
  }

  /** Reusing a CDR id for another session erases the only evidence behind an earlier used prepay. */
  lemma ReusedCdrIdLosesEvidence(codec: Codec, m: Mem, d: Disk, c: Cdr, f: string)
    requires DirsSynced(m, d) && c.id != "" && UsedFile(d.prepay, f)
    requires Sanitize(d.prepay[f].value.uid) != Sanitize(c.authId)
    requires forall g :: g in d.cdrs && IsRecordFile(g) && d.cdrs[g].value.authId == d.prepay[f].value.uid ==>
               g == FileName(c.id)
    ensures !UsedHasCdr(DoSteps(d, StepsOf(codec, m, PutCdr(c))))
  {
    WrittenPrepayKeyed(m, d, PutCdr(c));
    SameFile(d.prepay[f].value.uid, c.authId);
    assert !StaysBacked(d, PutCdr(c), d.prepay[f].value.uid);
    OpKeepsUsedIff(codec, m, d, PutCdr(c));
  }
}
