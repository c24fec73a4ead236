/** Cleanup cannot be noticed, unless a save slips between another request's stale lookup and its removal. */
module AuthCleanup {
  import opened Common
  import opened Payment
  import opened Sessions
  import opened AuthProtocol
  import Token = CashuToken

  // ----- The two worlds: `a` was cleaned at some point, `b` was not -----

  ghost predicate FilesRelated(a: Files, b: Files, now: int) {
    && (forall p :: p in a ==> p in b && a[p] == b[p])
    && (forall p :: p in b && p !in a ==> Removable(b[p], now))
  }

  /** Phases agree, except that `b` may have seen an expired record that is gone from `a`. */
  predicate PhaseRelated(pa: Phase, pb: Phase, files: Files, path: string) {
    pa == pb || (pa == LookedUp(false) && pb == LookedUp(true) && path !in files)
  }

  ghost predicate JobRelated(deps: Deps, a: World, b: World, r: nat)
    requires r in a.jobs && r in b.jobs
  {
    && a.jobs[r].req == b.jobs[r].req
    && PhaseRelated(a.jobs[r].phase, b.jobs[r].phase, a.files, PathOf(deps, b.jobs[r].req))
  }

  ghost predicate Related(deps: Deps, a: World, b: World) {
    && FilesRelated(a.files, b.files, b.now)
    && a.spent == b.spent && a.now == b.now && a.receipts == b.receipts && a.ledger == b.ledger
    && a.jobs.Keys == b.jobs.Keys
    && forall r :: r in b.jobs ==> JobRelated(deps, a, b, r)
  }

  /** No save at a path while another request there is about to remove an expired record. */
  ghost predicate NoRace(deps: Deps, w: World, a: Action) {
    a.Step? && a.r in w.jobs && w.jobs[a.r].phase.Saving? ==>
      forall q :: q in w.jobs && w.jobs[q].phase == LookedUp(true) ==>
        PathOf(deps, w.jobs[q].req) != PathOf(deps, w.jobs[a.r].req)
  }

  ghost predicate RaceFree(deps: Deps, w: World, actions: seq<Action>)
    decreases |actions|
  {
    actions == [] || (NoRace(deps, w, actions[0]) &&
                      (Enabled(w, actions[0]) ==> RaceFree(deps, Apply(deps, w, actions[0]), actions[1..])))
  }

  /** Whatever can be resumed from one directory can be resumed from the other. */
  lemma LiveRelated(a: Files, b: Files, path: string, now: int)
    requires FilesRelated(a, b, now)
    ensures Live(a, path, now) == Live(b, path, now)
    ensures Get(a, path).Some? ==> Get(a, path) == Get(b, path)
    ensures Get(b, path).Some? && Get(a, path).None? ==> path !in a
  {
  }

  lemma SaveRelated(a: Files, b: Files, path: string, rec: Record, saved: WriteOutcome, now: int)
    requires FilesRelated(a, b, now)
    ensures FilesRelated(SaveTo(a, path, rec, saved), SaveTo(b, path, rec, saved), now)
  {
  }

  lemma RemovalRelated(a: Files, b: Files, path: string, now: int)
    requires FilesRelated(a, b, now)
    ensures FilesRelated(a - {path}, b - {path}, now)
    ensures path !in a ==> FilesRelated(a, b - {path}, now)
  {
  }

  lemma EffectsRelated(deps: Deps, req: Request, pa: Phase, pb: Phase, a: Files, b: Files, spent: set<string>,
      now: int, ans: Answer)
    requires FilesRelated(a, b, now)
    requires PhaseRelated(pa, pb, a, PathOf(deps, req))
    ensures
      var ea, eb := StepEffect(deps, req, pa, a, spent, now, ans), StepEffect(deps, req, pb, b, spent, now, ans);
      && FilesRelated(ea.files, eb.files, now)
      && PhaseRelated(ea.phase, eb.phase, ea.files, PathOf(deps, req))
      && ea.redeemed == eb.redeemed && ea.entry == eb.entry
  {
    var path := PathOf(deps, req);
    match pb
    case Saving(rec, _) => SaveRelated(a, b, path, rec, ans.saved, now);
    case LookedUp(_) => RemovalRelated(a, b, path, now);
    case _ => LiveRelated(a, b, path, now);
  }

  /** A step touches no session file but its own, and creates one only by saving. */
  lemma EffectTouchesOwnPath(deps: Deps, req: Request, phase: Phase, files: Files, spent: set<string>, now: int,
      ans: Answer, p: string)
    requires p !in files
    requires p in StepEffect(deps, req, phase, files, spent, now, ans).files
    ensures phase.Saving? && p == PathOf(deps, req)
  {
  }

  lemma StepRelated(deps: Deps, a: World, b: World, r: nat, ans: Answer)
    requires Related(deps, a, b) && r in b.jobs && NoRace(deps, b, Step(r, ans))
    ensures Related(deps, Advance(deps, a, r, ans), Advance(deps, b, r, ans))
  {
    var req, pa, pb := b.jobs[r].req, a.jobs[r].phase, b.jobs[r].phase;
    assert JobRelated(deps, a, b, r);
    EffectsRelated(deps, req, pa, pb, a.files, b.files, b.spent, b.now, ans);
    var ea, eb := EffectOf(deps, a, r, ans), EffectOf(deps, b, r, ans);
    forall p | p !in a.files && p in ea.files ensures pb.Saving? && p == PathOf(deps, req) {
      EffectTouchesOwnPath(deps, req, pa, a.files, a.spent, a.now, ans, p);
    }
    TakeRelated(deps, a, b, r, ea, eb);
  }

  lemma TakeRelated(deps: Deps, a: World, b: World, r: nat, ea: Effect, eb: Effect)
    requires Related(deps, a, b) && r in b.jobs
    requires FilesRelated(ea.files, eb.files, b.now)
    requires PhaseRelated(ea.phase, eb.phase, ea.files, PathOf(deps, b.jobs[r].req))
    requires ea.redeemed == eb.redeemed && ea.entry == eb.entry
    requires forall p :: p !in a.files && p in ea.files ==> b.jobs[r].phase.Saving? && p == PathOf(deps, b.jobs[r].req)
    requires b.jobs[r].phase.Saving? ==>
               forall q :: q in b.jobs && b.jobs[q].phase == LookedUp(true) ==>
                 PathOf(deps, b.jobs[q].req) != PathOf(deps, b.jobs[r].req)
    ensures Related(deps, Take(a, r, ea), Take(b, r, eb))
  {
    var va, vb := Take(a, r, ea), Take(b, r, eb);
    assert JobRelated(deps, a, b, r);
    forall q | q in vb.jobs ensures JobRelated(deps, va, vb, q) {
      if q != r {
        assert JobRelated(deps, a, b, q);
        assert va.jobs[q] == a.jobs[q] && vb.jobs[q] == b.jobs[q];
      }
    }
  }

  lemma ApplyRelated(deps: Deps, a: World, b: World, act: Action)
    requires Related(deps, a, b) && Enabled(b, act) && NoRace(deps, b, act)
    ensures Enabled(a, act) && Related(deps, Apply(deps, a, act), Apply(deps, b, act))
  {
    match act
    case Step(r, ans) => StepRelated(deps, a, b, r, ans);
    case Arrive(req) =>
      assert |a.jobs| == |a.jobs.Keys| == |b.jobs.Keys| == |b.jobs|;
      ArriveRelated(deps, a, b, Job(req, Start(deps, req)));
    case Cleanup =>
      var va, vb := Apply(deps, a, act), Apply(deps, b, act);
      forall q | q in vb.jobs ensures JobRelated(deps, va, vb, q) {
        assert JobRelated(deps, a, b, q);
      }
    case Tick(dt) =>
      var va, vb := Apply(deps, a, act), Apply(deps, b, act);
      forall q | q in vb.jobs ensures JobRelated(deps, va, vb, q) {
        assert JobRelated(deps, a, b, q);
      }
  }

  lemma ArriveRelated(deps: Deps, a: World, b: World, job: Job)
    requires Related(deps, a, b) && |a.jobs| == |b.jobs|
    ensures Related(deps, a.(jobs := a.jobs[|a.jobs| := job]), b.(jobs := b.jobs[|b.jobs| := job]))
  {
    var va, vb := a.(jobs := a.jobs[|a.jobs| := job]), b.(jobs := b.jobs[|b.jobs| := job]);
    forall q | q in vb.jobs ensures JobRelated(deps, va, vb, q) {
      if q != |b.jobs| {
        assert JobRelated(deps, a, b, q);
      }
    }
  }

  lemma {:induction false} RunsRelated(deps: Deps, a: World, b: World, actions: seq<Action>)
    requires Related(deps, a, b) && Run(deps, b, actions).Some? && RaceFree(deps, b, actions)
    ensures Run(deps, a, actions).Some?
    ensures Related(deps, Run(deps, a, actions).value, Run(deps, b, actions).value)
    decreases |actions|
  {
    if actions != [] {
      ApplyRelated(deps, a, b, actions[0]);
      RunsRelated(deps, Apply(deps, a, actions[0]), Apply(deps, b, actions[0]), actions[1..]);
    }
  }

  /**
   * Cleanup is invisible, in local and in delegated mode and under any interleaving: inserted anywhere into a
   * run that is race-free from there on, it changes no answer, no redemption and no ledger entry.
   */
  lemma CleanupInvisible(deps: Deps, w0: World, before: seq<Action>, after: seq<Action>)
    requires Run(deps, w0, before + after).Some?
    requires Run(deps, w0, before).Some? ==> RaceFree(deps, Run(deps, w0, before).value, after)
    ensures Run(deps, w0, before + [Cleanup] + after).Some?
    ensures
      var with, without := Run(deps, w0, before + [Cleanup] + after).value, Run(deps, w0, before + after).value;
      && (forall r :: Answered(with, r) == Answered(without, r))
      && with.spent == without.spent && with.receipts == without.receipts && with.ledger == without.ledger
  {
    RunConcat(deps, w0, before, after);
    var w := Run(deps, w0, before).value;
    RunInserted(deps, w0, before, Cleanup, after);
    CleanedRelated(deps, w);
    RunsRelated(deps, Apply(deps, w, Cleanup), w, after);
    RelatedAnswers(deps, Run(deps, Apply(deps, w, Cleanup), after).value, Run(deps, w, after).value);
  }

  lemma CleanedRelated(deps: Deps, w: World)
    ensures Related(deps, Apply(deps, w, Cleanup), w)
  {
    forall r | r in w.jobs ensures JobRelated(deps, Apply(deps, w, Cleanup), w, r) {}
  }

  lemma RelatedAnswers(deps: Deps, a: World, b: World)
    requires Related(deps, a, b)
    ensures forall r :: Answered(a, r) == Answered(b, r)
  {
    forall r ensures Answered(a, r) == Answered(b, r) {
      if r in b.jobs {
        assert JobRelated(deps, a, b, r);
      }
    }
  }

  /** A run with one more action in the middle. */
  lemma RunInserted(deps: Deps, w0: World, before: seq<Action>, x: Action, after: seq<Action>)
    requires Run(deps, w0, before).Some? && Enabled(Run(deps, w0, before).value, x)
    ensures Run(deps, w0, before + [x] + after) == Run(deps, Apply(deps, Run(deps, w0, before).value, x), after)
  {
    RunConcat(deps, w0, before, [x] + after);
    assert ([x] + after)[1..] == after;
    assert before + [x] + after == before + ([x] + after);
  }

  // ----- The race that makes it visible -----

  const YES := Answer(Some(Token.Unspent), true, None, "", Written)

  /**
   * A long-expired session, one reconnecting request and one paying request on the same path, both about to look up.
   */
  ghost predicate RaceSetup(deps: Deps, w: World, q: nat, r: nat, cred: Credential, token: Token.TokenData) {
    && !deps.delegated
    && q in w.jobs && r in w.jobs && q != r && |w.jobs| !in w.jobs
    && w.jobs[q].phase == LookingUp && w.jobs[r].phase == LookingUp
    && PathOf(deps, w.jobs[q].req) == PathOf(deps, w.jobs[r].req)
    && MacPattern(w.jobs[q].req.mac)
    && (var path := PathOf(deps, w.jobs[r].req);
        && IsSessionFile(path) && path in w.files && w.files[path].Json? && Removable(w.files[path], w.now))
    && Prepare(deps, w.jobs[q].req) == Done(Reject(NoCredential))
    && Prepare(deps, w.jobs[r].req) == Checking(cred, token)
    && Redeemable(cred.value, token, w.spent)
    && 0 < token.amount <= 922_337_203
  }

  /** Both look up; the payer removes, checks, redeems and saves; the other removes; it then reconnects. */
  function RaceRun(q: nat, r: nat, req: Request, n: nat): seq<Action> {
    [Step(r, YES), Step(q, YES)] + RaceEnd(q, r, req, n)
  }

  function RaceEnd(q: nat, r: nat, req: Request, n: nat): seq<Action> {
    PayerSteps(r) + ([Step(q, YES)] + [Arrive(req), Step(n, YES), Step(n, YES)])
  }

  function PayerSteps(r: nat): seq<Action> {
    [Step(r, YES), Step(r, YES), Step(r, YES), Step(r, YES)]
  }

  lemma RunTwo(deps: Deps, w: World, x: Action, y: Action)
    requires Enabled(w, x) && Enabled(Apply(deps, w, x), y)
    ensures Run(deps, w, [x, y]) == Some(Apply(deps, Apply(deps, w, x), y))
  {
    assert [x, y] == [x] + [y];
    RunConcat(deps, w, [x], [y]);
    RunOne(deps, w, x);
    RunOne(deps, Apply(deps, w, x), y);
  }

  /** From the lookup onwards the payer ends with its own fresh record in place, whatever was there. */
  lemma PaymentSaves(deps: Deps, w: World, r: nat, cred: Credential, token: Token.TokenData)
    requires !deps.delegated && r in w.jobs && w.jobs[r].phase.LookedUp?
    requires Prepare(deps, w.jobs[r].req) == Checking(cred, token)
    requires Redeemable(cred.value, token, w.spent)
    ensures
      var v := Run(deps, w, PayerSteps(r));
      var rec := PaidRecord(deps, w.jobs[r].req, cred, token, "", w.now);
      && v.Some? && v.value.jobs.Keys == w.jobs.Keys
      && (forall k :: k in w.jobs && k != r ==> v.value.jobs[k] == w.jobs[k])
      && v.value.jobs[r].phase.Done?
      && PathOf(deps, w.jobs[r].req) in v.value.files
      && v.value.files[PathOf(deps, w.jobs[r].req)] == Json(rec)
      && v.value.now == w.now
  {
    var w1 := Advance(deps, w, r, YES);
    assert w1.jobs[r].phase == Checking(cred, token);
    var w2 := Advance(deps, w1, r, YES);
    assert w2.jobs[r].phase == Redeeming(cred, token);
    var w3 := Advance(deps, w2, r, YES);
    assert w3.jobs[r].phase.Saving?;
    var w4 := Advance(deps, w3, r, YES);
    assert w4.jobs[r].phase.Done?;
    RunTwo(deps, w, Step(r, YES), Step(r, YES));
    RunTwo(deps, w2, Step(r, YES), Step(r, YES));
    RunConcat(deps, w, [Step(r, YES), Step(r, YES)], [Step(r, YES), Step(r, YES)]);
    assert PayerSteps(r) == [Step(r, YES), Step(r, YES)] + [Step(r, YES), Step(r, YES)];
  }

  /** A freshly paid record is active at once. */
  lemma PaidRecordLive(deps: Deps, req: Request, cred: Credential, token: Token.TokenData, now: int)
    requires 0 < token.amount <= 922_337_203
    ensures IsActive(PaidRecord(deps, req, cred, token, "", now), now)
  {
  }

  /** The tail of the race: the late remover steps, then the client reconnects. */
  lemma Reconnect(deps: Deps, w: World, q: nat, stale: bool, req: Request)
    requires !deps.delegated && q in w.jobs && w.jobs[q].phase == LookedUp(stale) && |w.jobs| !in w.jobs
    requires MacPattern(req.mac)
    requires PathOf(deps, req) == PathOf(deps, w.jobs[q].req)
    requires Prepare(deps, req) == Done(Reject(NoCredential))
    requires Live(w.files, PathOf(deps, req), w.now).Some?
    ensures
      var n := |w.jobs|;
      var v := Run(deps, w, [Step(q, YES)] + [Arrive(req), Step(n, YES), Step(n, YES)]);
      && v.Some?
      && (if stale then Answered(v.value, n) == Some(Reject(NoCredential))
          else Answered(v.value, n).Some? && Answered(v.value, n).value.Accept?)
  {
    var n := |w.jobs|;
    var w1 := Advance(deps, w, q, YES);
    assert w1.jobs.Keys == w.jobs.Keys;
    assert |w1.jobs| == |w1.jobs.Keys| == |w.jobs.Keys| == n;
    var w2 := Apply(deps, w1, Arrive(req));
    assert w2.jobs[n].phase == LookingUp;
    var w3 := Advance(deps, w2, n, YES);
    assert if stale then w3.jobs[n].phase == LookedUp(false) else w3.jobs[n].phase.Done?;
    RunOne(deps, w, Step(q, YES));
    RunTwo(deps, w1, Arrive(req), Step(n, YES));
    RunOne(deps, w3, Step(n, YES));
    RunConcat(deps, w1, [Arrive(req), Step(n, YES)], [Step(n, YES)]);
    assert [Arrive(req), Step(n, YES), Step(n, YES)] == [Arrive(req), Step(n, YES)] + [Step(n, YES)];
    RunConcat(deps, w, [Step(q, YES)], [Arrive(req), Step(n, YES), Step(n, YES)]);
  }

  /** The race up to the point where only the late removal differs. */
  lemma RaceFrom(deps: Deps, w: World, q: nat, r: nat, cred: Credential, token: Token.TokenData, stale: bool)
    requires !deps.delegated && q in w.jobs && r in w.jobs && q != r && |w.jobs| !in w.jobs
    requires w.jobs[q].phase == LookingUp && w.jobs[r].phase == LookingUp
    requires PathOf(deps, w.jobs[q].req) == PathOf(deps, w.jobs[r].req)
    requires MacPattern(w.jobs[q].req.mac)
    requires Prepare(deps, w.jobs[q].req) == Done(Reject(NoCredential))
    requires Live(w.files, PathOf(deps, w.jobs[q].req), w.now).None?
    requires stale == Get(w.files, PathOf(deps, w.jobs[q].req)).Some?
    requires Prepare(deps, w.jobs[r].req) == Checking(cred, token)
    requires Redeemable(cred.value, token, w.spent) && 0 < token.amount <= 922_337_203
    ensures
      var n := |w.jobs|;
      var v := Run(deps, w, RaceRun(q, r, w.jobs[q].req, n));
      && v.Some?
      && (if stale then Answered(v.value, n) == Some(Reject(NoCredential))
          else Answered(v.value, n).Some? && Answered(v.value, n).value.Accept?)
  {
    var n, req := |w.jobs|, w.jobs[q].req;
    BothLookUp(deps, w, q, r, stale, RaceEnd(q, r, req, n));
    PayThenReconnect(deps, BothMissed(w, q, r, stale), q, r, cred, token, stale);
  }

  /** From the two lookups on: the payer finishes, the late remover steps, the client reconnects. */
  lemma PayThenReconnect(deps: Deps, w: World, q: nat, r: nat, cred: Credential, token: Token.TokenData, stale: bool)
    requires !deps.delegated && q in w.jobs && r in w.jobs && q != r && |w.jobs| !in w.jobs
    requires w.jobs[q].phase == LookedUp(stale) && w.jobs[r].phase.LookedUp?
    requires PathOf(deps, w.jobs[q].req) == PathOf(deps, w.jobs[r].req)
    requires MacPattern(w.jobs[q].req.mac)
    requires Prepare(deps, w.jobs[q].req) == Done(Reject(NoCredential))
    requires Prepare(deps, w.jobs[r].req) == Checking(cred, token)
    requires Redeemable(cred.value, token, w.spent) && 0 < token.amount <= 922_337_203
    ensures
      var n, req := |w.jobs|, w.jobs[q].req;
      var v := Run(deps, w, RaceEnd(q, r, req, n));
      && v.Some?
      && (if stale then Answered(v.value, n) == Some(Reject(NoCredential))
          else Answered(v.value, n).Some? && Answered(v.value, n).value.Accept?)
  {
    var n, req := |w.jobs|, w.jobs[q].req;
    PaymentSaves(deps, w, r, cred, token);
    PaidRecordLive(deps, w.jobs[r].req, cred, token, w.now);
    var w3 := Run(deps, w, PayerSteps(r)).value;
    assert |w3.jobs| == |w3.jobs.Keys| == |w.jobs.Keys| == n;
    Reconnect(deps, w3, q, stale, req);
    RunConcat(deps, w, PayerSteps(r), [Step(q, YES)] + [Arrive(req), Step(n, YES), Step(n, YES)]);
  }

  /** The state after two lookups that find nothing to resume. */
  function BothMissed(w: World, q: nat, r: nat, stale: bool): (v: World)
    requires q in w.jobs && r in w.jobs && q != r
    ensures |v.jobs| == |w.jobs| && v.jobs.Keys == w.jobs.Keys
    ensures v.files == w.files && v.spent == w.spent && v.now == w.now
    ensures v.jobs[q] == Job(w.jobs[q].req, LookedUp(stale)) && v.jobs[r] == Job(w.jobs[r].req, LookedUp(stale))
  {
    var v := w.(jobs := w.jobs[r := Job(w.jobs[r].req, LookedUp(stale))][q := Job(w.jobs[q].req, LookedUp(stale))]);
    assert |v.jobs| == |v.jobs.Keys| == |w.jobs.Keys| by { assert v.jobs.Keys == w.jobs.Keys; }
    v
  }

  lemma BothLookUp(deps: Deps, w: World, q: nat, r: nat, stale: bool, rest: seq<Action>)
    requires q in w.jobs && r in w.jobs && q != r
    requires w.jobs[q].phase == LookingUp && w.jobs[r].phase == LookingUp
    requires PathOf(deps, w.jobs[q].req) == PathOf(deps, w.jobs[r].req)
    requires Live(w.files, PathOf(deps, w.jobs[q].req), w.now).None?
    requires stale == Get(w.files, PathOf(deps, w.jobs[q].req)).Some?
    ensures Run(deps, w, [Step(r, YES), Step(q, YES)] + rest) == Run(deps, BothMissed(w, q, r, stale), rest)
  {
    RunTwo(deps, w, Step(r, YES), Step(q, YES));
    assert Advance(deps, Advance(deps, w, r, YES), q, YES) == BothMissed(w, q, r, stale);
    RunConcat(deps, w, [Step(r, YES), Step(q, YES)], rest);
  }

  /**
   * Without race freedom the claim is false, for every such setup: the same run answers the reconnecting client
   * from its paid session when a cleanup came first, and finds no session when it did not.
   */
  lemma RaceMakesCleanupVisible(deps: Deps, w: World, q: nat, r: nat, cred: Credential, token: Token.TokenData)
    requires RaceSetup(deps, w, q, r, cred, token)
    ensures
      var n := |w.jobs|;
      var run := RaceRun(q, r, w.jobs[q].req, n);
      var with, without := Run(deps, w, [Cleanup] + run), Run(deps, w, run);
      && with.Some? && without.Some?
      && Answered(with.value, n).Some? && Answered(with.value, n).value.Accept?
      && Answered(without.value, n) == Some(Reject(NoCredential))
  {
    RaceFrom(deps, w, q, r, cred, token, true);
    var cleaned := Apply(deps, w, Cleanup);
    RaceFrom(deps, cleaned, q, r, cred, token, false);
    var run := RaceRun(q, r, w.jobs[q].req, |w.jobs|);
    assert ([Cleanup] + run)[1..] == run;
  }

  // ----- Such a race, in the concrete -----

  const COIN := Token.TokenData("https://testnut", "sat", "", 21, [Token.Proof(21, "00", "secret", "02")])

  /** A pipeline that decodes every token to the same coin. */
  function OneCoin(): Deps {
    Deps(false, "op", "nas", (s: string) => s, (s: string) => Some(COIN), (s: string) => true)
  }

  /** A client whose session ended hours ago reconnects without a credential while it pays in another request. */
  function RacingWorld(): World {
    var bare, pay := Request("", "aa", "", ""), Request("cashuAabcd", "aa", "", "");
    var ended := Record("aa", "", "", "", 1, "sat", 0, 10, Username, Cashu, "");
    World(map["aa.json" := Json(ended)], {}, 10 * HOUR,
          map[0 := Job(bare, LookingUp), 1 := Job(pay, LookingUp)], map[], [])
  }

  lemma RacingPaths()
    ensures Path(OneCoin().hash, "aa") == "aa.json" && IsSessionFile("aa.json")
  {
    assert ToLower("aa") == "aa";
    assert Without("a", ':') == "a" && Without("a", '-') == "a" by {
      assert "a"[1..] == "";
    }
    assert "aa"[1..] == "a";
    assert Without("aa", ':') == "aa" && Without("aa", '-') == "aa";
  }

  lemma RacingRequests()
    ensures Prepare(OneCoin(), Request("", "aa", "", "")) == Done(Reject(NoCredential))
    ensures Prepare(OneCoin(), Request("cashuAabcd", "aa", "", "")) ==
            Checking(Credential("cashuAabcd", Username, Cashu), COIN)
  {
    var s := "cashuAabcd";
    assert s[6] == 'a' && s[7] == 'b' && s[8] == 'c' && s[9] == 'd';
    assert IsValidCashuToken(s);
  }

  lemma CoinRedeemable()
    ensures Redeemable("cashuAabcd", COIN, {})
  {
    assert Secrets(COIN) == {"secret"} by {
      assert COIN.proofs[0] in COIN.proofs;
    }
  }

  /** The race is real: this client is let in after a cleanup and turned away without one. */
  lemma RaceExists()
    ensures RaceSetup(OneCoin(), RacingWorld(), 0, 1, Credential("cashuAabcd", Username, Cashu), COIN)
  {
    RacingPaths();
    RacingRequests();
    CoinRedeemable();
    var jobs := RacingWorld().jobs;
    assert jobs.Keys == {0, 1} && |jobs| == |jobs.Keys| == 2;
  }
}
