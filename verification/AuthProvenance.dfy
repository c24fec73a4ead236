/** Where session records, paid answers and ledger entries come from: each traced to the very step that made it. */
module AuthProvenance {
  import opened Common
  import opened Payment
  import opened Sessions
  import opened AuthProtocol
  import AuthOverlap
  import AuthSequential
  import Ledger
  import Token = CashuToken

  // ----- The credential a request pays with -----

  /** The token that the request's own fields decode to: positive, and in local mode from an allowed mint. */
  ghost predicate PaysWith(deps: Deps, req: Request, cred: Credential, token: Token.TokenData) {
    && ExtractPayment(req.username, req.password, req.cleartext) == Some(cred) && cred.kind == Cashu
    && deps.decode(cred.value) == Some(token) && token.amount > 0
    && (!deps.delegated ==> deps.testMint(token.mint))
  }

  ghost predicate PhasePays(deps: Deps, req: Request, phase: Phase) {
    match phase
    case Checking(cred, token) => !deps.delegated && PaysWith(deps, req, cred, token)
    case Redeeming(cred, token) => !deps.delegated && PaysWith(deps, req, cred, token)
    case SpentLookup(cred, token) => !deps.delegated && PaysWith(deps, req, cred, token)
    case Finding(cred, token) => deps.delegated && PaysWith(deps, req, cred, token)
    case Bootstrapping(cred, token) => deps.delegated && PaysWith(deps, req, cred, token)
    case _ => true
  }

  lemma StepPays(deps: Deps, req: Request, phase: Phase, files: Files, spent: set<string>, now: int, a: Answer)
    requires PhasePays(deps, req, phase)
    ensures PhasePays(deps, req, StepEffect(deps, req, phase, files, spent, now, a).phase)
  {
  }

  lemma StartPays(deps: Deps, req: Request)
    ensures PhasePays(deps, req, Start(deps, req))
  {
  }

  // ----- A record's birth -----

  /** What every new record says: whose it is, which token, from when; whatever it grants. */
  ghost predicate Describes(deps: Deps, req: Request, cred: Credential, token: Token.TokenData, a: Answer, now: int,
                            rec: Record) {
    && rec.started == now
    && rec.mac == (if req.mac == "" then "user:" + req.username else req.mac)
    && rec.token == deps.hash(cred.value)
    && rec.guest == (if deps.delegated then "radius-delegated-" else "radius-") +
                    (if |rec.token| < 16 then rec.token else rec.token[..16])
    && rec.mint == token.mint && rec.unit == token.unit
    && rec.source == cred.source && rec.payType == Cashu && rec.classAttr == a.classAttr
  }

  /** Ten seconds a sat, as far as 64 bits go. */
  predicate GrantsSats(token: Token.TokenData, rec: Record) {
    && rec.amount == token.amount
    && (token.amount <= 922_337_203_685_477_580 ==> rec.duration == 10 * token.amount)
  }

  /** The server's allotment, in whole seconds, and never none. */
  predicate GrantsAllotment(b: BootResult, rec: Record) {
    && rec.duration > 0 && 1000 * rec.duration <= b.allotmentMs < 1000 * rec.duration + 1000
    && (0 < b.credit < 0x8000_0000_0000_0000 ==> rec.amount == b.credit)
    && (b.credit == 0 ==> 60 * rec.amount <= rec.duration < 60 * rec.amount + 60)
  }

  /** What is answered to the client along with the record. */
  ghost predicate Answers(deps: Deps, rec: Record, result: AuthResult) {
    && result.Accept? && result.timeout == rec.duration && result.credit == rec.amount
    && result.token == rec.token && result.classAttr == rec.classAttr
    && (if deps.delegated then result.reply == Bootstrapped && result.mint == "delegated"
        else result.reply == Paid && result.mint == rec.mint)
  }

  /**
   * The step of a request at path p that pays for a record: in local mode it redeems the request's token after the
   * mint accepted it, in delegated mode the server answers it with an allotment.
   */
  ghost predicate Earns(deps: Deps, w: World, r: nat, a: Answer, p: string, rec: Record)
  {
    && r in w.jobs && PathOf(deps, w.jobs[r].req) == p
    && exists cred: Credential, token: Token.TokenData ::
         && PaysWith(deps, w.jobs[r].req, cred, token)
         && Describes(deps, w.jobs[r].req, cred, token, a, w.now, rec)
         && if deps.delegated then w.jobs[r].phase.Bootstrapping? && a.boot.Some? && GrantsAllotment(a.boot.value, rec)
            else w.jobs[r].phase.Redeeming? && EffectOf(deps, w, r, a).redeemed == Some(token) && GrantsSats(token, rec)
  }

  lemma EarningStep(deps: Deps, w: World, r: nat, a: Answer)
    requires r in w.jobs && PhasePays(deps, w.jobs[r].req, w.jobs[r].phase)
    requires !w.jobs[r].phase.Saving? && EffectOf(deps, w, r, a).phase.Saving?
    ensures
      var saving := EffectOf(deps, w, r, a).phase;
      && Earns(deps, w, r, a, PathOf(deps, w.jobs[r].req), saving.rec) && Answers(deps, saving.rec, saving.result)
  {
    var req, phase := w.jobs[r].req, w.jobs[r].phase;
    var saving := EffectOf(deps, w, r, a).phase;
    if phase.Redeeming? {
      SatsGranted(phase.token.amount);
      assert PaysWith(deps, req, phase.cred, phase.token);
      assert Describes(deps, req, phase.cred, phase.token, a, w.now, saving.rec);
    } else {
      assert PaysWith(deps, req, phase.cred, phase.token);
      assert Describes(deps, req, phase.cred, phase.token, a, w.now, saving.rec);
      AllotmentGranted(a.boot.value);
    }
  }

  lemma SatsGranted(amount: int)
    ensures 0 < amount <= 922_337_203_685_477_580 ==> Seconds(amount) == 10 * amount
  {
  }

  lemma AllotmentGranted(b: BootResult)
    ensures
      var s := BootSeconds(b);
      && 1000 * s <= b.allotmentMs < 1000 * s + 1000
      && (0 < b.credit < 0x8000_0000_0000_0000 ==> BootAmount(b) == b.credit)
      && (b.credit == 0 ==> 60 * BootAmount(b) <= s < 60 * BootAmount(b) + 60)
  {
  }

  // ----- Over a run -----

  ghost predicate EarnedAt(deps: Deps, w0: World, actions: seq<Action>, k: nat, p: string, rec: Record) {
    && k < |actions| && actions[k].Step?
    && var w := Run(deps, w0, actions[..k]);
    w.Some? && Earns(deps, w.value, actions[k].r, actions[k].answer, p, rec)
  }

  ghost predicate Earned(deps: Deps, w0: World, actions: seq<Action>, p: string, rec: Record) {
    exists k: nat :: EarnedAt(deps, w0, actions, k, p, rec)
  }

  lemma EarnedLater(deps: Deps, w0: World, xs: seq<Action>, x: Action, p: string, rec: Record)
    requires Earned(deps, w0, xs, p, rec)
    ensures Earned(deps, w0, xs + [x], p, rec)
  {
    var k: nat :| EarnedAt(deps, w0, xs, k, p, rec);
    assert (xs + [x])[..k] == xs[..k];
    assert EarnedAt(deps, w0, xs + [x], k, p, rec);
  }

  predicate Fresh(result: AuthResult) {
    result.Accept? && result.reply != Resumed
  }

  ghost predicate JobTraced(deps: Deps, w0: World, actions: seq<Action>, req: Request, phase: Phase) {
    && PhasePays(deps, req, phase)
    && (phase.Saving? ==>
          Earned(deps, w0, actions, PathOf(deps, req), phase.rec) && Answers(deps, phase.rec, phase.result))
    && (Finished(phase) && Fresh(phase.result) ==> AnswerEarned(deps, w0, actions, PathOf(deps, req), phase.result))
  }

  /** A fresh grant goes with a record that was earned. */
  ghost predicate AnswerEarned(deps: Deps, w0: World, actions: seq<Action>, p: string, result: AuthResult) {
    exists rec: Record :: Earned(deps, w0, actions, p, rec) && Answers(deps, rec, result)
  }

  /** Every readable file was there at the start or was earned; every fresh grant was earned. */
  ghost predicate Traced(deps: Deps, w0: World, actions: seq<Action>, w: World) {
    && (forall p :: p in w.files && w.files[p].Json? ==> FileTraced(deps, w0, actions, p, w.files[p]))
    && (forall r :: r in w.jobs ==> JobTraced(deps, w0, actions, w.jobs[r].req, w.jobs[r].phase))
  }

  ghost predicate FileTraced(deps: Deps, w0: World, actions: seq<Action>, p: string, f: File)
    requires f.Json?
  {
    (p in w0.files && w0.files[p] == f) || Earned(deps, w0, actions, p, f.rec)
  }

  lemma TracedLater(deps: Deps, w0: World, xs: seq<Action>, x: Action, w: World)
    requires Traced(deps, w0, xs, w)
    ensures Traced(deps, w0, xs + [x], w)
  {
    forall p, rec | Earned(deps, w0, xs, p, rec) ensures Earned(deps, w0, xs + [x], p, rec) {
      EarnedLater(deps, w0, xs, x, p, rec);
    }
    forall r | r in w.jobs ensures JobTraced(deps, w0, xs + [x], w.jobs[r].req, w.jobs[r].phase) {
      JobTracedLater(deps, w0, xs, x, w.jobs[r].req, w.jobs[r].phase);
    }
  }

  lemma JobTracedLater(deps: Deps, w0: World, xs: seq<Action>, x: Action, req: Request, phase: Phase)
    requires JobTraced(deps, w0, xs, req, phase)
    ensures JobTraced(deps, w0, xs + [x], req, phase)
  {
    if phase.Saving? {
      EarnedLater(deps, w0, xs, x, PathOf(deps, req), phase.rec);
    }
    if Finished(phase) && Fresh(phase.result) {
      var rec :| Earned(deps, w0, xs, PathOf(deps, req), rec) && Answers(deps, rec, phase.result);
      EarnedLater(deps, w0, xs, x, PathOf(deps, req), rec);
    }
  }

  /** What a step may do to files and to its own phase, as far as fresh grants are concerned. */
  lemma StepGrants(deps: Deps, req: Request, phase: Phase, files: Files, spent: set<string>, now: int, a: Answer)
    ensures
      var e := StepEffect(deps, req, phase, files, spent, now, a);
      && (forall p :: p in e.files && e.files[p].Json? ==>
            (p in files && e.files[p] == files[p])
            || (phase.Saving? && p == PathOf(deps, req) && e.files[p] == Json(phase.rec)))
      && (Finished(e.phase) && Fresh(e.phase.result) ==>
            (phase.Saving? && e.phase.result == phase.result) || (Finished(phase) && e.phase.result == phase.result))
      && (e.phase.Saving? ==> !phase.Saving?)
  {
  }

  lemma StepTraced(deps: Deps, w0: World, xs: seq<Action>, w: World, r: nat, a: Answer)
    requires Run(deps, w0, xs) == Some(w) && r in w.jobs && Traced(deps, w0, xs + [Step(r, a)], w)
    ensures Traced(deps, w0, xs + [Step(r, a)], Advance(deps, w, r, a))
  {
    var ys, req, phase := xs + [Step(r, a)], w.jobs[r].req, w.jobs[r].phase;
    var e, v := EffectOf(deps, w, r, a), Advance(deps, w, r, a);
    assert JobTraced(deps, w0, ys, req, phase);
    StepPays(deps, req, phase, w.files, w.spent, w.now, a);
    StepGrants(deps, req, phase, w.files, w.spent, w.now, a);
    OwnJobTraced(deps, w0, xs, w, r, a);
    forall q | q in v.jobs ensures JobTraced(deps, w0, ys, v.jobs[q].req, v.jobs[q].phase) {
      if q != r {
        assert v.jobs[q] == w.jobs[q];
      }
    }
    forall p | p in v.files && v.files[p].Json? ensures FileTraced(deps, w0, ys, p, v.files[p]) {
      if p in w.files && v.files[p] == w.files[p] {
        assert FileTraced(deps, w0, ys, p, w.files[p]);
      }
    }
  }

  lemma OwnJobTraced(deps: Deps, w0: World, xs: seq<Action>, w: World, r: nat, a: Answer)
    requires Run(deps, w0, xs) == Some(w) && r in w.jobs
    requires JobTraced(deps, w0, xs + [Step(r, a)], w.jobs[r].req, w.jobs[r].phase)
    ensures JobTraced(deps, w0, xs + [Step(r, a)], w.jobs[r].req, EffectOf(deps, w, r, a).phase)
  {
    var ys, req, phase := xs + [Step(r, a)], w.jobs[r].req, w.jobs[r].phase;
    var next := EffectOf(deps, w, r, a).phase;
    StepPays(deps, req, phase, w.files, w.spent, w.now, a);
    StepGrants(deps, req, phase, w.files, w.spent, w.now, a);
    if next.Saving? {
      EarningStep(deps, w, r, a);
      assert ys[..|xs|] == xs;
      assert EarnedAt(deps, w0, ys, |xs|, PathOf(deps, req), next.rec);
    } else if Finished(next) && Fresh(next.result) && phase.Saving? {
      assert Earned(deps, w0, ys, PathOf(deps, req), phase.rec);
    }
  }

  lemma ApplyTraced(deps: Deps, w0: World, xs: seq<Action>, x: Action, w: World)
    requires Run(deps, w0, xs) == Some(w) && Enabled(w, x) && Numbered(w) && Traced(deps, w0, xs, w)
    ensures Traced(deps, w0, xs + [x], Apply(deps, w, x))
  {
    TracedLater(deps, w0, xs, x, w);
    match x
    case Step(r, a) => StepTraced(deps, w0, xs, w, r, a);
    case Arrive(req) => ArriveTraced(deps, w0, xs + [x], w, req);
    case Cleanup =>
    case Tick(_) =>
  }

  lemma ArriveTraced(deps: Deps, w0: World, ys: seq<Action>, w: World, req: Request)
    requires Traced(deps, w0, ys, w)
    ensures Traced(deps, w0, ys, Apply(deps, w, Arrive(req)))
  {
    var v := Apply(deps, w, Arrive(req));
    StartPays(deps, req);
    forall q | q in v.jobs ensures JobTraced(deps, w0, ys, v.jobs[q].req, v.jobs[q].phase) {
      if q != |w.jobs| {
        assert v.jobs[q] == w.jobs[q];
      }
    }
  }

  lemma {:induction false} RunTraced(deps: Deps, w0: World, actions: seq<Action>)
    requires Initial(w0) && Run(deps, w0, actions).Some?
    ensures Traced(deps, w0, actions, Run(deps, w0, actions).value)
    decreases |actions|
  {
    if actions != [] {
      var xs, x := actions[..|actions| - 1], actions[|actions| - 1];
      assert actions == xs + [x];
      AuthOverlap.LastState(deps, w0, actions);
      RunTraced(deps, w0, xs);
      AuthOverlap.RunNumbered(deps, w0, xs);
      ApplyTraced(deps, w0, xs, x, Run(deps, w0, xs).value);
    }
  }

  /**
   * Over every run from an empty directory, in either mode: each readable session record was earned by a request of
   * its own path, and starts at the clock of that very step; each new grant answered was earned the same way.
   */
  lemma EveryGrantIsEarned(deps: Deps, w0: World, actions: seq<Action>)
    requires Initial(w0) && w0.files == map[] && Run(deps, w0, actions).Some?
    ensures
      var w := Run(deps, w0, actions).value;
      && (forall p :: p in w.files && w.files[p].Json? ==> Earned(deps, w0, actions, p, w.files[p].rec))
      && (forall r :: r in w.jobs && Finished(w.jobs[r].phase) && Fresh(w.jobs[r].phase.result) ==>
            AnswerEarned(deps, w0, actions, PathOf(deps, w.jobs[r].req), w.jobs[r].phase.result))
  {
    RunTraced(deps, w0, actions);
    var w := Run(deps, w0, actions).value;
    forall p | p in w.files && w.files[p].Json? ensures Earned(deps, w0, actions, p, w.files[p].rec) {
      assert FileTraced(deps, w0, actions, p, w.files[p]);
    }
    forall r | r in w.jobs && Finished(w.jobs[r].phase) && Fresh(w.jobs[r].phase.result)
      ensures AnswerEarned(deps, w0, actions, PathOf(deps, w.jobs[r].req), w.jobs[r].phase.result)
    {
      assert JobTraced(deps, w0, actions, w.jobs[r].req, w.jobs[r].phase);
    }
  }

  // ----- Resumes, counted from the payment -----

  /** The redemption behind a resume, and the time it grants counted from there. */
  ghost predicate ResumeOf(deps: Deps, w0: World, actions: seq<Action>, k: nat, p: string, now: int,
                           result: AuthResult) {
    && k < |actions| && actions[k].Step?
    && var w := Run(deps, w0, actions[..k]);
    && w.Some? && actions[k].r in w.value.jobs && PathOf(deps, w.value.jobs[actions[k].r].req) == p
    && var paid := EffectOf(deps, w.value, actions[k].r, actions[k].answer).redeemed;
    && paid.Some?
    && result.Accept? && result.credit == paid.value.amount && result.mint == paid.value.mint
    && result.classAttr == actions[k].answer.classAttr && result.timeout >= 1
    && (paid.value.amount <= 922_337_203 ==>
          && now + result.timeout * 1_000_000_000 < w.value.now + (10 * paid.value.amount + 1) * 1_000_000_000
          && now + (result.timeout + 1) * 1_000_000_000 > w.value.now + 10 * paid.value.amount * 1_000_000_000)
  }

  /**
   * In every local interleaving from an empty directory, a resume goes back to a redemption by the same client: it
   * answers that token's amount, mint and class, and grants, to within a second, what is left of ten seconds a sat
   * counted from the clock at that redemption.
   */
  lemma ResumesCountFromPayment(deps: Deps, w0: World, actions: seq<Action>, r: nat, a: Answer)
    requires !deps.delegated && Initial(w0) && w0.files == map[] && Run(deps, w0, actions).Some?
    requires r in Run(deps, w0, actions).value.jobs
    requires
      var w := Run(deps, w0, actions).value;
      var e := EffectOf(deps, w, r, a);
      && !Finished(w.jobs[r].phase) && !w.jobs[r].phase.Saving?
      && e.phase.Done? && AuthSequential.IsResumed(e.phase.result)
    ensures
      var w := Run(deps, w0, actions).value;
      var result := EffectOf(deps, w, r, a).phase.result;
      exists k: nat :: ResumeOf(deps, w0, actions, k, PathOf(deps, w.jobs[r].req), w.now, result)
  {
    var w := Run(deps, w0, actions).value;
    var p, result := PathOf(deps, w.jobs[r].req), EffectOf(deps, w, r, a).phase.result;
    AuthSequential.ResumeStep(deps, w.jobs[r].req, w.jobs[r].phase, w.files, w.spent, w.now, a);
    EveryGrantIsEarned(deps, w0, actions);
    var rec := Live(w.files, p, w.now).value;
    assert Earned(deps, w0, actions, p, rec);
    var k: nat :| EarnedAt(deps, w0, actions, k, p, rec);
    ResumeFrom(deps, w0, actions, k, p, w.now, rec);
  }

  lemma ResumeFrom(deps: Deps, w0: World, actions: seq<Action>, k: nat, p: string, now: int, rec: Record)
    requires !deps.delegated && EarnedAt(deps, w0, actions, k, p, rec) && IsActive(rec, now)
    ensures ResumeOf(deps, w0, actions, k, p, now, ResumeResult(rec, now))
  {
    var w := Run(deps, w0, actions[..k]).value;
    var paid := EffectOf(deps, w, actions[k].r, actions[k].answer).redeemed.value;
    assert GrantsSats(paid, rec) && rec.started == w.now && paid.amount > 0;
    if paid.amount <= 922_337_203 {
      assert rec.duration == 10 * paid.amount;
      RemainingSeconds(rec, now);
    }
  }

  /** The whole seconds that are left, and one when there is less. */
  lemma RemainingSeconds(rec: Record, now: int)
    requires 0 <= rec.duration <= 9_223_372_030 && IsActive(rec, now)
    ensures
      var t, end := ResumeResult(rec, now).timeout, rec.started + rec.duration * 1_000_000_000;
      t >= 1 && now + t * 1_000_000_000 < end + 1_000_000_000 && now + (t + 1) * 1_000_000_000 > end
  {
    var left := Deadline(rec) - now;
    assert Deadline(rec) == rec.started + rec.duration * 1_000_000_000;
    assert left / NS * NS <= left < (left / NS + 1) * NS;
  }

  /** In either mode a resume answers from a live record at its own path, and writes nothing. */
  lemma StepResumes(deps: Deps, req: Request, phase: Phase, files: Files, spent: set<string>, now: int, a: Answer)
    requires !Finished(phase) && !phase.Saving?
    requires
      var e := StepEffect(deps, req, phase, files, spent, now, a);
      e.phase.Done? && AuthSequential.IsResumed(e.phase.result)
    ensures
      var e := StepEffect(deps, req, phase, files, spent, now, a);
      var rec := Live(files, PathOf(deps, req), now);
      && rec.Some? && IsActive(rec.value, now) && e.files == files && e.redeemed.None?
      && e.phase.result == ResumeResult(rec.value, now)
  {
  }

  /** What a resume answers of the record it found, and how much time to within a second. */
  ghost predicate AnswersWhatIsLeft(rec: Record, now: int, result: AuthResult) {
    && result.Accept? && result.credit == rec.amount && result.mint == rec.mint
    && result.token == rec.token && result.classAttr == rec.classAttr && result.timeout >= 1
    && (0 <= rec.duration <= 9_223_372_030 ==>
          var end := rec.started + rec.duration * 1_000_000_000;
          && now + result.timeout * 1_000_000_000 < end + 1_000_000_000
          && now + (result.timeout + 1) * 1_000_000_000 > end)
  }

  /** In every run of either mode from an empty directory, a resume answers a record that its own client earned. */
  lemma ResumesAnswerEarned(deps: Deps, w0: World, actions: seq<Action>, r: nat, a: Answer)
    requires Initial(w0) && w0.files == map[] && Run(deps, w0, actions).Some?
    requires r in Run(deps, w0, actions).value.jobs
    requires
      var w := Run(deps, w0, actions).value;
      var e := EffectOf(deps, w, r, a);
      && !Finished(w.jobs[r].phase) && !w.jobs[r].phase.Saving?
      && e.phase.Done? && AuthSequential.IsResumed(e.phase.result)
    ensures
      var w := Run(deps, w0, actions).value;
      var e := EffectOf(deps, w, r, a);
      && e.files == w.files && e.redeemed.None?
      && exists rec: Record ::
           Earned(deps, w0, actions, PathOf(deps, w.jobs[r].req), rec) && AnswersWhatIsLeft(rec, w.now, e.phase.result)
  {
    var w := Run(deps, w0, actions).value;
    StepResumes(deps, w.jobs[r].req, w.jobs[r].phase, w.files, w.spent, w.now, a);
    EveryGrantIsEarned(deps, w0, actions);
    var rec := Live(w.files, PathOf(deps, w.jobs[r].req), w.now).value;
    if 0 <= rec.duration <= 9_223_372_030 {
      RemainingSeconds(rec, w.now);
    }
    assert AnswersWhatIsLeft(rec, w.now, EffectOf(deps, w, r, a).phase.result);
  }

  // ----- The ledger -----

  /** Entry i was written by a step that recorded its request's answer: what was answered, to whom, and when. */
  ghost predicate WrittenBy(deps: Deps, w0: World, actions: seq<Action>, k: nat, i: nat, e: Ledger.Entry) {
    && k < |actions| && actions[k].Step?
    && var w := Run(deps, w0, actions[..k]);
    && w.Some? && actions[k].r in w.value.jobs && |w.value.ledger| == i
    && var job := w.value.jobs[actions[k].r];
    && job.phase.Done?
    && e.time * 1_000_000_000 <= w.value.now < (e.time + 1) * 1_000_000_000
    && e.operatorId == deps.operatorId && e.nasId == deps.nasId && e.mac == job.req.mac
    && match job.phase.result
       case Accept(_, timeout, classAttr, credit, mint, token) =>
         && e.event == Ledger.AuthAccept && e.credit == credit && e.duration == timeout
         && e.mintUrl == mint && e.tokenHash == token && e.classAttr == classAttr
       case Reject(_) =>
         && e.event == Ledger.AuthReject && e.credit == 0 && e.duration == 0
         && e.mintUrl == "" && e.tokenHash == "" && e.classAttr == ""
  }

  ghost predicate EntryKnown(deps: Deps, w0: World, actions: seq<Action>, i: nat, e: Ledger.Entry) {
    exists k: nat :: WrittenBy(deps, w0, actions, k, i, e)
  }

  ghost predicate LedgerKnown(deps: Deps, w0: World, actions: seq<Action>, w: World) {
    forall i :: 0 <= i < |w.ledger| ==> EntryKnown(deps, w0, actions, i, w.ledger[i])
  }

  lemma EntryKnownLater(deps: Deps, w0: World, xs: seq<Action>, x: Action, i: nat, e: Ledger.Entry)
    requires EntryKnown(deps, w0, xs, i, e)
    ensures EntryKnown(deps, w0, xs + [x], i, e)
  {
    var k: nat :| WrittenBy(deps, w0, xs, k, i, e);
    assert (xs + [x])[..k] == xs[..k];
    assert WrittenBy(deps, w0, xs + [x], k, i, e);
  }

  /** A step appends one entry, when it records its answer, or none. */
  lemma StepWrites(deps: Deps, w0: World, xs: seq<Action>, w: World, r: nat, a: Answer)
    requires Run(deps, w0, xs) == Some(w) && r in w.jobs
    ensures
      var v := Advance(deps, w, r, a);
      v.ledger == w.ledger ||
      (|v.ledger| == |w.ledger| + 1 && v.ledger[..|w.ledger|] == w.ledger &&
       EntryKnown(deps, w0, xs + [Step(r, a)], |w.ledger|, v.ledger[|w.ledger|]))
  {
    if w.jobs[r].phase.Done? {
      var e := Advance(deps, w, r, a).ledger[|w.ledger|];
      assert (xs + [Step(r, a)])[..|xs|] == xs;
      ClockSecond(w.now);
      assert WrittenBy(deps, w0, xs + [Step(r, a)], |xs|, |w.ledger|, e);
    }
  }

  lemma ClockSecond(now: int)
    ensures now / NS * 1_000_000_000 <= now < (now / NS + 1) * 1_000_000_000
  {
  }

  lemma {:induction false} RunLedgerKnown(deps: Deps, w0: World, actions: seq<Action>)
    requires w0.ledger == [] && Run(deps, w0, actions).Some?
    ensures LedgerKnown(deps, w0, actions, Run(deps, w0, actions).value)
    decreases |actions|
  {
    if actions != [] {
      var xs, x := actions[..|actions| - 1], actions[|actions| - 1];
      assert actions == xs + [x];
      AuthOverlap.LastState(deps, w0, actions);
      RunLedgerKnown(deps, w0, xs);
      var w, v := Run(deps, w0, xs).value, Run(deps, w0, actions).value;
      if x.Step? {
        StepWrites(deps, w0, xs, w, x.r, x.answer);
      }
      forall i | 0 <= i < |v.ledger| ensures EntryKnown(deps, w0, actions, i, v.ledger[i]) {
        if i < |w.ledger| {
          assert v.ledger[i] == v.ledger[..|w.ledger|][i] == w.ledger[i];
          EntryKnownLater(deps, w0, xs, x, i, w.ledger[i]);
        }
      }
    }
  }

  /** Every ledger entry of every run records a request's own answer, at the second it was given, in order. */
  lemma EntriesRecordAnswers(deps: Deps, w0: World, actions: seq<Action>)
    requires Initial(w0) && Run(deps, w0, actions).Some?
    ensures LedgerKnown(deps, w0, actions, Run(deps, w0, actions).value)
    ensures forall e :: e in Run(deps, w0, actions).value.ledger ==>
              w0.now < (e.time + 1) * 1_000_000_000 && e.time * 1_000_000_000 <= Run(deps, w0, actions).value.now
  {
    RunLedgerKnown(deps, w0, actions);
    var w := Run(deps, w0, actions).value;
    forall e | e in w.ledger ensures w0.now < (e.time + 1) * 1_000_000_000 && e.time * 1_000_000_000 <= w.now {
      var i :| 0 <= i < |w.ledger| && w.ledger[i] == e;
      assert EntryKnown(deps, w0, actions, i, e);
      var k: nat :| WrittenBy(deps, w0, actions, k, i, e);
      AuthSequential.TimeGrows(deps, w0, actions[..k]);
      assert actions == actions[..k] + actions[k..];
      RunConcat(deps, w0, actions[..k], actions[k..]);
      AuthSequential.TimeGrows(deps, Run(deps, w0, actions[..k]).value, actions[k..]);
    }
  }
}
