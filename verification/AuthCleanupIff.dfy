/** When exactly a cleanup is safe: in delegated mode, while no session overlaps itself, or by what it would delete. */
module AuthCleanupIff {
  import opened Common
  import opened Payment
  import opened Sessions
  import opened AuthProtocol
  import opened AuthCleanup
  import AuthSequential
  import Token = CashuToken

  // ----- Delegated mode never removes, so it never races -----

  ghost predicate NeverRemoves(w: World) {
    forall r :: r in w.jobs ==> !RemovingPhase(w.jobs[r].phase)
  }

  lemma ApplyNeverRemoves(deps: Deps, w: World, a: Action)
    requires deps.delegated && NeverRemoves(w) && Enabled(w, a)
    ensures NeverRemoves(Apply(deps, w, a))
  {
    if a.Step? {
      StepNeverRemoves(deps, w.jobs[a.r].req, w.jobs[a.r].phase, w.files, w.spent, w.now, a.answer);
    }
  }

  predicate RemovingPhase(p: Phase) {
    p.LookingUp? || p.LookedUp?
  }

  lemma StepNeverRemoves(deps: Deps, req: Request, phase: Phase, files: Files, spent: set<string>, now: int, a: Answer)
    requires !RemovingPhase(phase)
    ensures !RemovingPhase(StepEffect(deps, req, phase, files, spent, now, a).phase)
  {
  }

  lemma {:induction false} DelegatedRaceFree(deps: Deps, w: World, actions: seq<Action>)
    requires deps.delegated && NeverRemoves(w)
    ensures RaceFree(deps, w, actions)
    decreases |actions|
  {
    if actions != [] && Enabled(w, actions[0]) {
      ApplyNeverRemoves(deps, w, actions[0]);
      DelegatedRaceFree(deps, Apply(deps, w, actions[0]), actions[1..]);
    }
  }

  lemma {:induction false} RunNeverRemoves(deps: Deps, w: World, actions: seq<Action>)
    requires deps.delegated && NeverRemoves(w) && Run(deps, w, actions).Some?
    ensures NeverRemoves(Run(deps, w, actions).value)
    decreases |actions|
  {
    if actions != [] {
      ApplyNeverRemoves(deps, w, actions[0]);
      RunNeverRemoves(deps, Apply(deps, w, actions[0]), actions[1..]);
    }
  }

  /** In delegated mode cleanup is invisible in every interleaving. */
  lemma DelegatedCleanupInvisible(deps: Deps, w0: World, before: seq<Action>, after: seq<Action>)
    requires deps.delegated && Initial(w0) && Run(deps, w0, before + after).Some?
    ensures Run(deps, w0, before + [Cleanup] + after).Some?
    ensures
      var with, without := Run(deps, w0, before + [Cleanup] + after).value, Run(deps, w0, before + after).value;
      && (forall r :: Answered(with, r) == Answered(without, r))
      && with.spent == without.spent && with.receipts == without.receipts && with.ledger == without.ledger
  {
    RunConcat(deps, w0, before, after);
    RunNeverRemoves(deps, w0, before);
    DelegatedRaceFree(deps, Run(deps, w0, before).value, after);
    CleanupInvisible(deps, w0, before, after);
  }

  // ----- Requests of one session that do not overlap never race -----

  lemma {:induction false} SerialRaceFree(deps: Deps, w: World, actions: seq<Action>)
    requires AuthSequential.SerialRun(deps, w, actions)
    ensures RaceFree(deps, w, actions)
    decreases |actions|
  {
    if actions != [] {
      assert AuthSequential.Serial(deps, w);
      assert NoRace(deps, w, actions[0]);
      if Enabled(w, actions[0]) {
        SerialRaceFree(deps, Apply(deps, w, actions[0]), actions[1..]);
      }
    }
  }

  /** While no two requests of the same session overlap, cleanup is invisible in either mode. */
  lemma SequentialCleanupInvisible(deps: Deps, w0: World, before: seq<Action>, after: seq<Action>)
    requires Run(deps, w0, before + after).Some? && Run(deps, w0, before).Some?
    requires AuthSequential.SerialRun(deps, Run(deps, w0, before).value, after)
    ensures Run(deps, w0, before + [Cleanup] + after).Some?
    ensures
      var with, without := Run(deps, w0, before + [Cleanup] + after).value, Run(deps, w0, before + after).value;
      && (forall r :: Answered(with, r) == Answered(without, r))
      && with.spent == without.spent && with.receipts == without.receipts && with.ledger == without.ledger
  {
    SerialRaceFree(deps, Run(deps, w0, before).value, after);
    CleanupInvisible(deps, w0, before, after);
  }

  // ----- Any interleaving: it depends on whether a readable record goes -----

  /** A run answers the same from either world. */
  ghost predicate SameAnswers(deps: Deps, a: World, b: World, after: seq<Action>) {
    Run(deps, b, after).Some? ==>
      && Run(deps, a, after).Some?
      && forall r :: Answered(Run(deps, a, after).value, r) == Answered(Run(deps, b, after).value, r)
  }

  /** A cleanup now would change no answer, whatever happens afterwards. */
  ghost predicate InvisibleNow(deps: Deps, w: World) {
    forall after :: SameAnswers(deps, Apply(deps, w, Cleanup), w, after)
  }

  /** A readable session record that a cleanup now would delete. */
  predicate LongExpired(w: World, p: string) {
    p in w.files && IsSessionFile(p) && w.files[p].Json? && Removable(w.files[p], w.now)
  }

  /** Two worlds whose files differ only in unreadable ones that are gone from `a`. */
  ghost predicate Alike(a: World, b: World) {
    && (forall p :: p in a.files ==> p in b.files && a.files[p] == b.files[p])
    && (forall p :: p in b.files && p !in a.files ==> b.files[p].Corrupt?)
    && a == b.(files := a.files)
  }

  lemma ApplyAlike(deps: Deps, a: World, b: World, act: Action)
    requires Alike(a, b) && Enabled(b, act)
    ensures Enabled(a, act) && Alike(Apply(deps, a, act), Apply(deps, b, act))
  {
    if act.Step? {
      var req, phase := b.jobs[act.r].req, b.jobs[act.r].phase;
      EffectAlike(deps, req, phase, a.files, b.files, b.spent, b.now, act.answer);
    }
  }

  lemma EffectAlike(deps: Deps, req: Request, phase: Phase, a: Files, b: Files, spent: set<string>, now: int,
      ans: Answer)
    requires forall p :: p in a ==> p in b && a[p] == b[p]
    requires forall p :: p in b && p !in a ==> b[p].Corrupt?
    ensures
      var ea, eb := StepEffect(deps, req, phase, a, spent, now, ans), StepEffect(deps, req, phase, b, spent, now, ans);
      && (forall p :: p in ea.files ==> p in eb.files && ea.files[p] == eb.files[p])
      && (forall p :: p in eb.files && p !in ea.files ==> eb.files[p].Corrupt?)
      && ea == eb.(files := ea.files)
  {
    assert Get(a, PathOf(deps, req)) == Get(b, PathOf(deps, req));
  }

  lemma {:induction false} RunAlike(deps: Deps, a: World, b: World, actions: seq<Action>)
    requires Alike(a, b) && Run(deps, b, actions).Some?
    ensures Run(deps, a, actions).Some? && Alike(Run(deps, a, actions).value, Run(deps, b, actions).value)
    decreases |actions|
  {
    if actions != [] {
      ApplyAlike(deps, a, b, actions[0]);
      RunAlike(deps, Apply(deps, a, actions[0]), Apply(deps, b, actions[0]), actions[1..]);
    }
  }

  lemma NothingReadableGoes(deps: Deps, w: World)
    requires forall p :: !LongExpired(w, p)
    ensures InvisibleNow(deps, w)
  {
    var cleaned := Apply(deps, w, Cleanup);
    assert Alike(cleaned, w) by {
      assert forall p :: p in w.files && p !in cleaned.files ==> !LongExpired(w, p);
    }
    forall after ensures SameAnswers(deps, cleaned, w, after) {
      if Run(deps, w, after).Some? {
        RunAlike(deps, cleaned, w, after);
      }
    }
  }

  /** The client at path p may reconnect bare, and may pay with an unspent token. */
  ghost predicate CanReturn(deps: Deps, spent: set<string>, p: string, bare: Request, pay: Request, cred: Credential,
      token: Token.TokenData) {
    && PathOf(deps, bare) == p && PathOf(deps, pay) == p
    && MacPattern(bare.mac) && MacPattern(pay.mac)
    && Prepare(deps, bare) == Done(Reject(NoCredential))
    && Prepare(deps, pay) == Checking(cred, token)
    && Redeemable(cred.value, token, spent) && 0 < token.amount <= 922_337_203
  }

  /** Every client with a session on file can come back. */
  ghost predicate ClientsCanReturn(deps: Deps, w: World) {
    forall p :: LongExpired(w, p) ==>
      exists bare, pay, cred, token :: CanReturn(deps, w.spent, p, bare, pay, cred, token)
  }

  /** The world once a bare and a paying request have arrived. */
  function Joined(w: World, bare: Request, pay: Request): World {
    var n := |w.jobs|;
    w.(jobs := w.jobs[n := Job(bare, LookingUp)][n + 1 := Job(pay, LookingUp)])
  }

  /** The next three request numbers are unused. */
  predicate Room(jobs: map<nat, Job>) {
    |jobs| !in jobs && |jobs| + 1 !in jobs && |jobs| + 2 !in jobs
  }

  lemma JoinedJobs(w: World, bare: Request, pay: Request)
    requires Room(w.jobs)
    ensures
      var n, v := |w.jobs|, Joined(w, bare, pay);
      && |v.jobs| == n + 2 && n + 2 !in v.jobs && n in v.jobs && n + 1 in v.jobs
      && v.jobs[n] == Job(bare, LookingUp) && v.jobs[n + 1] == Job(pay, LookingUp)
  {
    var n := |w.jobs|;
    Grown(w.jobs, n, Job(bare, LookingUp));
    Grown(w.jobs[n := Job(bare, LookingUp)], n + 1, Job(pay, LookingUp));
  }

  lemma TwoArrive(deps: Deps, w: World, bare: Request, pay: Request, rest: seq<Action>)
    requires Room(w.jobs) && !deps.delegated && MacPattern(bare.mac) && MacPattern(pay.mac)
    ensures Run(deps, w, [Arrive(bare), Arrive(pay)] + rest) == Run(deps, Joined(w, bare, pay), rest)
  {
    Grown(w.jobs, |w.jobs|, Job(bare, LookingUp));
    assert Apply(deps, Apply(deps, w, Arrive(bare)), Arrive(pay)) == Joined(w, bare, pay);
    RunTwo(deps, w, Arrive(bare), Arrive(pay));
    RunConcat(deps, w, [Arrive(bare), Arrive(pay)], rest);
  }

  /** Before the race, the two arrivals. */
  function Telling(n: nat, bare: Request, pay: Request): seq<Action> {
    [Arrive(bare), Arrive(pay)] + RaceRun(n, n + 1, bare, n + 2)
  }

  /** Request n ends the run accepted, or ends it rejected. */
  ghost predicate Tells(deps: Deps, w: World, run: seq<Action>, n: nat, accepted: bool) {
    var v := Run(deps, w, run);
    v.Some? && Answered(v.value, n).Some? && Answered(v.value, n).value.Accept? == accepted
  }

  lemma Differ(deps: Deps, a: World, b: World, run: seq<Action>, n: nat)
    requires Tells(deps, a, run, n, true) && Tells(deps, b, run, n, false)
    ensures !SameAnswers(deps, a, b, run)
  {
  }

  lemma RaceTells(deps: Deps, v: World, n: nat, p: string, bare: Request, pay: Request, cred: Credential,
      token: Token.TokenData, stale: bool)
    requires !deps.delegated && CanReturn(deps, v.spent, p, bare, pay, cred, token)
    requires |v.jobs| == n + 2 && n + 2 !in v.jobs && n in v.jobs && n + 1 in v.jobs
    requires v.jobs[n] == Job(bare, LookingUp) && v.jobs[n + 1] == Job(pay, LookingUp)
    requires Live(v.files, p, v.now).None? && stale == Get(v.files, p).Some?
    ensures Tells(deps, v, RaceRun(n, n + 1, bare, n + 2), n + 2, !stale)
  {
    RaceFrom(deps, v, n, n + 1, cred, token, stale);
  }

  lemma TellingRun(deps: Deps, w: World, p: string, bare: Request, pay: Request, cred: Credential,
      token: Token.TokenData, stale: bool)
    requires !deps.delegated && Room(w.jobs) && CanReturn(deps, w.spent, p, bare, pay, cred, token)
    requires Live(w.files, p, w.now).None? && stale == Get(w.files, p).Some?
    ensures Tells(deps, w, Telling(|w.jobs|, bare, pay), |w.jobs| + 2, !stale)
  {
    var n := |w.jobs|;
    JoinedJobs(w, bare, pay);
    TwoArrive(deps, w, bare, pay, RaceRun(n, n + 1, bare, n + 2));
    RaceTells(deps, Joined(w, bare, pay), n, p, bare, pay, cred, token, stale);
  }

  lemma LongExpiredGoes(w: World, p: string)
    requires LongExpired(w, p)
    ensures Live(w.files, p, w.now).None? && Get(w.files, p).Some?
    ensures Live(Cleaned(w.files, w.now), p, w.now).None? && Get(Cleaned(w.files, w.now), p).None?
  {
  }

  /** Two worlds that differ in whether an expired record is still there can be told apart. */
  lemma StaleRecordTells(deps: Deps, a: World, b: World, p: string, bare: Request, pay: Request, cred: Credential,
      token: Token.TokenData)
    requires !deps.delegated && a == b.(files := a.files) && Room(b.jobs)
    requires CanReturn(deps, b.spent, p, bare, pay, cred, token)
    requires Live(a.files, p, a.now).None? && Get(a.files, p).None?
    requires Live(b.files, p, b.now).None? && Get(b.files, p).Some?
    ensures exists run :: !SameAnswers(deps, a, b, run)
  {
    var n := |b.jobs|;
    var run := Telling(n, bare, pay);
    TellingRun(deps, a, p, bare, pay, cred, token, false);
    StaleTells(deps, a, b, p, bare, pay, cred, token, run, n);
  }

  lemma StaleTells(deps: Deps, a: World, b: World, p: string, bare: Request, pay: Request, cred: Credential,
                   token: Token.TokenData, run: seq<Action>, n: nat)
    requires !deps.delegated && n == |b.jobs| && Room(b.jobs) && run == Telling(n, bare, pay)
    requires CanReturn(deps, b.spent, p, bare, pay, cred, token)
    requires Live(b.files, p, b.now).None? && Get(b.files, p).Some?
    requires Tells(deps, a, run, n + 2, true)
    ensures !SameAnswers(deps, a, b, run)
  {
    TellingRun(deps, b, p, bare, pay, cred, token, true);
    Differ(deps, a, b, run, n + 2);
  }

  /**
   * In local mode, with any number of overlapping requests to come, a cleanup is invisible exactly when it would
   * delete no readable record; unreadable files never matter.
   */
  lemma CleanupInvisibleIff(deps: Deps, w: World)
    requires !deps.delegated && Numbered(w) && ClientsCanReturn(deps, w)
    ensures InvisibleNow(deps, w) <==> forall p :: !LongExpired(w, p)
  {
    if p :| LongExpired(w, p) {
      var bare, pay, cred, token :| CanReturn(deps, w.spent, p, bare, pay, cred, token);
      LongExpiredGoes(w, p);
      StaleRecordTells(deps, Apply(deps, w, Cleanup), w, p, bare, pay, cred, token);
    } else {
      NothingReadableGoes(deps, w);
    }
  }
}
