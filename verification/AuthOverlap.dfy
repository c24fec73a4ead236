/** Overlapping requests of one session: the only way to pay while the session is active. */
module AuthOverlap {
  import opened Common
  import opened Sessions
  import opened AuthProtocol
  import opened AuthSequential
  import AuthConservation

  /** The state after the first k actions of a run. */
  function StateAt(deps: Deps, w0: World, actions: seq<Action>, k: nat): (w: Option<World>)
    requires k <= |actions|
  {
    Run(deps, w0, actions[..k])
  }

  /** At action i, request r makes its first lookup and does not find a live session. */
  ghost predicate LooksUpAt(deps: Deps, w0: World, actions: seq<Action>, i: nat, r: nat) {
    && i < |actions| && actions[i].Step? && actions[i].r == r
    && var w := StateAt(deps, w0, actions, i);
    && w.Some? && r in w.value.jobs && w.value.jobs[r].phase.LookingUp?
    && Live(w.value.files, PathOf(deps, w.value.jobs[r].req), w.value.now).None?
  }

  /** At action j, request q saves its paid record at path p. */
  ghost predicate SavesAt(deps: Deps, w0: World, actions: seq<Action>, j: nat, q: nat, p: string) {
    && j < |actions| && actions[j].Step? && actions[j].r == q && actions[j].answer.saved == Written
    && var w := StateAt(deps, w0, actions, j);
    && w.Some? && q in w.value.jobs && w.value.jobs[q].phase.Saving? && PathOf(deps, w.value.jobs[q].req) == p
  }

  /** Another request of path p saved after request r had looked. */
  ghost predicate Overtaken(deps: Deps, w0: World, actions: seq<Action>, r: nat, p: string) {
    exists i: nat, j: nat, q: nat ::
      LooksUpAt(deps, w0, actions, i, r) && SavesAt(deps, w0, actions, j, q, p) && i < j && q != r
  }

  ghost predicate HasLooked(deps: Deps, w0: World, actions: seq<Action>, r: nat) {
    exists i: nat :: LooksUpAt(deps, w0, actions, i, r)
  }

  lemma LastState(deps: Deps, w0: World, actions: seq<Action>)
    requires actions != [] && Run(deps, w0, actions).Some?
    ensures
      var w := Run(deps, w0, actions[..|actions| - 1]);
      && w.Some? && Enabled(w.value, actions[|actions| - 1])
      && Run(deps, w0, actions).value == Apply(deps, w.value, actions[|actions| - 1])
  {
    var front, last := actions[..|actions| - 1], actions[|actions| - 1];
    assert actions == front + [last];
    RunConcat(deps, w0, front, [last]);
    RunOne(deps, Run(deps, w0, front).value, last);
  }

  lemma {:induction false} RunNumbered(deps: Deps, w0: World, actions: seq<Action>)
    requires Initial(w0) && Run(deps, w0, actions).Some?
    ensures Numbered(Run(deps, w0, actions).value)
    decreases |actions|
  {
    if actions != [] {
      var n := |actions| - 1;
      LastState(deps, w0, actions);
      RunNumbered(deps, w0, actions[..n]);
      var w := Run(deps, w0, actions[..n]).value;
      match actions[n]
      case Arrive(req) => AuthConservation.ArriveNumbered(w, Job(req, Start(deps, req)));
      case Step(_, _) => AuthConservation.SameNumbering(w, Apply(deps, w, actions[n]));
      case Cleanup =>
      case Tick(_) =>
    }
  }

  /** What happened in a run's beginning happened in the run. */
  lemma Earlier(deps: Deps, w0: World, actions: seq<Action>, k: nat, r: nat, p: string)
    requires k <= |actions|
    ensures forall i: nat :: LooksUpAt(deps, w0, actions[..k], i, r) ==> LooksUpAt(deps, w0, actions, i, r)
    ensures forall j: nat, q: nat :: SavesAt(deps, w0, actions[..k], j, q, p) ==> SavesAt(deps, w0, actions, j, q, p)
    ensures HasLooked(deps, w0, actions[..k], r) ==> HasLooked(deps, w0, actions, r)
    ensures Overtaken(deps, w0, actions[..k], r, p) ==> Overtaken(deps, w0, actions, r, p)
  {
    forall i: nat | LooksUpAt(deps, w0, actions[..k], i, r) ensures LooksUpAt(deps, w0, actions, i, r) {
      assert actions[..k][..i] == actions[..i];
    }
    forall j: nat, q: nat | SavesAt(deps, w0, actions[..k], j, q, p) ensures SavesAt(deps, w0, actions, j, q, p) {
      assert actions[..k][..j] == actions[..j];
    }
  }

  /** The phases of local mode. */
  ghost predicate Local(w: World) {
    && Numbered(w)
    && forall r :: r in w.jobs ==> LocalPhase(w.jobs[r].phase)
  }

  lemma ApplyKeepsLocal(deps: Deps, w: World, a: Action)
    requires !deps.delegated && Local(w) && Enabled(w, a)
    ensures Local(Apply(deps, w, a))
  {
    match a
    case Arrive(req) => AuthConservation.ArriveNumbered(w, Job(req, Start(deps, req)));
    case Step(r, ans) =>
      AuthConservation.SameNumbering(w, Apply(deps, w, a));
      StepStaysLocal(deps, w.jobs[r].req, w.jobs[r].phase, w.files, w.spent, w.now, ans);
    case Cleanup =>
    case Tick(_) =>
  }

  predicate LocalPhase(p: Phase) {
    !p.Finding? && !p.Bootstrapping?
  }

  lemma StepStaysLocal(deps: Deps, req: Request, phase: Phase, files: Files, spent: set<string>, now: int, a: Answer)
    requires !deps.delegated && LocalPhase(phase)
    ensures LocalPhase(StepEffect(deps, req, phase, files, spent, now, a).phase)
  {
  }

  lemma {:induction false} RunKeepsLocal(deps: Deps, w: World, actions: seq<Action>)
    requires !deps.delegated && Local(w) && Run(deps, w, actions).Some?
    ensures Local(Run(deps, w, actions).value)
    decreases |actions|
  {
    if actions != [] {
      ApplyKeepsLocal(deps, w, actions[0]);
      RunKeepsLocal(deps, Apply(deps, w, actions[0]), actions[1..]);
    }
  }

  /** A local-mode request gets past its lookup only by finding nothing. */
  lemma Enters(deps: Deps, req: Request, phase: Phase, files: Files, spent: set<string>, now: int, a: Answer)
    requires !deps.delegated && !PastLookup(phase)
    requires PastLookup(StepEffect(deps, req, phase, files, spent, now, a).phase)
    ensures phase.LookingUp? && Live(files, PathOf(deps, req), now).None?
    ensures Live(StepEffect(deps, req, phase, files, spent, now, a).files, PathOf(deps, req), now).None?
  {
  }

  /** A live record appears at a path only by a completed save there. */
  lemma Appears(deps: Deps, req: Request, phase: Phase, files: Files, spent: set<string>, now: int, a: Answer,
                p: string)
    requires Live(files, p, now).None?
    requires Live(StepEffect(deps, req, phase, files, spent, now, a).files, p, now).Some?
    ensures phase.Saving? && PathOf(deps, req) == p && a.saved == Written
  {
  }

  /** Past its lookup, request r has looked; and if its session is live, it has been overtaken. */
  ghost predicate Explained(deps: Deps, w0: World, actions: seq<Action>, w: World, r: nat) {
    r in w.jobs && PastLookup(w.jobs[r].phase) ==>
      var p := PathOf(deps, w.jobs[r].req);
      && HasLooked(deps, w0, actions, r)
      && (Live(w.files, p, w.now).Some? ==> Overtaken(deps, w0, actions, r, p))
  }

  /** Whatever leaves the request alone and revives nothing at its path leaves the explanation standing. */
  lemma StillExplained(deps: Deps, w0: World, actions: seq<Action>, n: nat, w: World, v: World, r: nat)
    requires n <= |actions| && Explained(deps, w0, actions[..n], w, r)
    requires r in w.jobs && r in v.jobs && v.jobs[r].req == w.jobs[r].req
    requires PastLookup(v.jobs[r].phase) ==> PastLookup(w.jobs[r].phase)
    requires
      var p := PathOf(deps, w.jobs[r].req);
      PastLookup(v.jobs[r].phase) && Live(v.files, p, v.now).Some? ==> Live(w.files, p, w.now).Some?
    ensures Explained(deps, w0, actions, v, r)
  {
    Earlier(deps, w0, actions, n, r, PathOf(deps, w.jobs[r].req));
  }

  /** Another request's save at the path is what explains a session that has come alive. */
  lemma SaveExplains(deps: Deps, w0: World, actions: seq<Action>, n: nat, w: World, q: nat, r: nat)
    requires n < |actions| && Run(deps, w0, actions[..n]) == Some(w) && actions[n].Step? && actions[n].r == q && q != r
    requires r in w.jobs && PastLookup(w.jobs[r].phase) && Explained(deps, w0, actions[..n], w, r)
    requires q in w.jobs && w.jobs[q].phase.Saving? && actions[n].answer.saved == Written
    requires PathOf(deps, w.jobs[q].req) == PathOf(deps, w.jobs[r].req)
    ensures HasLooked(deps, w0, actions, r) && Overtaken(deps, w0, actions, r, PathOf(deps, w.jobs[r].req))
  {
    var p := PathOf(deps, w.jobs[r].req);
    Earlier(deps, w0, actions, n, r, p);
    var i: nat :| LooksUpAt(deps, w0, actions[..n], i, r);
    assert SavesAt(deps, w0, actions, n, q, p);
    assert LooksUpAt(deps, w0, actions, i, r) && i < n;
  }

  lemma OwnStepExplained(deps: Deps, w0: World, actions: seq<Action>, n: nat, w: World, r: nat)
    requires !deps.delegated && n < |actions| && Run(deps, w0, actions[..n]) == Some(w)
    requires actions[n].Step? && actions[n].r == r && r in w.jobs && Explained(deps, w0, actions[..n], w, r)
    ensures Explained(deps, w0, actions, Apply(deps, w, actions[n]), r)
  {
    var req, phase, ans := w.jobs[r].req, w.jobs[r].phase, actions[n].answer;
    var e := EffectOf(deps, w, r, ans);
    OwnStep(deps, req, phase, w.files, w.spent, w.now, ans);
    if PastLookup(e.phase) {
      if PastLookup(phase) {
        StillExplained(deps, w0, actions, n, w, Take(w, r, e), r);
      } else {
        assert LooksUpAt(deps, w0, actions, n, r);
      }
    }
  }

  /** A request that is past its lookup after its step found nothing just now, or was past it and revived nothing. */
  lemma OwnStep(deps: Deps, req: Request, phase: Phase, files: Files, spent: set<string>, now: int, a: Answer)
    requires !deps.delegated
    ensures
      var e, p := StepEffect(deps, req, phase, files, spent, now, a), PathOf(deps, req);
      PastLookup(e.phase) ==>
        if PastLookup(phase) then Live(e.files, p, now).Some? ==> Live(files, p, now).Some?
        else phase.LookingUp? && Live(files, p, now).None? && Live(e.files, p, now).None?
  {
    var e, p := StepEffect(deps, req, phase, files, spent, now, a), PathOf(deps, req);
    if PastLookup(e.phase) {
      if !PastLookup(phase) {
        Enters(deps, req, phase, files, spent, now, a);
      } else if Live(e.files, p, now).Some? && Live(files, p, now).None? {
        Appears(deps, req, phase, files, spent, now, a, p);
      }
    }
  }

  lemma OtherStepExplained(deps: Deps, w0: World, actions: seq<Action>, n: nat, w: World, q: nat, r: nat)
    requires n < |actions| && Run(deps, w0, actions[..n]) == Some(w) && q != r
    requires actions[n].Step? && actions[n].r == q && q in w.jobs && r in w.jobs
    requires Explained(deps, w0, actions[..n], w, r)
    ensures Explained(deps, w0, actions, Apply(deps, w, actions[n]), r)
  {
    var ans, p := actions[n].answer, PathOf(deps, w.jobs[r].req);
    var e := EffectOf(deps, w, q, ans);
    if PastLookup(w.jobs[r].phase) && Live(e.files, p, w.now).Some? && Live(w.files, p, w.now).None? {
      Appears(deps, w.jobs[q].req, w.jobs[q].phase, w.files, w.spent, w.now, ans, p);
      SaveExplains(deps, w0, actions, n, w, q, r);
    } else {
      StillExplained(deps, w0, actions, n, w, Apply(deps, w, actions[n]), r);
    }
  }

  lemma {:induction false} AlwaysExplained(deps: Deps, w0: World, actions: seq<Action>, r: nat)
    requires !deps.delegated && Initial(w0) && Run(deps, w0, actions).Some?
    ensures Explained(deps, w0, actions, Run(deps, w0, actions).value, r)
    decreases |actions|
  {
    if actions != [] {
      var n := |actions| - 1;
      LastState(deps, w0, actions);
      AlwaysExplained(deps, w0, actions[..n], r);
      var w := Run(deps, w0, actions[..n]).value;
      if r in w.jobs {
        match actions[n]
        case Step(q, _) =>
          if q == r {
            OwnStepExplained(deps, w0, actions, n, w, r);
          } else {
            OtherStepExplained(deps, w0, actions, n, w, q, r);
          }
        case Arrive(_) =>
          RunKeepsLocal(deps, w0, actions[..n]);
          StillExplained(deps, w0, actions, n, w, Apply(deps, w, actions[n]), r);
        case Cleanup => StillExplained(deps, w0, actions, n, w, Apply(deps, w, actions[n]), r);
        case Tick(_) => StillExplained(deps, w0, actions, n, w, Apply(deps, w, actions[n]), r);
      }
    }
  }

  /**
   * In any interleaving of local-mode requests: a token redeemed while the payer's session is already active was
   * overtaken, that is, another request of the same session saved its paid record after this one had looked.
   */
  lemma PayingTwiceIsOverlap(deps: Deps, w0: World, actions: seq<Action>, r: nat, a: Answer)
    requires !deps.delegated && Initial(w0) && Run(deps, w0, actions).Some?
    requires
      var w := Run(deps, w0, actions).value;
      && r in w.jobs && EffectOf(deps, w, r, a).redeemed.Some?
      && Live(w.files, PathOf(deps, w.jobs[r].req), w.now).Some?
    ensures Overtaken(deps, w0, actions, r, PathOf(deps, Run(deps, w0, actions).value.jobs[r].req))
  {
    AlwaysExplained(deps, w0, actions, r);
  }
}
