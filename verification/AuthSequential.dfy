/**
 * One request at a time: the step machine is the source's function, resumes stay within paid time, nobody pays
 * twice.
 */
module AuthSequential {
  import opened Common
  import opened Payment
  import opened Sessions
  import opened AuthProtocol
  import Token = CashuToken

  // ----- The pipeline as one function -----

  datatype Outcome = Outcome(files: Files, redeemed: Option<Token.TokenData>, result: AuthResult)

  function Refuse(files: Files, reason: Reason): Outcome {
    Outcome(files, None, Reject(reason))
  }

  function ProcessCashu(deps: Deps, files: Files, spent: set<string>, now: int, req: Request, cred: Credential,
      a: Answer): Outcome {
    var path := PathOf(deps, req);
    var token := deps.decode(cred.value);
    if token.None? then Refuse(files, BadToken)
    else if token.value.amount <= 0 then Refuse(files, ZeroValue)
    else if !deps.testMint(token.value.mint) then Refuse(files, MintNotAllowed)
    else
      match a.state
      case Some(Unspent) =>
        if !(a.redeemOk && Redeemable(cred.value, token.value, spent)) then Refuse(files, RedeemFailed)
        else
          var rec := PaidRecord(deps, req, cred, token.value, a.classAttr, now);
          Outcome(SaveTo(files, path, rec, a.saved), token, PaidResult(deps, cred, token.value, a.classAttr))
      case Some(Spent) =>
        (match Live(files, path, now)
         case Some(rec) => Outcome(files, None, ResumeResult(rec, now))
         case None => Refuse(files, AlreadySpent))
      case Some(Pending) => Refuse(files, TokenPending)
      case None => Refuse(files, UnknownState)
  }

  function ProcessCashuDelegated(deps: Deps, files: Files, now: int, req: Request, cred: Credential,
      a: Answer): Outcome {
    var path := PathOf(deps, req);
    var token := deps.decode(cred.value);
    if token.None? then Refuse(files, BadToken)
    else if token.value.amount <= 0 then Refuse(files, ZeroValue)
    else
      match Live(files, path, now)
      case Some(rec) => Outcome(files, None, ResumeResult(rec, now))
      case None =>
        if a.boot.None? then Refuse(files, BootstrapFailed)
        else if BootSeconds(a.boot.value) <= 0 then Refuse(files, ZeroAllotment)
        else
          var rec := BootRecord(deps, req, cred, token.value, a.boot.value, a.classAttr, now);
          Outcome(SaveTo(files, path, rec, a.saved), None, BootAccept(deps, cred, a.boot.value, a.classAttr))
  }

  function ProcessAuth(deps: Deps, files: Files, spent: set<string>, now: int, req: Request, a: Answer): Outcome {
    var path := PathOf(deps, req);
    if !MacPattern(req.mac) then Refuse(files, BadMac)
    else
      var rec := Get(files, path);
      if !deps.delegated && rec.Some? && IsActive(rec.value, now) then
        Outcome(files, None, ResumeResult(rec.value, now))
      else
        var rest := if !deps.delegated && rec.Some? then files - {path} else files;
        match ExtractPayment(req.username, req.password, req.cleartext)
        case None => Refuse(rest, NoCredential)
        case Some(cred) =>
          if cred.kind == Lnurlw then Refuse(rest, LnurlwDisabled)
          else if deps.delegated then ProcessCashuDelegated(deps, rest, now, req, cred, a)
          else ProcessCashu(deps, rest, spent, now, req, cred, a)
  }

  /** Running one request's steps to the end, with nobody else moving. */
  function Drive(deps: Deps, req: Request, phase: Phase, files: Files, spent: set<string>,
                 redeemed: Option<Token.TokenData>, now: int, a: Answer, steps: nat): Option<Outcome>
    decreases steps
  {
    if phase.Done? then Some(Outcome(files, redeemed, phase.result))
    else if steps == 0 then None
    else
      var e := StepEffect(deps, req, phase, files, spent, now, a);
      Drive(deps, req, e.phase, e.files,
            if e.redeemed.Some? then spent + Secrets(e.redeemed.value) else spent,
            if e.redeemed.Some? then e.redeemed else redeemed, now, a, steps - 1)
  }

  /** More steps change nothing once the request is done. */
  lemma {:induction false} DriveMore(deps: Deps, req: Request, phase: Phase, files: Files, spent: set<string>,
                                     redeemed: Option<Token.TokenData>, now: int, a: Answer, k: nat, more: nat)
    requires Drive(deps, req, phase, files, spent, redeemed, now, a, k).Some?
    ensures Drive(deps, req, phase, files, spent, redeemed, now, a, k + more) ==
            Drive(deps, req, phase, files, spent, redeemed, now, a, k)
    decreases k
  {
    if !phase.Done? {
      var e := StepEffect(deps, req, phase, files, spent, now, a);
      DriveMore(deps, req, e.phase, e.files,
                if e.redeemed.Some? then spent + Secrets(e.redeemed.value) else spent,
                if e.redeemed.Some? then e.redeemed else redeemed, now, a, k - 1, more);
    }
  }

  lemma DriveDone(deps: Deps, req: Request, result: AuthResult, files: Files, spent: set<string>,
                  redeemed: Option<Token.TokenData>, now: int, a: Answer, k: nat)
    ensures Drive(deps, req, Done(result), files, spent, redeemed, now, a, k) == Some(Outcome(files, redeemed, result))
  {
  }

  lemma DriveSaving(deps: Deps, req: Request, rec: Record, result: AuthResult, files: Files, spent: set<string>,
                    redeemed: Option<Token.TokenData>, now: int, a: Answer)
    ensures Drive(deps, req, Saving(rec, result), files, spent, redeemed, now, a, 1) ==
            Some(Outcome(SaveTo(files, PathOf(deps, req), rec, a.saved), redeemed, result))
  {
  }

  lemma DriveChecking(deps: Deps, req: Request, cred: Credential, files: Files, spent: set<string>, now: int, a: Answer)
    requires deps.decode(cred.value).Some? && deps.decode(cred.value).value.amount > 0
    requires deps.testMint(deps.decode(cred.value).value.mint)
    ensures Drive(deps, req, Checking(cred, deps.decode(cred.value).value), files, spent, None, now, a, 3) ==
            Some(ProcessCashu(deps, files, spent, now, req, cred, a))
  {
    var token := deps.decode(cred.value).value;
    if a.state == Some(Token.Unspent) {
      if a.redeemOk && Redeemable(cred.value, token, spent) {
        DriveSaving(deps, req, PaidRecord(deps, req, cred, token, a.classAttr, now),
                    PaidResult(deps, cred, token, a.classAttr),
                    files, spent + Secrets(token), Some(token), now, a);
      } else {
        DriveDone(deps, req, Reject(RedeemFailed), files, spent, None, now, a, 1);
      }
    } else if a.state == Some(Token.Spent) {
      var live := Live(files, PathOf(deps, req), now);
      var result := if live.Some? then ResumeResult(live.value, now) else Reject(AlreadySpent);
      DriveDone(deps, req, result, files, spent, None, now, a, 1);
    } else {
      DriveDone(deps, req, Reject(if a.state.None? then UnknownState else TokenPending), files, spent, None, now, a, 2);
    }
  }

  lemma DriveFinding(deps: Deps, req: Request, cred: Credential, files: Files, spent: set<string>, now: int, a: Answer)
    requires deps.decode(cred.value).Some? && deps.decode(cred.value).value.amount > 0
    ensures Drive(deps, req, Finding(cred, deps.decode(cred.value).value), files, spent, None, now, a, 3) ==
            Some(ProcessCashuDelegated(deps, files, now, req, cred, a))
  {
    var token := deps.decode(cred.value).value;
    var live := Live(files, PathOf(deps, req), now);
    if live.Some? {
      DriveDone(deps, req, ResumeResult(live.value, now), files, spent, None, now, a, 2);
    } else if a.boot.None? || BootSeconds(a.boot.value) <= 0 {
      var result := Reject(if a.boot.None? then BootstrapFailed else ZeroAllotment);
      DriveDone(deps, req, result, files, spent, None, now, a, 1);
    } else {
      DriveSaving(deps, req, BootRecord(deps, req, cred, token, a.boot.value, a.classAttr, now),
                  BootAccept(deps, cred, a.boot.value, a.classAttr), files, spent, None, now, a);
    }
  }

  /** After the lookup: the local decisions and whatever they lead to. */
  lemma DrivePrepared(deps: Deps, req: Request, files: Files, spent: set<string>, now: int, a: Answer)
    ensures Drive(deps, req, Prepare(deps, req), files, spent, None, now, a, 3) ==
            Some(match ExtractPayment(req.username, req.password, req.cleartext)
                 case None => Refuse(files, NoCredential)
                 case Some(cred) =>
                   if cred.kind == Lnurlw then Refuse(files, LnurlwDisabled)
                   else if deps.delegated then ProcessCashuDelegated(deps, files, now, req, cred, a)
                   else ProcessCashu(deps, files, spent, now, req, cred, a))
  {
    var found := ExtractPayment(req.username, req.password, req.cleartext);
    if found.Some? && found.value.kind == Cashu {
      var cred := found.value;
      var token := deps.decode(cred.value);
      if token.Some? && token.value.amount > 0 {
        if deps.delegated {
          DriveFinding(deps, req, cred, files, spent, now, a);
        } else if deps.testMint(token.value.mint) {
          DriveChecking(deps, req, cred, files, spent, now, a);
        }
      }
    }
  }

  /** A request that nobody disturbs ends, within five steps, with exactly what the pipeline function returns. */
  lemma StepsRefineProcessAuth(deps: Deps, req: Request, files: Files, spent: set<string>, now: int, a: Answer)
    ensures Drive(deps, req, Start(deps, req), files, spent, None, now, a, 5) ==
            Some(ProcessAuth(deps, files, spent, now, req, a))
  {
    if MacPattern(req.mac) {
      var path := PathOf(deps, req);
      var rec := Get(files, path);
      var rest := if !deps.delegated && rec.Some? then files - {path} else files;
      DrivePrepared(deps, req, rest, spent, now, a);
      if deps.delegated {
        DriveMore(deps, req, Prepare(deps, req), files, spent, None, now, a, 3, 2);
      } else if Live(files, path, now).None? {
        assert StepEffect(deps, req, LookingUp, files, spent, now, a) == To(files, LookedUp(rec.Some?));
        assert StepEffect(deps, req, LookedUp(rec.Some?), files, spent, now, a) == To(rest, Prepare(deps, req));
      }
    }
  }

  // ----- Resuming -----

  // ----- When a request is accepted -----

  /** No two proofs have the same secret, and none is spent. */
  predicate UnspentProofs(token: Token.TokenData, spent: set<string>) {
    && AllDifferent(token.proofs)
    && forall i :: 0 <= i < |token.proofs| ==> token.proofs[i].secret !in spent
  }

  function SecretsOf(ps: seq<Token.Proof>): set<string> {
    set p | p in ps :: p.secret
  }

  predicate AllDifferent(ps: seq<Token.Proof>) {
    forall i, j :: 0 <= i < j < |ps| ==> ps[i].secret != ps[j].secret
  }

  lemma SecretsSnoc(front: seq<Token.Proof>, p: Token.Proof)
    ensures SecretsOf(front + [p]) == SecretsOf(front) + {p.secret}
    ensures AllDifferent(front + [p]) <==> AllDifferent(front) && p.secret !in SecretsOf(front)
  {
    var ps := front + [p];
    forall x | x in SecretsOf(ps) ensures x in SecretsOf(front) + {p.secret} {
      var q :| q in ps && q.secret == x;
      assert q in front || q == p;
    }
    forall x | x in SecretsOf(front) + {p.secret} ensures x in SecretsOf(ps) {
      assert p in ps;
      if x != p.secret {
        var q :| q in front && q.secret == x;
        assert q in ps;
      }
    }
    if AllDifferent(ps) {
      forall i, j | 0 <= i < j < |front| ensures front[i].secret != front[j].secret {
        assert ps[i] == front[i] && ps[j] == front[j];
      }
      forall i | 0 <= i < |front| ensures front[i].secret != p.secret {
        assert ps[i] == front[i] && ps[|front|] == p;
      }
    } else if AllDifferent(front) {
      var i, j :| 0 <= i < j < |ps| && ps[i].secret == ps[j].secret;
      assert j == |front| && ps[i] == front[i];
    }
  }

  lemma {:induction false} DistinctIff(ps: seq<Token.Proof>)
    ensures |SecretsOf(ps)| <= |ps|
    ensures |SecretsOf(ps)| == |ps| <==> AllDifferent(ps)
  {
    if ps != [] {
      var front, p := ps[..|ps| - 1], ps[|ps| - 1];
      assert ps == front + [p];
      DistinctIff(front);
      SecretsSnoc(front, p);
      if p.secret in SecretsOf(front) {
        assert SecretsOf(front) + {p.secret} == SecretsOf(front);
      }
    }
  }

  lemma RedeemableIff(value: string, token: Token.TokenData, spent: set<string>)
    ensures Redeemable(value, token, spent) <==> |value| <= 4096 && UnspentProofs(token, spent)
  {
    DistinctIff(token.proofs);
    assert Secrets(token) == SecretsOf(token.proofs);
    if Secrets(token) !! spent {
      forall i | 0 <= i < |token.proofs| ensures token.proofs[i].secret !in spent {
        assert token.proofs[i].secret in Secrets(token);
      }
    }
  }

  /** The token a request carries is worth something and, in local mode, from an allowed mint. */
  ghost predicate Offers(deps: Deps, req: Request, cred: Credential, token: Token.TokenData) {
    && ExtractPayment(req.username, req.password, req.cleartext) == Some(cred) && cred.kind == Cashu
    && deps.decode(cred.value) == Some(token) && token.amount > 0
  }

  /**
   * An undisturbed local request is accepted exactly when its MAC is well-formed and its session is live, or it
   * carries a token from an allowed mint that the mint calls unspent and redeems.
   */
  lemma LocalAcceptIff(deps: Deps, files: Files, spent: set<string>, now: int, req: Request, a: Answer)
    requires !deps.delegated
    ensures ProcessAuth(deps, files, spent, now, req, a).result.Accept? <==>
            && MacPattern(req.mac)
            && (Live(files, PathOf(deps, req), now).Some? ||
                exists cred: Credential, token: Token.TokenData ::
                  && Offers(deps, req, cred, token) && deps.testMint(token.mint) && a.state == Some(Token.Unspent)
                  && a.redeemOk && |cred.value| <= 4096 && UnspentProofs(token, spent))
  {
    var found := ExtractPayment(req.username, req.password, req.cleartext);
    if found.Some? && deps.decode(found.value.value).Some? {
      var token := deps.decode(found.value.value).value;
      RedeemableIff(found.value.value, token, spent);
      assert found.value.kind == Cashu && token.amount > 0 ==> Offers(deps, req, found.value, token);
    }
  }

  /** Why an undisturbed local request is refused: each reason is given in its own case only. */
  lemma LocalReasons(deps: Deps, files: Files, spent: set<string>, now: int, req: Request, a: Answer, why: Reason)
    requires !deps.delegated && ProcessAuth(deps, files, spent, now, req, a).result == Reject(why)
    ensures
      var found := ExtractPayment(req.username, req.password, req.cleartext);
      var token := if found.Some? then deps.decode(found.value.value) else None;
      var allowed := token.Some? && token.value.amount > 0 && deps.testMint(token.value.mint);
      && (why == BadMac <==> !MacPattern(req.mac))
      && (why == NoCredential ==> found.None?)
      && (why == LnurlwDisabled ==> found.Some? && IsValidLNURLw(found.value.value))
      && (why == BadToken ==> found.Some? && token.None?)
      && (why == ZeroValue ==> token.Some? && token.value.amount <= 0)
      && (why == MintNotAllowed ==> token.Some? && token.value.amount > 0 && !deps.testMint(token.value.mint))
      && (why == AlreadySpent ==> allowed && a.state == Some(Token.Spent))
      && (why == TokenPending ==> allowed && a.state == Some(Token.Pending))
      && (why == UnknownState ==> allowed && a.state == None)
      && (why == RedeemFailed ==> allowed && a.state == Some(Token.Unspent))
      && why != BootstrapFailed && why != ZeroAllotment
  {
    ExtractedFromSource(req.username, req.password, req.cleartext);
  }

  /** The same in delegated mode, where neither the mint nor its state is asked. */
  lemma DelegatedReasons(deps: Deps, files: Files, spent: set<string>, now: int, req: Request, a: Answer, why: Reason)
    requires deps.delegated && ProcessAuth(deps, files, spent, now, req, a).result == Reject(why)
    ensures
      var found := ExtractPayment(req.username, req.password, req.cleartext);
      var token := if found.Some? then deps.decode(found.value.value) else None;
      && (why == BadMac <==> !MacPattern(req.mac))
      && (why == NoCredential ==> found.None?)
      && (why == LnurlwDisabled ==> found.Some? && IsValidLNURLw(found.value.value))
      && (why == BadToken ==> found.Some? && token.None?)
      && (why == ZeroValue ==> token.Some? && token.value.amount <= 0)
      && (why == BootstrapFailed ==> token.Some? && token.value.amount > 0 && a.boot.None?)
      && (why == ZeroAllotment ==>
            token.Some? && token.value.amount > 0 && a.boot.Some? && a.boot.value.allotmentMs < 1000)
      && why in {BadMac, NoCredential, LnurlwDisabled, BadToken, ZeroValue, BootstrapFailed, ZeroAllotment}
  {
    ExtractedFromSource(req.username, req.password, req.cleartext);
  }

  /** Undisturbed in delegated mode: accepted exactly with a token and either a live session or an allotment. */
  lemma DelegatedAcceptIff(deps: Deps, files: Files, spent: set<string>, now: int, req: Request, a: Answer)
    requires deps.delegated
    ensures ProcessAuth(deps, files, spent, now, req, a).result.Accept? <==>
            && MacPattern(req.mac) && (exists cred, token :: Offers(deps, req, cred, token))
            && (Live(files, PathOf(deps, req), now).Some? || (a.boot.Some? && a.boot.value.allotmentMs >= 1000))
  {
    var found := ExtractPayment(req.username, req.password, req.cleartext);
    if found.Some? && found.value.kind == Cashu && deps.decode(found.value.value).Some? {
      var token := deps.decode(found.value.value).value;
      assert token.amount > 0 ==> Offers(deps, req, found.value, token);
    }
  }

  predicate IsResumed(r: AuthResult) {
    r.Accept? && r.reply == Resumed
  }

  /** Records written by paid accepts: the duration is what the amount buys. */
  ghost predicate PaidFiles(w: World) {
    && (forall p :: p in w.files && w.files[p].Json? ==> PaidRec(w.files[p].rec))
    && (forall r :: r in w.jobs ==> PhasePaid(w.jobs[r].phase))
  }

  predicate PaidRec(rec: Record) {
    rec.amount > 0 && rec.duration == Seconds(rec.amount)
  }

  predicate PhasePaid(p: Phase) {
    match p
    case Checking(_, token) => token.amount > 0
    case Redeeming(_, token) => token.amount > 0
    case Saving(rec, _) => PaidRec(rec)
    case Finding(_, _) => false
    case Bootstrapping(_, _) => false
    case LookingUp => true
    case LookedUp(_) => true
    case SpentLookup(_, _) => true
    case Done(_) => true
    case Recorded(_) => true
  }

  lemma EffectPaidFiles(deps: Deps, req: Request, phase: Phase, files: Files, spent: set<string>, now: int, a: Answer)
    requires !deps.delegated && PhasePaid(phase)
    requires forall p :: p in files && files[p].Json? ==> PaidRec(files[p].rec)
    ensures
      var e := StepEffect(deps, req, phase, files, spent, now, a);
      PhasePaid(e.phase) && forall p :: p in e.files && e.files[p].Json? ==> PaidRec(e.files[p].rec)
  {
  }

  lemma {:induction false} RunKeepsPaidFiles(deps: Deps, w: World, actions: seq<Action>)
    requires !deps.delegated && PaidFiles(w) && Run(deps, w, actions).Some?
    ensures PaidFiles(Run(deps, w, actions).value)
    decreases |actions|
  {
    if actions != [] {
      var a := actions[0];
      if a.Step? {
        EffectPaidFiles(deps, w.jobs[a.r].req, w.jobs[a.r].phase, w.files, w.spent, w.now, a.answer);
      }
      RunKeepsPaidFiles(deps, Apply(deps, w, a), actions[1..]);
    }
  }

  /** The arithmetic of a resume: at least one second, and less than one second past the deadline. */
  lemma ResumeTimeout(rec: Record, now: int)
    requires IsActive(rec, now)
    ensures
      var t := ResumeResult(rec, now).timeout;
      t >= 1 && now + t * NS < Deadline(rec) + NS && (Deadline(rec) - now >= NS ==> now + t * NS <= Deadline(rec))
  {
    var left := Deadline(rec) - now;
    assert left / NS * NS <= left;
  }

  /**
   * In every interleaving of local-mode requests, the step that resumes a session writes no file, and the time it
   * grants ends less than a second after the deadline originally paid for (for amounts whose nanoseconds fit 64 bits).
   */
  lemma ResumeWithinPaidTime(deps: Deps, w0: World, actions: seq<Action>, r: nat, a: Answer)
    requires !deps.delegated && Initial(w0) && PaidFiles(w0) && Run(deps, w0, actions).Some?
    requires r in Run(deps, w0, actions).value.jobs
    requires
      var w := Run(deps, w0, actions).value;
      var e := EffectOf(deps, w, r, a);
      !Finished(w.jobs[r].phase) && !w.jobs[r].phase.Saving? && e.phase.Done? && IsResumed(e.phase.result)
    ensures
      var w := Run(deps, w0, actions).value;
      var e := EffectOf(deps, w, r, a);
      var rec := Get(w.files, PathOf(deps, w.jobs[r].req));
      && e.files == w.files && e.redeemed.None? && rec.Some?
      && e.phase.result.credit == rec.value.amount
      && (rec.value.amount <= 922_337_203 ==>
            w.now + e.phase.result.timeout * NS < rec.value.started + (rec.value.amount * RATE_SEC_PER_SAT + 1) * NS)
  {
    RunKeepsPaidFiles(deps, w0, actions);
    var w := Run(deps, w0, actions).value;
    ResumeStep(deps, w.jobs[r].req, w.jobs[r].phase, w.files, w.spent, w.now, a);
    var rec := Get(w.files, PathOf(deps, w.jobs[r].req)).value;
    ResumeTimeout(rec, w.now);
    if rec.amount <= 922_337_203 {
      DeadlineExactIff(rec);
    }
  }

  /** Only the three lookups resume, and they resume what they found. */
  lemma ResumeStep(deps: Deps, req: Request, phase: Phase, files: Files, spent: set<string>, now: int, a: Answer)
    requires !deps.delegated && !Finished(phase) && !phase.Saving?
    requires
      var e := StepEffect(deps, req, phase, files, spent, now, a);
      e.phase.Done? && IsResumed(e.phase.result)
    ensures
      var e := StepEffect(deps, req, phase, files, spent, now, a);
      var rec := Live(files, PathOf(deps, req), now);
      rec.Some? && e.files == files && e.redeemed.None? && e.phase.result == ResumeResult(rec.value, now)
  {
  }

  // ----- Nobody pays while a session is active -----

  /** Requests still in flight are on different paths. */
  ghost predicate Serial(deps: Deps, w: World) {
    forall r, q :: r in w.jobs && q in w.jobs && r != q && !Finished(w.jobs[r].phase) && !Finished(w.jobs[q].phase) ==>
      PathOf(deps, w.jobs[r].req) != PathOf(deps, w.jobs[q].req)
  }

  ghost predicate SerialRun(deps: Deps, w: World, actions: seq<Action>)
    decreases |actions|
  {
    Serial(deps, w) &&
    (actions != [] && Enabled(w, actions[0]) ==> SerialRun(deps, Apply(deps, w, actions[0]), actions[1..]))
  }

  /** Between the first lookup and the answer. */
  predicate PastLookup(p: Phase) {
    !Finished(p) && !p.LookingUp?
  }

  /** A local-mode request past its lookup has no live record at its path. */
  ghost predicate NoneLive(deps: Deps, w: World) {
    forall r :: r in w.jobs && PastLookup(w.jobs[r].phase) ==> Live(w.files, PathOf(deps, w.jobs[r].req), w.now).None?
  }

  lemma EffectOnPaths(deps: Deps, req: Request, phase: Phase, files: Files, spent: set<string>, now: int, a: Answer,
      p: string)
    ensures
      var e := StepEffect(deps, req, phase, files, spent, now, a);
      && ((p != PathOf(deps, req) || Finished(phase)) ==> Live(e.files, p, now) == Live(files, p, now))
      && (PastLookup(e.phase) && !deps.delegated &&
          (PastLookup(phase) ==> Live(files, PathOf(deps, req), now).None?) ==>
            Live(e.files, PathOf(deps, req), now).None?)
  {
  }

  lemma StepKeepsNoneLive(deps: Deps, w: World, r: nat, a: Answer)
    requires !deps.delegated && NoneLive(deps, w) && Serial(deps, w) && r in w.jobs
    ensures NoneLive(deps, Advance(deps, w, r, a))
  {
    var v := Advance(deps, w, r, a);
    var req, phase := w.jobs[r].req, w.jobs[r].phase;
    forall q | q in v.jobs && PastLookup(v.jobs[q].phase)
      ensures Live(v.files, PathOf(deps, v.jobs[q].req), v.now).None?
    {
      EffectOnPaths(deps, req, phase, w.files, w.spent, w.now, a, PathOf(deps, v.jobs[q].req));
      assert q != r ==> v.jobs[q] == w.jobs[q];
    }
  }

  lemma ApplyKeepsNoneLive(deps: Deps, w: World, a: Action)
    requires !deps.delegated && NoneLive(deps, w) && Serial(deps, w) && Enabled(w, a)
    ensures NoneLive(deps, Apply(deps, w, a))
  {
    if a.Step? {
      StepKeepsNoneLive(deps, w, a.r, a.answer);
    }
  }

  lemma {:induction false} RunKeepsNoneLive(deps: Deps, w: World, actions: seq<Action>)
    requires !deps.delegated && NoneLive(deps, w) && SerialRun(deps, w, actions) && Run(deps, w, actions).Some?
    ensures NoneLive(deps, Run(deps, w, actions).value)
    decreases |actions|
  {
    if actions != [] {
      ApplyKeepsNoneLive(deps, w, actions[0]);
      RunKeepsNoneLive(deps, Apply(deps, w, actions[0]), actions[1..]);
    }
  }

  /** While requests for one session do not overlap, no token is redeemed as long as that session is active. */
  lemma NoPaymentWhileActive(deps: Deps, w0: World, actions: seq<Action>, r: nat, a: Answer)
    requires !deps.delegated && Initial(w0) && SerialRun(deps, w0, actions) && Run(deps, w0, actions).Some?
    requires
      var w := Run(deps, w0, actions).value;
      r in w.jobs && EffectOf(deps, w, r, a).redeemed.Some?
    ensures
      var w := Run(deps, w0, actions).value;
      Live(w.files, PathOf(deps, w.jobs[r].req), w.now).None?
  {
    RunKeepsNoneLive(deps, w0, actions);
  }

  // ----- Paid time is not lost -----

  /** A step leaves a live record alone unless its own request is past its lookup at that path. */
  lemma EffectKeepsLive(deps: Deps, req: Request, phase: Phase, files: Files, spent: set<string>, now: int, a: Answer,
                        p: string)
    requires Live(files, p, now).Some?
    requires PastLookup(phase) ==> PathOf(deps, req) != p
    ensures Live(StepEffect(deps, req, phase, files, spent, now, a).files, p, now) == Live(files, p, now)
  {
  }

  lemma ApplyKeepsLive(deps: Deps, w: World, a: Action, p: string, rec: Record)
    requires !deps.delegated && NoneLive(deps, w) && Enabled(w, a) && Live(w.files, p, w.now) == Some(rec)
    requires IsActive(rec, Apply(deps, w, a).now)
    ensures Live(Apply(deps, w, a).files, p, Apply(deps, w, a).now) == Some(rec)
  {
    if a.Step? {
      EffectKeepsLive(deps, w.jobs[a.r].req, w.jobs[a.r].phase, w.files, w.spent, w.now, a.answer, p);
    }
  }

  lemma {:induction false} TimeGrows(deps: Deps, w: World, actions: seq<Action>)
    requires Run(deps, w, actions).Some?
    ensures w.now <= Run(deps, w, actions).value.now
    decreases |actions|
  {
    if actions != [] {
      TimeGrows(deps, Apply(deps, w, actions[0]), actions[1..]);
    }
  }

  lemma {:induction false} RunKeepsLive(deps: Deps, w: World, actions: seq<Action>, p: string, rec: Record)
    requires !deps.delegated && NoneLive(deps, w) && SerialRun(deps, w, actions) && Run(deps, w, actions).Some?
    requires Live(w.files, p, w.now) == Some(rec) && IsActive(rec, Run(deps, w, actions).value.now)
    ensures
      var v := Run(deps, w, actions).value;
      Live(v.files, p, v.now) == Some(rec)
    decreases |actions|
  {
    if actions != [] {
      TimeGrows(deps, Apply(deps, w, actions[0]), actions[1..]);
      ApplyKeepsNoneLive(deps, w, actions[0]);
      ApplyKeepsLive(deps, w, actions[0], p, rec);
      RunKeepsLive(deps, Apply(deps, w, actions[0]), actions[1..], p, rec);
    }
  }

  lemma {:induction false} SerialParts(deps: Deps, w: World, xs: seq<Action>, ys: seq<Action>)
    requires SerialRun(deps, w, xs + ys) && Run(deps, w, xs).Some?
    ensures SerialRun(deps, w, xs) && SerialRun(deps, Run(deps, w, xs).value, ys)
    decreases |xs|
  {
    if xs == [] {
      assert xs + ys == ys;
    } else {
      assert (xs + ys)[0] == xs[0] && (xs + ys)[1..] == xs[1..] + ys;
      SerialParts(deps, Apply(deps, w, xs[0]), xs[1..], ys);
    }
  }

  /**
   * While requests for one session do not overlap, a live session stays as it is until its deadline: no other
   * request, cleanup or failed payment takes paid time away.
   */
  lemma PaidTimeIsKept(deps: Deps, w0: World, before: seq<Action>, after: seq<Action>, p: string, rec: Record)
    requires !deps.delegated && Initial(w0) && SerialRun(deps, w0, before + after)
    requires Run(deps, w0, before).Some? && Run(deps, w0, before + after).Some?
    requires
      var w := Run(deps, w0, before).value;
      Live(w.files, p, w.now) == Some(rec)
    requires IsActive(rec, Run(deps, w0, before + after).value.now)
    ensures
      var v := Run(deps, w0, before + after).value;
      Live(v.files, p, v.now) == Some(rec)
  {
    RunConcat(deps, w0, before, after);
    SerialParts(deps, w0, before, after);
    RunKeepsNoneLive(deps, w0, before);
    RunKeepsLive(deps, Run(deps, w0, before).value, after, p, rec);
  }
}
