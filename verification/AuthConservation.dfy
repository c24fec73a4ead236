/** Local mode, every interleaving: access granted is exactly access paid for, and the ledger agrees. */
module AuthConservation {
  import opened Common
  import opened Sessions
  import opened AuthProtocol
  import Ledger
  import Token = CashuToken

  predicate IsPaid(r: AuthResult) {
    r.Accept? && r.reply == Paid
  }

  /** A paid result that matches the receipt of the redemption behind it. */
  predicate Matches(result: AuthResult, token: Token.TokenData) {
    && IsPaid(result)
    && result.timeout == Seconds(token.amount)
    && result.credit == token.amount && token.amount > 0
    && result.mint == token.mint
  }

  function ReceiptOf(w: World, r: nat): Option<Token.TokenData> {
    if r in w.receipts then Some(w.receipts[r]) else None
  }

  predicate ResultPaired(result: AuthResult, receipt: Option<Token.TokenData>) {
    if IsPaid(result) then receipt.Some? && Matches(result, receipt.value)
    else receipt.None? && (result.Accept? ==> result.reply == Resumed)
  }

  /** How a request's phase and its own redemption go together. */
  predicate Paired(phase: Phase, receipt: Option<Token.TokenData>) {
    match phase
    case Saving(_, result) => IsPaid(result) && ResultPaired(result, receipt)
    case Done(result) => ResultPaired(result, receipt)
    case Recorded(result) => ResultPaired(result, receipt)
    case Checking(_, token) => receipt.None? && token.amount > 0
    case Redeeming(_, token) => receipt.None? && token.amount > 0
    case Finding(_, _) => false
    case Bootstrapping(_, _) => false
    case LookingUp => receipt.None?
    case LookedUp(_) => receipt.None?
    case SpentLookup(_, _) => receipt.None?
  }

  ghost predicate JobPaired(w: World, r: nat)
    requires r in w.jobs
  {
    Paired(w.jobs[r].phase, ReceiptOf(w, r))
  }

  ghost predicate Disjoint(w: World, spent0: set<string>) {
    && (forall r, q :: r in w.receipts && q in w.receipts && r != q ==>
          Secrets(w.receipts[r]) !! Secrets(w.receipts[q]))
    && (forall r :: r in w.receipts ==> Secrets(w.receipts[r]) !! spent0)
    && (forall s :: s in w.spent <==> s in spent0 || exists r :: r in w.receipts && s in Secrets(w.receipts[r]))
  }

  ghost predicate PayInv(w: World, spent0: set<string>) {
    && Numbered(w)
    && w.receipts.Keys <= w.jobs.Keys
    && (forall r :: r in w.jobs ==> JobPaired(w, r))
    && Disjoint(w, spent0)
  }

  lemma ArriveNumbered(w: World, job: Job)
    requires Numbered(w)
    ensures |w.jobs| !in w.jobs
    ensures Numbered(w.(jobs := w.jobs[|w.jobs| := job]))
  {
    Grown(w.jobs, |w.jobs|, job);
  }

  /** A redemption spends fresh secrets only and adds exactly one receipt. */
  lemma RedeemDisjoint(w: World, spent0: set<string>, r: nat, token: Token.TokenData)
    requires Disjoint(w, spent0) && r !in w.receipts && Secrets(token) !! w.spent
    ensures Disjoint(w.(spent := w.spent + Secrets(token), receipts := w.receipts[r := token]), spent0)
  {
    var v := w.(spent := w.spent + Secrets(token), receipts := w.receipts[r := token]);
    forall s ensures s in v.spent <==> s in spent0 || exists q :: q in v.receipts && s in Secrets(v.receipts[q]) {
      if s in Secrets(token) {
        assert r in v.receipts && s in Secrets(v.receipts[r]);
      } else if s in w.spent && s !in spent0 {
        var q :| q in w.receipts && s in Secrets(w.receipts[q]);
        assert q in v.receipts && s in Secrets(v.receipts[q]);
      } else if s !in w.spent {
        forall q | q in v.receipts ensures s !in Secrets(v.receipts[q]) {
          if q != r {
            assert q in w.receipts;
          }
        }
      }
    }
    forall q, p | q in v.receipts && p in v.receipts && q != p
      ensures Secrets(v.receipts[q]) !! Secrets(v.receipts[p])
    {
      if q == r || p == r {
        var other := if q == r then p else q;
        assert forall s :: s in Secrets(w.receipts[other]) ==> s in w.spent;
      }
    }
  }

  /** A step that redeems does so once, with fresh proofs; any other leaves the pairing to the phase. */
  lemma EffectPaired(deps: Deps, req: Request, phase: Phase, files: Files, spent: set<string>, now: int, a: Answer,
                     receipt: Option<Token.TokenData>)
    requires !deps.delegated && Paired(phase, receipt)
    ensures
      var e := StepEffect(deps, req, phase, files, spent, now, a);
      && (e.redeemed.Some? ==> receipt.None? && Secrets(e.redeemed.value) !! spent)
      && Paired(e.phase, if e.redeemed.Some? then e.redeemed else receipt)
  {
  }

  lemma StepKeepsPayInv(deps: Deps, w: World, spent0: set<string>, r: nat, a: Answer)
    requires !deps.delegated && PayInv(w, spent0) && r in w.jobs
    ensures PayInv(Advance(deps, w, r, a), spent0)
  {
    var e := EffectOf(deps, w, r, a);
    assert JobPaired(w, r);
    EffectPaired(deps, w.jobs[r].req, w.jobs[r].phase, w.files, w.spent, w.now, a, ReceiptOf(w, r));
    TakeKeepsPayInv(w, spent0, r, e);
  }

  lemma TakeKeepsPayInv(w: World, spent0: set<string>, r: nat, e: Effect)
    requires PayInv(w, spent0) && r in w.jobs
    requires e.redeemed.Some? ==> r !in w.receipts && Secrets(e.redeemed.value) !! w.spent
    requires Paired(e.phase, if e.redeemed.Some? then e.redeemed else ReceiptOf(w, r))
    ensures PayInv(Take(w, r, e), spent0)
  {
    var v := Take(w, r, e);
    SameNumbering(w, v);
    if e.redeemed.Some? {
      RedeemDisjoint(w, spent0, r, e.redeemed.value);
    }
    forall q | q in v.jobs ensures JobPaired(v, q) {
      assert JobPaired(w, q);
      assert q != r ==> v.jobs[q] == w.jobs[q];
    }
  }

  lemma SameNumbering(w: World, v: World)
    requires Numbered(w) && v.jobs.Keys == w.jobs.Keys
    ensures Numbered(v)
  {
    assert |v.jobs| == |v.jobs.Keys| == |w.jobs.Keys| == |w.jobs|;
  }

  lemma ApplyKeepsPayInv(deps: Deps, w: World, spent0: set<string>, a: Action)
    requires !deps.delegated && PayInv(w, spent0) && Enabled(w, a)
    ensures PayInv(Apply(deps, w, a), spent0)
  {
    match a
    case Arrive(req) =>
      ArriveNumbered(w, Job(req, Start(deps, req)));
      var v := Apply(deps, w, a);
      forall q | q in v.jobs ensures JobPaired(v, q) {
        assert q in w.jobs ==> JobPaired(w, q);
      }
    case Step(r, answer) => StepKeepsPayInv(deps, w, spent0, r, answer);
    case Cleanup =>
      forall q | q in w.jobs ensures JobPaired(Apply(deps, w, a), q) {
        assert JobPaired(w, q);
      }
    case Tick(_) =>
      forall q | q in w.jobs ensures JobPaired(Apply(deps, w, a), q) {
        assert JobPaired(w, q);
      }
  }

  lemma {:induction false} RunKeepsPayInv(deps: Deps, w: World, spent0: set<string>, actions: seq<Action>)
    requires !deps.delegated && PayInv(w, spent0) && Run(deps, w, actions).Some?
    ensures PayInv(Run(deps, w, actions).value, spent0)
    decreases |actions|
  {
    if actions != [] {
      ApplyKeepsPayInv(deps, w, spent0, actions[0]);
      RunKeepsPayInv(deps, Apply(deps, w, actions[0]), spent0, actions[1..]);
    }
  }

  function Timeouts(w: World): map<nat, int>
  {
    map r | r in w.receipts && Answered(w, r).Some? && Answered(w, r).value.Accept? :: Answered(w, r).value.timeout
  }

  function Amounts(w: World): map<nat, int> {
    map r | r in w.receipts :: w.receipts[r].amount
  }

  ghost predicate AllExact(w: World) {
    forall r :: r in w.receipts ==> w.receipts[r].amount <= 922_337_203_685_477_580
  }

  /**
   * Safety of payment over every interleaving: a newly paid accept has a redemption of its own with the same
   * amount, no proof pays for two of them, and nothing spent beforehand pays for any.
   */
  lemma PaidAcceptsAreRedeemed(deps: Deps, w0: World, actions: seq<Action>)
    requires !deps.delegated && Initial(w0) && Run(deps, w0, actions).Some?
    ensures
      var w := Run(deps, w0, actions).value;
      && (forall r :: Answered(w, r).Some? && IsPaid(Answered(w, r).value) ==>
            r in w.receipts && Matches(Answered(w, r).value, w.receipts[r]))
      && (forall r, q :: r in w.receipts && q in w.receipts && r != q ==>
            Secrets(w.receipts[r]) !! Secrets(w.receipts[q]))
      && (forall r, s :: r in w.receipts && s in Secrets(w.receipts[r]) ==> s in w.spent && s !in w0.spent)
  {
    RunKeepsPayInv(deps, w0, w0.spent, actions);
    var w := Run(deps, w0, actions).value;
    forall r | Answered(w, r).Some? && IsPaid(Answered(w, r).value)
      ensures r in w.receipts && Matches(Answered(w, r).value, w.receipts[r])
    {
      assert JobPaired(w, r);
    }
  }

  /**
   * Conservation: once no request is in flight, the redemptions are exactly the newly paid accepts and, for
   * amounts whose seconds fit 64 bits, the seconds granted are ten times the sats redeemed.
   */
  lemma Conservation(deps: Deps, w0: World, actions: seq<Action>)
    requires !deps.delegated && Initial(w0) && Run(deps, w0, actions).Some?
    requires Quiet(Run(deps, w0, actions).value)
    ensures
      var w := Run(deps, w0, actions).value;
      && (forall r :: r in w.receipts <==> Answered(w, r).Some? && IsPaid(Answered(w, r).value))
      && Timeouts(w).Keys == w.receipts.Keys == Amounts(w).Keys
      && (AllExact(w) ==> SumOver(w.receipts.Keys, Timeouts(w)) == 10 * SumOver(w.receipts.Keys, Amounts(w)))
  {
    RunKeepsPayInv(deps, w0, w0.spent, actions);
    var w := Run(deps, w0, actions).value;
    forall r | r in w.receipts ensures Answered(w, r).Some? && Matches(Answered(w, r).value, w.receipts[r]) {
      assert JobPaired(w, r);
    }
    forall r | Answered(w, r).Some? && IsPaid(Answered(w, r).value) ensures r in w.receipts {
      assert JobPaired(w, r);
    }
    assert Timeouts(w).Keys == w.receipts.Keys;
    if AllExact(w) {
      SumOverScale(w.receipts.Keys, Timeouts(w), Amounts(w), 10);
    }
  }

  // ----- The ledger -----

  /** Requests whose accept (or reject) has been recorded. */
  function RecordedAs(w: World, accept: bool): set<nat> {
    set r | r in w.jobs && w.jobs[r].phase.Recorded? && w.jobs[r].phase.result.Accept? == accept
  }

  function Credits(w: World): map<nat, int> {
    map r | r in RecordedAs(w, true) :: w.jobs[r].phase.result.credit
  }

  ghost predicate LedgerInv(deps: Deps, w: World) {
    && Numbered(w)
    && (forall e :: e in w.ledger ==> e.operatorId == deps.operatorId)
    && Ledger.CreditOf(w.ledger) == SumOver(RecordedAs(w, true), Credits(w))
    && Ledger.Count(w.ledger, Ledger.AuthAccept) == |RecordedAs(w, true)|
    && Ledger.Count(w.ledger, Ledger.AuthReject) == |RecordedAs(w, false)|
  }

  /** Steps that record nothing leave the recorded sets alone. */
  lemma RecordedUnchanged(v: World, w: World)
    requires forall r :: r in w.jobs && w.jobs[r].phase.Recorded? ==> r in v.jobs && v.jobs[r] == w.jobs[r]
    requires forall r :: r in v.jobs && v.jobs[r].phase.Recorded? ==> r in w.jobs && v.jobs[r] == w.jobs[r]
    ensures RecordedAs(v, true) == RecordedAs(w, true) && RecordedAs(v, false) == RecordedAs(w, false)
    ensures Credits(v) == Credits(w)
  {
    assert RecordedAs(v, true) == RecordedAs(w, true);
    assert RecordedAs(v, false) == RecordedAs(w, false);
  }

  /** A step records its result in the ledger or changes neither ledger nor recorded results. */
  lemma EffectRecords(deps: Deps, req: Request, phase: Phase, files: Files, spent: set<string>, now: int, a: Answer)
    ensures
      var e := StepEffect(deps, req, phase, files, spent, now, a);
      if phase.Done? then e.phase == Recorded(phase.result) && e.entry == Some(EntryOf(deps, req, phase.result, now))
      else e.entry.None? && if phase.Recorded? then e.phase == phase else !e.phase.Recorded?
  {
  }

  lemma AcceptKeepsLedgerInv(deps: Deps, w: World, r: nat, e: Effect)
    requires LedgerInv(deps, w) && r in w.jobs && w.jobs[r].phase.Done? && w.jobs[r].phase.result.Accept?
    requires e.phase == Recorded(w.jobs[r].phase.result)
    requires e.entry == Some(EntryOf(deps, w.jobs[r].req, w.jobs[r].phase.result, w.now))
    ensures LedgerInv(deps, Take(w, r, e))
  {
    var v := Take(w, r, e);
    SameNumbering(w, v);
    assert v.ledger[..|w.ledger|] == w.ledger;
    assert RecordedAs(v, true) == RecordedAs(w, true) + {r};
    assert RecordedAs(v, false) == RecordedAs(w, false);
    SumOverAdd(RecordedAs(w, true), Credits(v), r);
    SumOverSame(RecordedAs(w, true), Credits(v), Credits(w));
  }

  lemma RejectKeepsLedgerInv(deps: Deps, w: World, r: nat, e: Effect)
    requires LedgerInv(deps, w) && r in w.jobs && w.jobs[r].phase.Done? && w.jobs[r].phase.result.Reject?
    requires e.phase == Recorded(w.jobs[r].phase.result)
    requires e.entry == Some(EntryOf(deps, w.jobs[r].req, w.jobs[r].phase.result, w.now))
    ensures LedgerInv(deps, Take(w, r, e))
  {
    var v := Take(w, r, e);
    SameNumbering(w, v);
    assert v.ledger[..|w.ledger|] == w.ledger;
    RejectRecorded(w, v, r);
  }

  lemma RejectRecorded(w: World, v: World, r: nat)
    requires r in w.jobs && w.jobs[r].phase.Done? && w.jobs[r].phase.result.Reject?
    requires v.jobs == w.jobs[r := Job(w.jobs[r].req, Recorded(w.jobs[r].phase.result))]
    ensures r !in RecordedAs(w, false) && RecordedAs(v, false) == RecordedAs(w, false) + {r}
    ensures RecordedAs(v, true) == RecordedAs(w, true) && Credits(v) == Credits(w)
  {
  }

  lemma StepKeepsLedgerInv(deps: Deps, w: World, r: nat, a: Answer)
    requires LedgerInv(deps, w) && r in w.jobs
    ensures LedgerInv(deps, Advance(deps, w, r, a))
  {
    var e, phase := EffectOf(deps, w, r, a), w.jobs[r].phase;
    EffectRecords(deps, w.jobs[r].req, phase, w.files, w.spent, w.now, a);
    if phase.Done? {
      if phase.result.Accept? {
        AcceptKeepsLedgerInv(deps, w, r, e);
      } else {
        RejectKeepsLedgerInv(deps, w, r, e);
      }
    } else {
      SilentKeepsLedgerInv(deps, w, r, e);
    }
  }

  lemma SilentKeepsLedgerInv(deps: Deps, w: World, r: nat, e: Effect)
    requires LedgerInv(deps, w) && r in w.jobs && e.entry.None?
    requires if w.jobs[r].phase.Recorded? then e.phase == w.jobs[r].phase else !e.phase.Recorded?
    ensures LedgerInv(deps, Take(w, r, e))
  {
    SameNumbering(w, Take(w, r, e));
    RecordedUnchanged(Take(w, r, e), w);
  }

  lemma ApplyKeepsLedgerInv(deps: Deps, w: World, a: Action)
    requires LedgerInv(deps, w) && Enabled(w, a)
    ensures LedgerInv(deps, Apply(deps, w, a))
  {
    match a
    case Step(r, answer) => StepKeepsLedgerInv(deps, w, r, answer);
    case Arrive(req) =>
      var job := Job(req, Start(deps, req));
      ArriveNumbered(w, job);
      RecordedUnchanged(w.(jobs := w.jobs[|w.jobs| := job]), w);
    case Cleanup => RecordedUnchanged(Apply(deps, w, a), w);
    case Tick(_) => RecordedUnchanged(Apply(deps, w, a), w);
  }

  lemma {:induction false} RunKeepsLedgerInv(deps: Deps, w: World, actions: seq<Action>)
    requires LedgerInv(deps, w) && Run(deps, w, actions).Some?
    ensures LedgerInv(deps, Run(deps, w, actions).value)
    decreases |actions|
  {
    if actions != [] {
      ApplyKeepsLedgerInv(deps, w, actions[0]);
      RunKeepsLedgerInv(deps, Apply(deps, w, actions[0]), actions[1..]);
    }
  }

  /** Every stored or about-to-be-stored amount is positive. */
  ghost predicate PositiveAmounts(w: World) {
    && (forall p :: p in w.files && w.files[p].Json? ==> w.files[p].rec.amount > 0)
    && (forall r :: r in w.jobs ==> PhasePositive(w.jobs[r].phase))
  }

  predicate PhasePositive(p: Phase) {
    match p
    case Checking(_, token) => token.amount > 0
    case Redeeming(_, token) => token.amount > 0
    case Saving(rec, result) => rec.amount > 0 && (result.Accept? ==> result.credit > 0)
    case Done(result) => result.Accept? ==> result.credit > 0
    case Recorded(result) => result.Accept? ==> result.credit > 0
    case Finding(_, _) => false
    case Bootstrapping(_, _) => false
    case LookingUp => true
    case LookedUp(_) => true
    case SpentLookup(_, _) => true
  }

  lemma EffectPositive(deps: Deps, req: Request, phase: Phase, files: Files, spent: set<string>, now: int, a: Answer)
    requires !deps.delegated && PhasePositive(phase)
    requires forall p :: p in files && files[p].Json? ==> files[p].rec.amount > 0
    ensures
      var e := StepEffect(deps, req, phase, files, spent, now, a);
      PhasePositive(e.phase) && forall p :: p in e.files && e.files[p].Json? ==> e.files[p].rec.amount > 0
  {
  }

  lemma ApplyKeepsPositive(deps: Deps, w: World, a: Action)
    requires !deps.delegated && PositiveAmounts(w) && Enabled(w, a)
    ensures PositiveAmounts(Apply(deps, w, a))
  {
    if a.Step? {
      EffectPositive(deps, w.jobs[a.r].req, w.jobs[a.r].phase, w.files, w.spent, w.now, a.answer);
    }
  }

  lemma {:induction false} RunKeepsPositive(deps: Deps, w: World, actions: seq<Action>)
    requires !deps.delegated && PositiveAmounts(w) && Run(deps, w, actions).Some?
    ensures PositiveAmounts(Run(deps, w, actions).value)
    decreases |actions|
  {
    if actions != [] {
      ApplyKeepsPositive(deps, w, actions[0]);
      RunKeepsPositive(deps, Apply(deps, w, actions[0]), actions[1..]);
    }
  }

  function ResumedSet(w: World): set<nat> {
    RecordedAs(w, true) - w.receipts.Keys
  }

  lemma {:induction false} SumOverSplit(s: set<nat>, t: set<nat>, m: map<nat, int>)
    requires s <= m.Keys && t <= m.Keys && s !! t
    ensures SumOver(s + t, m) == SumOver(s, m) + SumOver(t, m)
    decreases t
  {
    if t == {} {
      assert s + t == s;
    } else {
      var k :| k in t;
      SumOverTake(t, m, k);
      SumOverSplit(s, t - {k}, m);
      assert s + t == (s + (t - {k})) + {k};
      SumOverAdd(s + (t - {k}), m, k);
    }
  }

  /**
   * What a report says of a settled state: every newly paid accept once and each resumed session's stored amount
   * once more, in 64 bits, so that it is the sats redeemed exactly when what was resumed adds up to nothing.
   */
  ghost predicate Reports(w: World, r: Ledger.Report) {
    && Amounts(w).Keys == w.receipts.Keys && ResumedSet(w) <= Credits(w).Keys
    && ReportsTotal(r, SumOver(w.receipts.Keys, Amounts(w)), SumOver(ResumedSet(w), Credits(w)), ResumedSet(w) == {})
    && r.accepted == |RecordedAs(w, true)| && r.rejected == |RecordedAs(w, false)| && r.sessions == |w.jobs|
  }

  predicate ReportsTotal(r: Ledger.Report, redeemed: int, again: int, noneResumed: bool) {
    && r.totalSat == Wrap64(redeemed + again)
    && (r.totalSat == Wrap64(redeemed) <==> again % TWO64 == 0)
    && (redeemed + again < TWO63 ==> (r.totalSat == redeemed <==> noneResumed))
    && (r.average * r.accepted as real == if r.accepted > 0 then r.totalSat as real else 0.0)
  }

  lemma TotalReported(es: seq<Ledger.Entry>, redeemed: int, again: int)
    requires redeemed >= 0 && again >= 0 && Ledger.CreditOf(es) == redeemed + again
    ensures ReportsTotal(Ledger.ReportOf(es), redeemed, again, again == 0)
  {
    Ledger.AverageTimesAccepted(es);
    WrapEqualIff(redeemed + again, redeemed);
  }

  /**
   * Once every request is settled, the ledger file can be read exactly when all its lines are short, and the
   * revenue report over a period holding all of it then matches the trace of redemptions and resumes.
   */
  lemma RevenueMatchesTrace(deps: Deps, codec: Ledger.Codec, w0: World, actions: seq<Action>, start: int, end: int)
    requires !deps.delegated && Initial(w0) && PositiveAmounts(w0) && Run(deps, w0, actions).Some?
    requires Ledger.Sound(codec) && Settled(Run(deps, w0, actions).value)
    requires forall e :: e in Run(deps, w0, actions).value.ledger ==> start <= e.time <= end
    ensures
      var w := Run(deps, w0, actions).value;
      var read := Ledger.Read(codec, Ledger.Written(codec, w.ledger));
      if forall e :: e in w.ledger ==> |codec.render(e)| < Ledger.MAX_LINE
      then read.Ok? && Reports(w, Ledger.ReportOf(Ledger.Pick(read.value, deps.operatorId, start, end)))
      else read == Err(Ledger.LineTooLong)
  {
    var w := Run(deps, w0, actions).value;
    assert RecordedAs(w0, true) == {} && RecordedAs(w0, false) == {};
    RunKeepsLedgerInv(deps, w0, actions);
    RunKeepsPayInv(deps, w0, w0.spent, actions);
    RunKeepsPositive(deps, w0, actions);
    RevenueInSettled(deps, w, w0.spent, start, end);
    Ledger.ReadBackIff(codec, w.ledger);
  }

  /** The same, of any settled state that the invariants hold in. */
  lemma RevenueInSettled(deps: Deps, w: World, spent0: set<string>, start: int, end: int)
    requires Settled(w) && LedgerInv(deps, w) && PayInv(w, spent0) && PositiveAmounts(w)
    requires forall e :: e in w.ledger ==> start <= e.time <= end
    ensures Reports(w, Ledger.ReportOf(Ledger.Pick(w.ledger, deps.operatorId, start, end)))
  {
    Ledger.PickAll(w.ledger, deps.operatorId, start, end);
    CreditsSplit(w, spent0);
    AllCounted(w);
    TotalsNonNegative(w, spent0);
    TotalReported(w.ledger, SumOver(w.receipts.Keys, Amounts(w)), SumOver(ResumedSet(w), Credits(w)));
  }

  lemma TotalsNonNegative(w: World, spent0: set<string>)
    requires PayInv(w, spent0) && PositiveAmounts(w) && Settled(w)
    ensures Amounts(w).Keys == w.receipts.Keys && SumOver(w.receipts.Keys, Amounts(w)) >= 0
    ensures ResumedSet(w) <= Credits(w).Keys && SumOver(ResumedSet(w), Credits(w)) >= 0
  {
    forall r | r in w.receipts ensures Amounts(w)[r] > 0 {
      ReceiptPositive(w, spent0, r);
    }
    SumOverPositive(w.receipts.Keys, Amounts(w));
    CreditsNonNegative(w);
  }

  lemma ReceiptPositive(w: World, spent0: set<string>, r: nat)
    requires PayInv(w, spent0) && Settled(w) && r in w.receipts
    ensures w.receipts[r].amount > 0
  {
    assert JobPaired(w, r);
  }

  lemma CreditsNonNegative(w: World)
    requires PositiveAmounts(w)
    ensures ResumedSet(w) <= Credits(w).Keys && SumOver(ResumedSet(w), Credits(w)) >= 0
  {
    forall r | r in ResumedSet(w) ensures Credits(w)[r] > 0 {
      assert PhasePositive(w.jobs[r].phase);
    }
    SumOverPositive(ResumedSet(w), Credits(w));
  }

  /** Every redemption has been recorded as an accept of its own amount. */
  lemma ReceiptsRecorded(w: World, spent0: set<string>, r: nat)
    requires Settled(w) && PayInv(w, spent0) && r in w.receipts
    ensures r in RecordedAs(w, true) && Credits(w)[r] == Amounts(w)[r]
  {
    assert JobPaired(w, r);
  }

  lemma ResumedPositive(w: World)
    requires PositiveAmounts(w)
    ensures ResumedSet(w) <= Credits(w).Keys
    ensures SumOver(ResumedSet(w), Credits(w)) == 0 <==> ResumedSet(w) == {}
  {
    forall r | r in ResumedSet(w) ensures Credits(w)[r] > 0 {
      assert PhasePositive(w.jobs[r].phase);
    }
    SumOverPositive(ResumedSet(w), Credits(w));
  }

  /** The recorded credits are the redeemed amounts plus one stored amount per resumed session. */
  lemma CreditsSplit(w: World, spent0: set<string>)
    requires Settled(w) && PayInv(w, spent0) && PositiveAmounts(w)
    ensures ResumedSet(w) <= Credits(w).Keys
    ensures SumOver(RecordedAs(w, true), Credits(w)) ==
            SumOver(w.receipts.Keys, Amounts(w)) + SumOver(ResumedSet(w), Credits(w))
    ensures SumOver(ResumedSet(w), Credits(w)) == 0 <==> ResumedSet(w) == {}
  {
    forall r | r in w.receipts ensures r in RecordedAs(w, true) && Credits(w)[r] == Amounts(w)[r] {
      ReceiptsRecorded(w, spent0, r);
    }
    SplitTotals(w.receipts.Keys, RecordedAs(w, true), Amounts(w), Credits(w));
    ResumedPositive(w);
  }

  lemma SplitTotals(paid: set<nat>, all: set<nat>, amounts: map<nat, int>, credits: map<nat, int>)
    requires paid <= all && credits.Keys == all && amounts.Keys == paid
    requires forall r :: r in paid ==> credits[r] == amounts[r]
    ensures SumOver(all, credits) == SumOver(paid, amounts) + SumOver(all - paid, credits)
  {
    SumOverSplit(paid, all - paid, credits);
    assert paid + (all - paid) == all;
    SumOverSame(paid, credits, amounts);
  }

  lemma AllCounted(w: World)
    requires Settled(w)
    ensures |RecordedAs(w, true)| + |RecordedAs(w, false)| == |w.jobs|
  {
    assert RecordedAs(w, true) !! RecordedAs(w, false);
    assert RecordedAs(w, true) + RecordedAs(w, false) == w.jobs.Keys;
  }
}
