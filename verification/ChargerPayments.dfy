/** Charger starts paid through the auth pipeline: the credit they grant against the sats redeemed for them. */
module ChargerPayments {
  import opened Common
  import opened Sessions
  import opened Payment
  import A = AuthProtocol
  import P = AuthConservation
  import C = Charger

  /** Both machines side by side; each start keeps its request's number, and the credit once it is accepted. */
  datatype Joint = Joint(c: C.World, a: A.World, request: map<nat, nat>, granted: map<nat, int>)

  datatype Move =
    | Begin(req: A.Request)
    | Accepted(h: nat, unit: string)
    | Turned(h: nat)
    | Pay(x: A.Action)
    | Charge(y: C.Action)

  function Boot(w0: A.World, now: real): Joint {
    Joint(C.Boot(now), w0, map[], map[])
  }

  function AnswerOf(j: Joint, h: nat): Option<A.AuthResult> {
    if h in j.request then A.Answered(j.a, j.request[h]) else None
  }

  /**
   * A start goes on only once its request is answered: an accept may still be turned down, for another provider's
   * token. Requests of other clients, cleanups, stops and ticks come in between as they please.
   */
  predicate Enabled(j: Joint, m: Move) {
    match m
    case Begin(_) => true
    case Accepted(h, unit) =>
      C.Enabled(j.c, C.Prepare(h, 0, unit)) && AnswerOf(j, h).Some? && AnswerOf(j, h).value.Accept?
    case Turned(h) => C.Enabled(j.c, C.Refuse(h)) && AnswerOf(j, h).Some?
    case Pay(x) => A.Enabled(j.a, x)
    case Charge(y) => C.Enabled(j.c, y) && !y.Claim? && !y.Prepare? && !y.Refuse?
  }

  function Apply(t: C.PriceTable, deps: A.Deps, j: Joint, m: Move): Joint
    requires Enabled(j, m)
  {
    match m
    case Begin(req) =>
      if j.c.st.mode != C.Available then j
      else Joint(C.Apply(t, j.c, C.Claim), A.Apply(deps, j.a, A.Arrive(req)),
                 j.request[j.c.nextId := |j.a.jobs|], j.granted)
    case Accepted(h, unit) =>
      var credit := AnswerOf(j, h).value.credit;
      j.(c := C.Apply(t, j.c, C.Prepare(h, credit, unit)), granted := j.granted[h := credit])
    case Turned(h) => j.(c := C.Apply(t, j.c, C.Refuse(h)))
    case Pay(x) => j.(a := A.Apply(deps, j.a, x))
    case Charge(y) => j.(c := C.Apply(t, j.c, y))
  }

  function Run(t: C.PriceTable, deps: A.Deps, j: Joint, moves: seq<Move>): Option<Joint>
    decreases |moves|
  {
    if moves == [] then Some(j)
    else if !Enabled(j, moves[0]) then None
    else Run(t, deps, Apply(t, deps, j, moves[0]), moves[1..])
  }

  // ----- What ties the two together -----

  /** The charger charges against granted credit only, and a start that still waits has none. */
  ghost predicate Tied(c: C.World, request: map<nat, nat>, granted: map<nat, int>) {
    && granted.Keys <= request.Keys
    && (forall h :: h in request ==> h < c.nextId)
    && (forall h :: h in c.tasks && c.tasks[h].Authorising? ==> h in request && h !in granted)
    && (forall h :: h in c.tasks && c.tasks[h].Committing? ==>
          h in granted && c.tasks[h].session.start == h && c.tasks[h].session.credit == granted[h])
    && (forall h :: h in c.committed ==> h in granted)
    && (c.st.session.Some? ==>
          c.st.session.value.start in granted && c.st.session.value.credit == granted[c.st.session.value.start])
  }

  /** Different starts asked in different requests, and credit is granted exactly as answered. */
  ghost predicate Asked(a: A.World, request: map<nat, nat>, granted: map<nat, int>) {
    && (forall h :: h in request ==> request[h] in a.jobs)
    && (forall g, h :: g in request && h in request && g != h ==> request[g] != request[h])
    && (forall h :: h in granted && h in request ==> GrantedAs(A.Answered(a, request[h]), granted[h]))
  }

  predicate GrantedAs(answer: Option<A.AuthResult>, credit: int) {
    answer.Some? && answer.value.Accept? && answer.value.credit == credit
  }

  ghost predicate Inv(j: Joint, spent0: set<string>) {
    && C.Inv(j.c) && P.PayInv(j.a, spent0) && P.PositiveAmounts(j.a)
    && Tied(j.c, j.request, j.granted) && Asked(j.a, j.request, j.granted)
  }

  /** An answer, once given, stays. */
  lemma AnswerStays(deps: A.Deps, w: A.World, x: A.Action, r: nat)
    requires A.Enabled(w, x) && A.Numbered(w) && r in w.jobs
    ensures r in A.Apply(deps, w, x).jobs
    ensures A.Answered(w, r).Some? ==> A.Answered(A.Apply(deps, w, x), r) == A.Answered(w, r)
  {
  }

  lemma PayKeepsAsked(deps: A.Deps, w: A.World, x: A.Action, request: map<nat, nat>, granted: map<nat, int>)
    requires A.Enabled(w, x) && A.Numbered(w) && Asked(w, request, granted)
    ensures Asked(A.Apply(deps, w, x), request, granted)
  {
    forall r | r in w.jobs
      ensures r in A.Apply(deps, w, x).jobs
      ensures A.Answered(w, r).Some? ==> A.Answered(A.Apply(deps, w, x), r) == A.Answered(w, r)
    {
      AnswerStays(deps, w, x, r);
    }
  }

  lemma PayKeepsInv(t: C.PriceTable, deps: A.Deps, j: Joint, x: A.Action, spent0: set<string>)
    requires !deps.delegated && Inv(j, spent0) && A.Enabled(j.a, x)
    ensures Inv(Apply(t, deps, j, Pay(x)), spent0)
  {
    P.ApplyKeepsPayInv(deps, j.a, spent0, x);
    P.ApplyKeepsPositive(deps, j.a, x);
    PayKeepsAsked(deps, j.a, x, j.request, j.granted);
  }

  lemma ClaimTies(t: C.PriceTable, c: C.World, request: map<nat, nat>, granted: map<nat, int>, r: nat)
    requires C.Inv(c) && Tied(c, request, granted) && c.st.mode == C.Available
    ensures c.nextId !in request
    ensures Tied(C.Apply(t, c, C.Claim), request[c.nextId := r], granted)
  {
  }

  lemma RequestAsked(w: A.World, request: map<nat, nat>, granted: map<nat, int>, h: nat, r: nat)
    requires Asked(w, request, granted) && h !in request && h !in granted && r in w.jobs
    requires forall g :: g in request ==> request[g] != r
    ensures Asked(w, request[h := r], granted)
  {
  }

  lemma BeginKeepsInv(t: C.PriceTable, deps: A.Deps, j: Joint, req: A.Request, spent0: set<string>)
    requires !deps.delegated && Inv(j, spent0)
    ensures Inv(Apply(t, deps, j, Begin(req)), spent0)
  {
    if j.c.st.mode == C.Available {
      var h, r, x := j.c.nextId, |j.a.jobs|, A.Arrive(req);
      C.ApplyKeepsInv(t, j.c, C.Claim);
      ClaimTies(t, j.c, j.request, j.granted, r);
      P.ApplyKeepsPayInv(deps, j.a, spent0, x);
      P.ApplyKeepsPositive(deps, j.a, x);
      PayKeepsAsked(deps, j.a, x, j.request, j.granted);
      assert r !in j.a.jobs;
      RequestAsked(A.Apply(deps, j.a, x), j.request, j.granted, h, r);
    }
  }

  lemma PrepareTies(t: C.PriceTable, c: C.World, request: map<nat, nat>, granted: map<nat, int>, h: nat, credit: int,
      unit: string)
    requires C.Inv(c) && Tied(c, request, granted) && C.Enabled(c, C.Prepare(h, credit, unit))
    ensures Tied(C.Apply(t, c, C.Prepare(h, credit, unit)), request, granted[h := credit])
  {
  }

  lemma RefuseTies(t: C.PriceTable, c: C.World, request: map<nat, nat>, granted: map<nat, int>, h: nat)
    requires C.Inv(c) && Tied(c, request, granted) && C.Enabled(c, C.Refuse(h))
    ensures Tied(C.Apply(t, c, C.Refuse(h)), request, granted)
  {
  }

  lemma ChargeTies(t: C.PriceTable, c: C.World, request: map<nat, nat>, granted: map<nat, int>, y: C.Action)
    requires C.Inv(c) && Tied(c, request, granted) && C.Enabled(c, y)
    requires y.Commit? || y.Spawn? || y.StopNow? || y.Tick? || y.Wait?
    ensures Tied(C.Apply(t, c, y), request, granted)
  {
    match y
    case Commit(h) => assert C.Apply(t, c, y).committed == c.committed + [h];
    case Spawn(h) =>
    case StopNow(dt) =>
    case Tick(m, lag, dt) =>
    case Wait(dt) =>
  }

  lemma ChargeKeepsInv(t: C.PriceTable, deps: A.Deps, j: Joint, m: Move, spent0: set<string>)
    requires Inv(j, spent0) && Enabled(j, m) && (m.Accepted? || m.Turned? || m.Charge?)
    ensures Inv(Apply(t, deps, j, m), spent0)
  {
    match m
    case Accepted(h, unit) =>
      var credit := AnswerOf(j, h).value.credit;
      C.ApplyKeepsInv(t, j.c, C.Prepare(h, credit, unit));
      PrepareTies(t, j.c, j.request, j.granted, h, credit, unit);
    case Turned(h) =>
      C.ApplyKeepsInv(t, j.c, C.Refuse(h));
      RefuseTies(t, j.c, j.request, j.granted, h);
    case Charge(y) =>
      C.ApplyKeepsInv(t, j.c, y);
      ChargeTies(t, j.c, j.request, j.granted, y);
  }

  lemma {:induction false} RunKeepsInv(t: C.PriceTable, deps: A.Deps, j: Joint, moves: seq<Move>, spent0: set<string>)
    requires !deps.delegated && Inv(j, spent0) && Run(t, deps, j, moves).Some?
    ensures Inv(Run(t, deps, j, moves).value, spent0)
    decreases |moves|
  {
    if moves != [] {
      match moves[0] {
        case Begin(req) => BeginKeepsInv(t, deps, j, req, spent0);
        case Pay(x) => PayKeepsInv(t, deps, j, x, spent0);
        case _ => ChargeKeepsInv(t, deps, j, moves[0], spent0);
      }
      RunKeepsInv(t, deps, Apply(t, deps, j, moves[0]), moves[1..], spent0);
    }
  }

  // ----- The balance -----

  function Started(j: Joint): set<nat> {
    set h | h in j.c.committed
  }

  /** Starts whose own request redeemed a token, committed or not. */
  function Payers(j: Joint): set<nat> {
    set h | h in j.request && j.request[h] in j.a.receipts
  }

  /** The sats redeemed for a start. */
  function Sats(j: Joint): map<nat, int> {
    map h | h in Payers(j) :: j.a.receipts[j.request[h]].amount
  }

  /** Committed starts that were let in on an earlier payment. */
  function Resumed(j: Joint): set<nat> {
    Started(j) - Payers(j)
  }

  lemma StartedAnswered(j: Joint, spent0: set<string>, h: nat)
    requires Inv(j, spent0) && h in Started(j)
    ensures h in j.granted && j.granted[h] > 0
    ensures h in Payers(j) ==> j.granted[h] == Sats(j)[h]
    ensures h !in Payers(j) ==> AnswerOf(j, h).value.reply == A.Resumed
  {
    var r := j.request[h];
    assert P.JobPaired(j.a, r);
    assert P.PhasePositive(j.a.jobs[r].phase);
  }

  /** The sums over committed starts: paid ones at what was redeemed, resumed ones at their whole credit. */
  ghost predicate Balanced(j: Joint) {
    var paid := Started(j) * Payers(j);
    && Started(j) <= j.granted.Keys && Payers(j) == Sats(j).Keys
    && SumOver(Started(j), j.granted) == SumOver(paid, Sats(j)) + SumOver(Resumed(j), j.granted)
    && (SumOver(Started(j), j.granted) == SumOver(paid, Sats(j)) <==> Resumed(j) == {})
    && SumOver(Payers(j), Sats(j)) == SumOver(paid, Sats(j)) + SumOver(Payers(j) - Started(j), Sats(j))
  }

  lemma InvBalanced(j: Joint, spent0: set<string>)
    requires Inv(j, spent0)
    ensures Balanced(j)
  {
    forall h | h in Started(j)
      ensures h in j.granted && j.granted[h] > 0 && (h in Payers(j) ==> j.granted[h] == Sats(j)[h])
    {
      StartedAnswered(j, spent0, h);
    }
    Balance(Started(j), Payers(j), j.granted, Sats(j));
  }

  lemma Balance(started: set<nat>, payers: set<nat>, granted: map<nat, int>, sats: map<nat, int>)
    requires started <= granted.Keys && sats.Keys == payers
    requires forall h :: h in started ==> granted[h] > 0 && (h in payers ==> granted[h] == sats[h])
    ensures SumOver(started, granted) == SumOver(started * payers, sats) + SumOver(started - payers, granted)
    ensures SumOver(started, granted) == SumOver(started * payers, sats) <==> started - payers == {}
    ensures SumOver(payers, sats) == SumOver(started * payers, sats) + SumOver(payers - started, sats)
  {
    var paid := started * payers;
    assert paid + (started - payers) == started;
    P.SumOverSplit(paid, started - payers, granted);
    SumOverSame(paid, granted, sats);
    SumOverPositive(started - payers, granted);
    assert paid + (payers - started) == payers;
    P.SumOverSplit(paid, payers - started, sats);
  }

  /** The session that is charging is a committed start's, and draws on the credit granted to it. */
  predicate ChargesGranted(j: Joint) {
    j.c.st.session.Some? ==>
      var s := j.c.st.session.value;
      s.start in Started(j) && s.start in j.granted && s.credit == j.granted[s.start]
  }

  lemma LatestCharges(j: Joint, spent0: set<string>)
    requires Inv(j, spent0)
    ensures ChargesGranted(j)
  {
    if j.c.st.session.Some? {
      assert j.c.committed[|j.c.committed| - 1] == j.c.st.session.value.start;
    }
  }

  /** A committed start without a redemption of its own was answered from a live session. */
  ghost predicate ResumesAnswered(j: Joint) {
    forall h :: h in Resumed(j) ==>
      AnswerOf(j, h).Some? && AnswerOf(j, h).value.Accept? && AnswerOf(j, h).value.reply == A.Resumed
  }

  lemma ResumedByAnswer(j: Joint, spent0: set<string>)
    requires Inv(j, spent0)
    ensures ResumesAnswered(j)
  {
    forall h | h in Resumed(j)
      ensures AnswerOf(j, h).Some? && AnswerOf(j, h).value.Accept? && AnswerOf(j, h).value.reply == A.Resumed
    {
      StartedAnswered(j, spent0, h);
    }
  }

  /** No proof pays for two starts. */
  ghost predicate PaymentsApart(j: Joint) {
    forall g, h :: g in Payers(j) && h in Payers(j) && g != h ==>
      A.Secrets(j.a.receipts[j.request[g]]) !! A.Secrets(j.a.receipts[j.request[h]])
  }

  lemma ReceiptsApart(j: Joint, spent0: set<string>)
    requires Inv(j, spent0)
    ensures PaymentsApart(j)
  {
  }

  lemma BootJoint(w0: A.World, now: real)
    requires A.Initial(w0) && P.PositiveAmounts(w0)
    ensures Inv(Boot(w0, now), w0.spent)
  {
    C.BootInv(now);
  }

  /**
   * Over every interleaving of charger starts, stops, ticks, other clients' requests and cleanups: the credit
   * granted to committed starts is the sats redeemed for them plus the whole credit of every resumed one once more,
   * so the two agree exactly when no committed start was a resume. No proof pays for two starts.
   */
  lemma GrantedAgainstRedeemed(t: C.PriceTable, deps: A.Deps, w0: A.World, now: real, moves: seq<Move>)
    requires !deps.delegated && A.Initial(w0) && P.PositiveAmounts(w0) && Run(t, deps, Boot(w0, now), moves).Some?
    ensures
      var j := Run(t, deps, Boot(w0, now), moves).value;
      Balanced(j) && ChargesGranted(j) && ResumesAnswered(j) && PaymentsApart(j)
  {
    BootJoint(w0, now);
    RunKeepsInv(t, deps, Boot(w0, now), moves, w0.spent);
    var j := Run(t, deps, Boot(w0, now), moves).value;
    InvBalanced(j, w0.spent);
    LatestCharges(j, w0.spent);
    ResumedByAnswer(j, w0.spent);
    ReceiptsApart(j, w0.spent);
  }

  /** A start whose session is live at its path is answered at the first step, without a redemption. */
  lemma ResumeAnswered(t: C.PriceTable, deps: A.Deps, j: Joint, req: A.Request, ans: A.Answer)
    requires !deps.delegated && j.c.st.mode == C.Available && MacPattern(req.mac)
    requires Live(j.a.files, A.PathOf(deps, req), j.a.now).Some?
    ensures
      var h, r := j.c.nextId, |j.a.jobs|;
      var j1 := Apply(t, deps, j, Begin(req));
      && A.Enabled(j1.a, A.Step(r, ans))
      && var j2 := Apply(t, deps, j1, Pay(A.Step(r, ans)));
      && j2.c == j1.c && j2.granted == j.granted && h in j2.request && j2.a.receipts == j.a.receipts
      && AnswerOf(j2, h) == Some(A.ResumeResult(Live(j.a.files, A.PathOf(deps, req), j.a.now).value, j.a.now))
  {
    var r := |j.a.jobs|;
    var w1 := A.Apply(deps, j.a, A.Arrive(req));
    assert w1.jobs[r] == A.Job(req, A.LookingUp);
    assert A.Advance(deps, w1, r, ans).jobs[r].phase.Done?;
  }

  /**
   * Resumes do happen: while a session is live at the start's path, a start goes through without redeeming
   * anything and is granted the session's whole amount, however much of it is used up.
   */
  lemma ResumedStartPaysNothing(t: C.PriceTable, deps: A.Deps, j: Joint, req: A.Request, unit: string, ans: A.Answer,
      spent0: set<string>)
    requires !deps.delegated && Inv(j, spent0) && j.c.st.mode == C.Available && MacPattern(req.mac)
    requires Live(j.a.files, A.PathOf(deps, req), j.a.now).Some?
    ensures
      var h, r := j.c.nextId, |j.a.jobs|;
      var v := Run(t, deps, j, [Begin(req), Pay(A.Step(r, ans)), Accepted(h, unit), Charge(C.Commit(h))]);
      && v.Some? && h in Resumed(v.value) && v.value.a.receipts == j.a.receipts && h in v.value.granted
      && v.value.granted[h] == Live(j.a.files, A.PathOf(deps, req), j.a.now).value.amount
  {
    var h, r := j.c.nextId, |j.a.jobs|;
    var j1 := Apply(t, deps, j, Begin(req));
    ResumeAnswered(t, deps, j, req, ans);
    var j2 := Apply(t, deps, j1, Pay(A.Step(r, ans)));
    assert r !in j.a.receipts && j2.request[h] == r;
    CommitAccepted(t, deps, j2, h, unit);
    RunFour(t, deps, j, Begin(req), Pay(A.Step(r, ans)), Accepted(h, unit), Charge(C.Commit(h)));
  }

  lemma CommitAccepted(t: C.PriceTable, deps: A.Deps, j: Joint, h: nat, unit: string)
    requires Enabled(j, Accepted(h, unit))
    ensures
      var j1 := Apply(t, deps, j, Accepted(h, unit));
      && Enabled(j1, Charge(C.Commit(h)))
      && var j2 := Apply(t, deps, j1, Charge(C.Commit(h)));
      && j2.a == j.a && j2.request == j.request && h in Started(j2)
      && h in j2.granted && j2.granted[h] == AnswerOf(j, h).value.credit
  {
  }

  lemma RunFour(t: C.PriceTable, deps: A.Deps, j: Joint, w: Move, x: Move, y: Move, z: Move)
    requires Enabled(j, w)
    requires Enabled(Apply(t, deps, j, w), x)
    requires Enabled(Apply(t, deps, Apply(t, deps, j, w), x), y)
    requires Enabled(Apply(t, deps, Apply(t, deps, Apply(t, deps, j, w), x), y), z)
    ensures Run(t, deps, j, [w, x, y, z]) ==
            Some(Apply(t, deps, Apply(t, deps, Apply(t, deps, Apply(t, deps, j, w), x), y), z))
  {
    assert [w, x, y, z][1..] == [x, y, z] && [x, y, z][1..] == [y, z] && [y, z][1..] == [z] && [z][1..] == [];
    var j1 := Apply(t, deps, j, w);
    var j2 := Apply(t, deps, j1, x);
    var j3 := Apply(t, deps, j2, y);
    assert Run(t, deps, j3, [z]) == Some(Apply(t, deps, j3, z));
    assert Run(t, deps, j2, [y, z]) == Run(t, deps, j3, [z]);
    assert Run(t, deps, j1, [x, y, z]) == Run(t, deps, j2, [y, z]);
  }
}
