/**
 * The payment protocol: requests that look up a session, ask the mint, redeem and save, interleaved step by
 * step with each other, with cleanup and with the passing of time.
 */
module AuthProtocol {
  import opened Common
  import opened Payment
  import opened Sessions
  import Ledger
  import Token = CashuToken

  datatype Request = Request(username: string, mac: string, password: string, cleartext: string)

  /** What the pipeline is configured with; hashing and token decoding are not looked into here. */
  datatype Deps = Deps(
    delegated: bool, operatorId: string, nasId: string,
    hash: string -> string, decode: string -> Option<Token.TokenData>, testMint: string -> bool)

  datatype Reply = Paid | Resumed | Bootstrapped

  datatype Reason =
    | BadMac | NoCredential | LnurlwDisabled | BadToken | ZeroValue | MintNotAllowed
    | RedeemFailed | AlreadySpent | TokenPending | UnknownState | BootstrapFailed | ZeroAllotment

  datatype AuthResult =
    | Accept(reply: Reply, timeout: int, classAttr: string, credit: int, mint: string, token: string)
    | Reject(reason: Reason)

  /** Where a request stands between two of its accesses to shared state. */
  datatype Phase =
    | LookingUp
    | LookedUp(stale: bool)
    | Checking(cred: Credential, token: Token.TokenData)
    | Redeeming(cred: Credential, token: Token.TokenData)
    | SpentLookup(cred: Credential, token: Token.TokenData)
    | Finding(cred: Credential, token: Token.TokenData)
    | Bootstrapping(cred: Credential, token: Token.TokenData)
    | Saving(rec: Record, result: AuthResult)
    | Done(result: AuthResult)
    | Recorded(result: AuthResult)

  datatype BootResult = BootResult(allotmentMs: nat, credit: nat)

  /** What the outside world answers at a step: each step uses the part it asks for. */
  datatype Answer = Answer(
    state: Option<Token.ProofState>, redeemOk: bool, boot: Option<BootResult>,
    classAttr: string, saved: WriteOutcome)

  datatype Job = Job(req: Request, phase: Phase)

  datatype World = World(
    files: Files,
    spent: set<string>,
    now: int,
    jobs: map<nat, Job>,
    receipts: map<nat, Token.TokenData>,
    ledger: seq<Ledger.Entry>)

  function SessionId(req: Request): string {
    if req.mac == "" then "user:" + req.username else req.mac
  }

  function PathOf(deps: Deps, req: Request): string {
    Path(deps.hash, SessionId(req))
  }

  /** The secrets of a token's proofs. */
  function Secrets(token: Token.TokenData): set<string> {
    set p | p in token.proofs :: p.secret
  }

  /** The mint redeems a token only when its proofs are distinct and all unspent; the wallet refuses long tokens. */
  predicate Redeemable(value: string, token: Token.TokenData, spent: set<string>) {
    |value| <= 4096 && |Secrets(token)| == |token.proofs| && Secrets(token) !! spent
  }

  function ResumeResult(rec: Record, now: int): AuthResult {
    var seconds := (Deadline(rec) - now) / NS;
    Accept(Resumed, if seconds < 1 then 1 else seconds, rec.classAttr, rec.amount, rec.mint, rec.token)
  }

  function PaidRecord(deps: Deps, req: Request, cred: Credential, token: Token.TokenData, classAttr: string,
      now: int): Record {
    var h := deps.hash(cred.value);
    Record(SessionId(req), h, "radius-" + Prefix(h, 16), token.mint, token.amount, token.unit,
           now, Seconds(token.amount), cred.source, Cashu, classAttr)
  }

  function PaidResult(deps: Deps, cred: Credential, token: Token.TokenData, classAttr: string): AuthResult {
    Accept(Paid, Seconds(token.amount), classAttr, token.amount, token.mint, deps.hash(cred.value))
  }

  function BootSeconds(b: BootResult): int {
    b.allotmentMs / 1000
  }

  function BootAmount(b: BootResult): int {
    if b.credit > 0 then Wrap64(b.credit) else BootSeconds(b) / 60
  }

  function BootRecord(deps: Deps, req: Request, cred: Credential, token: Token.TokenData, b: BootResult,
      classAttr: string, now: int): Record {
    var h := deps.hash(cred.value);
    Record(SessionId(req), h, "radius-delegated-" + Prefix(h, 16), token.mint, BootAmount(b), token.unit,
           now, BootSeconds(b), cred.source, Cashu, classAttr)
  }

  function BootAccept(deps: Deps, cred: Credential, b: BootResult, classAttr: string): AuthResult {
    Accept(Bootstrapped, BootSeconds(b), classAttr, BootAmount(b), "delegated", deps.hash(cred.value))
  }

  /** The decisions that touch no shared state, once the first lookup is out of the way. */
  function Prepare(deps: Deps, req: Request): Phase {
    var found := ExtractPayment(req.username, req.password, req.cleartext);
    if found.None? then Done(Reject(NoCredential))
    else if found.value.kind == Lnurlw then Done(Reject(LnurlwDisabled))
    else
      var cred := found.value;
      var token := deps.decode(cred.value);
      if token.None? then Done(Reject(BadToken))
      else if token.value.amount <= 0 then Done(Reject(ZeroValue))
      else if deps.delegated then Finding(cred, token.value)
      else if !deps.testMint(token.value.mint) then Done(Reject(MintNotAllowed))
      else Checking(cred, token.value)
  }

  function Start(deps: Deps, req: Request): Phase {
    if !MacPattern(req.mac) then Done(Reject(BadMac))
    else if deps.delegated then Prepare(deps, req)
    else LookingUp
  }

  function EntryOf(deps: Deps, req: Request, result: AuthResult, now: int): Ledger.Entry {
    match result
    case Accept(_, timeout, classAttr, credit, mint, token) =>
      Ledger.Entry(now / NS, Ledger.AuthAccept, deps.operatorId, deps.nasId, req.mac,
                   credit, timeout, mint, token, classAttr)
    case Reject(_) =>
      Ledger.Entry(now / NS, Ledger.AuthReject, deps.operatorId, deps.nasId, req.mac, 0, 0, "", "", "")
  }

  /** What one step does: the session files afterwards, the next phase, and at most one redemption or ledger entry. */
  datatype Effect = Effect(files: Files, phase: Phase, redeemed: Option<Token.TokenData>, entry: Option<Ledger.Entry>)

  function To(files: Files, phase: Phase): Effect {
    Effect(files, phase, None, None)
  }

  /** One step of a request: at most one access to shared state, then local decisions. */
  function StepEffect(deps: Deps, req: Request, phase: Phase, files: Files, spent: set<string>, now: int,
      a: Answer): Effect {
    var path := PathOf(deps, req);
    match phase
    case LookingUp =>
      var live := Live(files, path, now);
      To(files, if live.Some? then Done(ResumeResult(live.value, now)) else LookedUp(Get(files, path).Some?))
    case LookedUp(stale) =>
      To(if stale then files - {path} else files, Prepare(deps, req))
    case Checking(cred, token) =>
      To(files, match a.state
                case Some(Unspent) => Redeeming(cred, token)
                case Some(Spent) => SpentLookup(cred, token)
                case Some(Pending) => Done(Reject(TokenPending))
                case None => Done(Reject(UnknownState)))
    case Redeeming(cred, token) =>
      if a.redeemOk && Redeemable(cred.value, token, spent) then
        Effect(files,
               Saving(PaidRecord(deps, req, cred, token, a.classAttr, now), PaidResult(deps, cred, token, a.classAttr)),
               Some(token), None)
      else To(files, Done(Reject(RedeemFailed)))
    case SpentLookup(cred, token) =>
      var live := Live(files, path, now);
      To(files, Done(if live.Some? then ResumeResult(live.value, now) else Reject(AlreadySpent)))
    case Finding(cred, token) =>
      var live := Live(files, path, now);
      To(files, if live.Some? then Done(ResumeResult(live.value, now)) else Bootstrapping(cred, token))
    case Bootstrapping(cred, token) =>
      To(files,
         if a.boot.None? then Done(Reject(BootstrapFailed))
         else if BootSeconds(a.boot.value) <= 0 then Done(Reject(ZeroAllotment))
         else Saving(BootRecord(deps, req, cred, token, a.boot.value, a.classAttr, now),
                     BootAccept(deps, cred, a.boot.value, a.classAttr)))
    case Saving(rec, result) =>
      To(SaveTo(files, path, rec, a.saved), Done(result))
    case Done(result) =>
      Effect(files, Recorded(result), None, Some(EntryOf(deps, req, result, now)))
    case Recorded(_) => To(files, phase)
  }

  /** The effect of request r's next step in this world. */
  function EffectOf(deps: Deps, w: World, r: nat, a: Answer): Effect
    requires r in w.jobs
  {
    StepEffect(deps, w.jobs[r].req, w.jobs[r].phase, w.files, w.spent, w.now, a)
  }

  /** Carrying out an effect of request r. */
  function Take(w: World, r: nat, e: Effect): World
    requires r in w.jobs
  {
    World(e.files,
          if e.redeemed.Some? then w.spent + Secrets(e.redeemed.value) else w.spent,
          w.now,
          w.jobs[r := Job(w.jobs[r].req, e.phase)],
          if e.redeemed.Some? then w.receipts[r := e.redeemed.value] else w.receipts,
          if e.entry.Some? then w.ledger + [e.entry.value] else w.ledger)
  }

  function Advance(deps: Deps, w: World, r: nat, a: Answer): World
    requires r in w.jobs
  {
    Take(w, r, EffectOf(deps, w, r, a))
  }

  datatype Action =
    | Arrive(req: Request)
    | Step(r: nat, answer: Answer)
    | Cleanup
    | Tick(dt: nat)

  /** Request ids are given out in order of arrival. */
  ghost predicate Numbered(w: World) {
    forall r :: r in w.jobs <==> 0 <= r < |w.jobs|
  }

  lemma Grown(jobs: map<nat, Job>, k: nat, job: Job)
    requires k !in jobs
    ensures |jobs[k := job]| == |jobs| + 1
  {
    assert jobs[k := job].Keys == jobs.Keys + {k};
    assert |jobs[k := job]| == |jobs[k := job].Keys|;
  }

  predicate Enabled(w: World, a: Action) {
    a.Step? ==> a.r in w.jobs
  }

  function Apply(deps: Deps, w: World, a: Action): World
    requires Enabled(w, a)
  {
    match a
    case Arrive(req) => w.(jobs := w.jobs[|w.jobs| := Job(req, Start(deps, req))])
    case Step(r, answer) => Advance(deps, w, r, answer)
    case Cleanup => w.(files := Cleaned(w.files, w.now))
    case Tick(dt) => w.(now := w.now + dt)
  }

  /** The world after a run, or None when the run steps a request that never arrived. */
  function Run(deps: Deps, w: World, actions: seq<Action>): Option<World>
    decreases |actions|
  {
    if actions == [] then Some(w)
    else if !Enabled(w, actions[0]) then None
    else Run(deps, Apply(deps, w, actions[0]), actions[1..])
  }

  /** Running one sequence after another. */
  lemma {:induction false} RunConcat(deps: Deps, w: World, xs: seq<Action>, ys: seq<Action>)
    ensures Run(deps, w, xs + ys) ==
            if Run(deps, w, xs).None? then None else Run(deps, Run(deps, w, xs).value, ys)
    decreases |xs|
  {
    if xs == [] {
      assert xs + ys == ys;
    } else {
      assert (xs + ys)[0] == xs[0] && (xs + ys)[1..] == xs[1..] + ys;
      if Enabled(w, xs[0]) {
        RunConcat(deps, Apply(deps, w, xs[0]), xs[1..], ys);
      }
    }
  }

  lemma RunOne(deps: Deps, w: World, x: Action)
    ensures Run(deps, w, [x]) == if Enabled(w, x) then Some(Apply(deps, w, x)) else None
  {
    assert [x][1..] == [];
  }

  predicate Initial(w: World) {
    w.jobs == map[] && w.receipts == map[] && w.ledger == []
  }

  predicate Finished(p: Phase) {
    p.Done? || p.Recorded?
  }

  predicate Quiet(w: World) {
    forall r :: r in w.jobs ==> Finished(w.jobs[r].phase)
  }

  predicate Settled(w: World) {
    forall r :: r in w.jobs ==> w.jobs[r].phase.Recorded?
  }

  function Answered(w: World, r: nat): Option<AuthResult> {
    if r in w.jobs && Finished(w.jobs[r].phase) then Some(w.jobs[r].phase.result) else None
  }
}
