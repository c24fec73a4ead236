/** VPS orders: one poll of an order at a time, with the worker dying at any await, over whole runs of polls. */
module OrderWorker {
  import opened Common

  datatype Status = AwaitingPayment | Ordering | Provisioning | ConfiguringSsh | Ready | Failed

  datatype Tier = Standard | Professional | Business

  datatype Order = Order(
    checkoutUrl: string, bolt11: string, creditBefore: real, tier: Tier, sshKey: Option<string>, createdAt: int,
    serviceId: Option<int>, hostname: Option<string>, ip: Option<string>, osUser: Option<string>,
    password: Option<string>, checkedAt: Option<int>, status: Status, message: Option<string>)

  datatype Submit = Submit(idempotencyKey: string, hostname: string, packageId: int, pricingId: int)

  datatype Vm = Vm(
    provisioning: Option<string>, service: Option<string>, ips: seq<Option<string>>,
    hostname: Option<string>, osUser: Option<string>)

  datatype Creds = Creds(password: Option<string>, user: Option<string>)

  /** A remote call answers, throws, or is never heard of because the worker dies first. */
  datatype Call<T> = Reply(value: T) | Throws(error: string) | Dies

  /** A KV put succeeds, or the worker dies just before or just after it takes effect. */
  datatype Put = Stored | DiedBefore | DiedAfter

  /** What the outside answers during one poll; puts are numbered within the poll. */
  datatype Answers = Answers(
    decrypts: bool, now: int, balance: Call<real>, submit: Call<seq<int>>, cancel: Call<()>,
    vm: Call<Vm>, ssh: Call<()>, creds: Call<Option<Creds>>, puts: nat -> Put)

  /** How a phase of the poll ended. */
  datatype Outcome = Replied | Threw(error: string) | Died

  const CREDENTIALS_FETCH_COOLDOWN_MS := 10_000

  // JavaScript truthiness
  predicate HasId(id: Option<int>) {
    id.Some? && id.value != 0
  }

  predicate HasText(s: Option<string>) {
    s.Some? && s.value != ""
  }

  /** Falsy values are the missing one, zero and the empty string, and no others. */
  lemma Truthy(id: Option<int>, s: Option<string>)
    ensures !HasId(id) <==> id in {None, Some(0)}
    ensures !HasText(s) <==> s in {None, Some("")}
  {
  }

  function Package(t: Tier): (int, int) {
    match t
    case Standard => (81, 245)
    case Professional => (82, 249)
    case Business => (83, 253)
  }

  function HostnameOf(orderId: string): string {
    "vps-" + (if |orderId| < 8 then orderId else orderId[..8])
  }

  /** The one submission an order ever makes. */
  function SubmitOf(orderId: string, tier: Tier): Submit {
    Submit("order-" + orderId, HostnameOf(orderId), Package(tier).0, Package(tier).1)
  }

  function Rank(s: Status): nat {
    match s
    case AwaitingPayment => 0
    case Ordering => 1
    case Provisioning => 2
    case ConfiguringSsh => 3
    case Ready => 4
    case Failed => 5
  }

  predicate SameOrder(o: Order, n: Order) {
    && n.checkoutUrl == o.checkoutUrl && n.bolt11 == o.bolt11 && n.creditBefore == o.creditBefore
    && n.tier == o.tier && n.sshKey == o.sshKey && n.createdAt == o.createdAt
  }

  /** How a stored order may change: forwards or into failure, ready and failed for good, a service id for good. */
  predicate Advances(o: Order, n: Order) {
    && SameOrder(o, n)
    && Rank(o.status) <= Rank(n.status)
    && (o.status == Ready ==> n.status == Ready)
    && (o.status == Failed ==> n == o)
    && (WellFormed(o) ==> WellFormed(n) && (HasId(o.serviceId) ==> n.serviceId == o.serviceId))
  }

  /** No service before payment, and a service from provisioning on. */
  predicate WellFormed(o: Order) {
    && (o.status == AwaitingPayment ==> !HasId(o.serviceId))
    && (o.status == Provisioning || o.status == ConfiguringSsh || o.status == Ready ==> HasId(o.serviceId))
  }

  /** What one poll may do to the stored order and to the list of submissions. */
  ghost predicate PollStep(orderId: string, o: Option<Order>, n: Option<Order>, before: seq<Submit>,
      after: seq<Submit>) {
    if o.None? then n.None? && after == before
    else
      && n.Some? && Advances(o.value, n.value)
      && (after == before || after == before + [SubmitOf(orderId, o.value.tier)])
      && (after != before ==> Rank(o.value.status) <= 1 && 1 <= Rank(n.value.status))
  }

  /** No put of this poll kills the worker. */
  ghost predicate Calm(a: Answers) {
    forall i: nat :: a.puts(i) == Stored
  }

  /** The provider accepted the submission and named a service. */
  predicate Placed(a: Answers) {
    a.submit.Reply? && |a.submit.value| > 0 && a.submit.value[0] != 0
  }

  /** The submission was answered, but without a service. */
  predicate Refused(a: Answers) {
    a.submit.Throws? || (a.submit.Reply? && !Placed(a))
  }

  /** What an undisturbed poll achieves, phase by phase and answer by answer. */
  ghost predicate Progress(orderId: string, o: Order, a: Answers, n: Order, before: seq<Submit>, after: seq<Submit>) {
    var submitted := after == before + [SubmitOf(orderId, o.tier)];
    match o.status
    case AwaitingPayment =>
      && (a.balance.Dies? ==> n == o && after == before)
      && (a.balance.Throws? ==> n.status == Failed && n.message == Some(a.balance.error) && after == before)
      && (a.balance.Reply? && a.balance.value <= o.creditBefore ==> n == o && after == before)
      && (a.balance.Reply? && a.balance.value > o.creditBefore ==>
            && submitted
            && (Placed(a) ==> n.status == Provisioning && n.serviceId == Some(a.submit.value[0]))
            && (Refused(a) ==> n.status == Failed && n.message == Some(RefusalOf(a)))
            && (a.submit.Dies? ==> n.status == Ordering && n.serviceId == o.serviceId))
    case Ordering =>
      if HasId(o.serviceId) then n.status == Provisioning && n.serviceId == o.serviceId && after == before
      else
        && submitted
        && (Placed(a) && a.cancel.Reply? ==> n.status == Provisioning && n.serviceId == Some(a.submit.value[0]))
        && (Placed(a) && a.cancel.Throws? ==> n.status == Failed && n.message == Some(a.cancel.error))
        && (Refused(a) ==> n.status == Failed && n.message == Some(RefusalOf(a)))
        && (a.submit.Dies? ==> n == o)
    case Provisioning =>
      if !HasId(o.serviceId) then n.status == Failed && n.message == Some("No service_id in provisioning state")
      else
        && (a.vm.Dies? ==> n == o)
        && (a.vm.Throws? ==> n.status == Failed && n.message == Some(a.vm.error))
        && (a.vm.Reply? ==>
              var vm := a.vm.value;
              var up := vm.provisioning == Some("ready") || (vm.service == Some("active") && |vm.ips| > 0);
              var broken := vm.provisioning == Some("failed") || vm.provisioning == Some("error");
              && (!up && broken ==>
                    && n.status == Failed && n.serviceId == o.serviceId
                    && n.message == Some("VM provisioning failed: " + vm.provisioning.value))
              && (!up && !broken ==> n == o)
              && (up && HasText(o.sshKey) ==> n.status == ConfiguringSsh && HostFilled(o, vm, n))
              && (up && !HasText(o.sshKey) && !a.creds.Dies? ==>
                    n.status == Ready && HostFilled(o, vm, n) && Looked(o, a, n)))
    case ConfiguringSsh =>
      !a.ssh.Dies? && !a.creds.Dies? ==> n.status == Ready && n.serviceId == o.serviceId && Looked(o, a, n)
    case Ready => n.status == Ready && n.serviceId == o.serviceId && (!a.creds.Dies? ==> Looked(o, a, n))
    case Failed => n == o
  }

  /** Why the order was refused. */
  function RefusalOf(a: Answers): string {
    if a.submit.Throws? then a.submit.error else "No service_id returned from order submission"
  }

  /** Where the customer finds the machine. */
  ghost predicate HostFilled(o: Order, vm: Vm, n: Order) {
    && n.serviceId == o.serviceId && n.hostname == vm.hostname
    && (|vm.ips| == 0 ==> n.ip == None) && (|vm.ips| > 0 ==> n.ip == vm.ips[0])
    && (n.status == ConfiguringSsh ==> if vm.osUser == None then n.osUser == Some("debian") else n.osUser == vm.osUser)
  }

  /** A missing password that the provider knows is filled in, unless it was asked for within the last ten seconds. */
  ghost predicate Looked(o: Order, a: Answers, n: Order) {
    var due := o.checkedAt == None || o.checkedAt == Some(0) || a.now - o.checkedAt.value >= 10_000;
    o.serviceId != None && o.serviceId != Some(0) && (o.password == None || o.password == Some("")) && due ==>
      && n.checkedAt == Some(a.now)
      && (a.creds.Reply? && a.creds.value.Some? && a.creds.value.value.password !in {None, Some("")} ==>
            n.password == a.creds.value.value.password)
  }

  /** What is stored once an exception, if there was one, has been recorded. */
  function Final(s: Order, out: Outcome, stored: Order): Order {
    if out.Threw? then s.(status := Failed, message := Some(out.error)) else stored
  }

  class Worker {
    const orderId: string
    var kv: Option<Order>
    var submits: seq<Submit>

    constructor (orderId: string, kv: Option<Order>)
      ensures this.orderId == orderId && this.kv == kv && submits == []
    {
      this.orderId := orderId;
      this.kv := kv;
      submits := [];
    }

    method SaveOrder(state: Order, put: Put) returns (alive: bool)
      modifies this`kv
      ensures kv == if put == DiedBefore then old(kv) else Some(state)
      ensures alive == (put == Stored)
    {
      if put != DiedBefore {
        kv := Some(state);
      }
      return put == Stored;
    }

    /** Fills in the password when it is missing, at most every ten seconds; saves only when it looked. */
    method FetchCredentials(state: Order, a: Answers, put: Put) returns (s: Order, alive: bool)
      modifies this`kv
      ensures s == state.(password := s.password, osUser := s.osUser, checkedAt := s.checkedAt)
      ensures kv == old(kv) || kv == Some(s)
      ensures put == Stored && !a.creds.Dies? ==> alive
      ensures
        if HasText(state.password) || !HasId(state.serviceId) ||
           (state.checkedAt.Some? && state.checkedAt.value != 0 && a.now - state.checkedAt.value < 10_000)
        then s == state && kv == old(kv)
        else
          && s.checkedAt == Some(a.now)
          && (put == Stored && !a.creds.Dies? ==> kv == Some(s))
          && (if a.creds.Reply? && a.creds.value.Some? && HasText(a.creds.value.value.password)
              then s.password == a.creds.value.value.password &&
                   s.osUser == if HasText(a.creds.value.value.user) then a.creds.value.value.user else state.osUser
              else s.password == state.password && s.osUser == state.osUser)
    {
      s := state;
      if HasText(s.password) || !HasId(s.serviceId) {
        return s, true;
      }
      if s.checkedAt.Some? && s.checkedAt.value != 0 && a.now - s.checkedAt.value < CREDENTIALS_FETCH_COOLDOWN_MS {
        return s, true;
      }
      s := s.(checkedAt := Some(a.now));
      match a.creds {
        case Dies => return s, false;
        case Throws(_) =>
        case Reply(found) =>
          if found.Some? && HasText(found.value.password) {
            s := s.(password := found.value.password);
            if HasText(found.value.user) {
              s := s.(osUser := found.value.user);
            }
          }
      }
      alive := SaveOrder(s, put);
    }

    /** Submits the order; the caller decides what to do with the service id. */
    method SubmitOrder(state: Order, a: Answers) returns (s: Order, out: Outcome)
      modifies this`submits
      ensures submits == old(submits) + [SubmitOf(orderId, state.tier)]
      ensures
        var sent := submits[|old(submits)|];
        && sent.idempotencyKey == "order-" + orderId
        && (|orderId| >= 8 ==> sent.hostname == "vps-" + orderId[..8])
        && (|orderId| < 8 ==> sent.hostname == "vps-" + orderId)
      ensures out.Threw? ==> out.error == RefusalOf(a)
      ensures s == state.(serviceId := s.serviceId)
      ensures out == Replied <==> Placed(a)
      ensures out.Threw? <==> Refused(a)
      ensures Placed(a) ==> s.serviceId == Some(a.submit.value[0])
      ensures !a.submit.Reply? ==> s == state
    {
      s := state;
      var pkg := Package(state.tier);
      submits := submits + [Submit("order-" + orderId, HostnameOf(orderId), pkg.0, pkg.1)];
      match a.submit {
        case Dies => return s, Died;
        case Throws(e) => return s, Threw(e);
        case Reply(ids) =>
          s := s.(serviceId := if |ids| > 0 then Some(ids[0]) else None);
          if !HasId(s.serviceId) {
            return s, Threw("No service_id returned from order submission");
          }
          return s, Replied;
      }
    }

    method PollAwaiting(state: Order, a: Answers) returns (s: Order, out: Outcome)
      requires state.status == AwaitingPayment && kv.Some? && Similar(state, kv.value)
      modifies this`kv, this`submits
      ensures PollStep(orderId, old(kv), kv, old(submits), submits)
      ensures out.Threw? ==> CanFail(old(kv).value, kv.value, s)
      ensures Calm(a) ==> Progress(orderId, old(kv).value, a, Final(s, out, kv.value), old(submits), submits)
    {
      s := state;
      match a.balance {
        case Dies => return s, Died;
        case Throws(e) => return s, Threw(e);
        case Reply(balance) =>
          if balance <= s.creditBefore {
            return s, Replied;
          }
      }
      s := s.(status := Ordering);
      var alive := SaveOrder(s, a.puts(0));
      if !alive {
        return s, Died;
      }
      s, out := SubmitOrder(s, a);
      if out != Replied {
        return;
      }
      s := s.(status := Provisioning);
      alive := SaveOrder(s, a.puts(1));
      out := if alive then Replied else Died;
    }

    method PollOrdering(state: Order, a: Answers) returns (s: Order, out: Outcome)
      requires state.status == Ordering && kv.Some? && Similar(state, kv.value)
      modifies this`kv, this`submits
      ensures PollStep(orderId, old(kv), kv, old(submits), submits)
      ensures out.Threw? ==> CanFail(old(kv).value, kv.value, s)
      ensures Calm(a) ==> Progress(orderId, old(kv).value, a, Final(s, out, kv.value), old(submits), submits)
    {
      s := state;
      if !HasId(s.serviceId) {
        s, out := SubmitOrder(s, a);
        if out != Replied {
          return;
        }
        match a.cancel {
          case Dies => return s, Died;
          case Throws(e) => return s, Threw(e);
          case Reply(_) =>
        }
      }
      s := s.(status := Provisioning);
      var alive := SaveOrder(s, a.puts(0));
      out := if alive then Replied else Died;
    }

    method PollProvisioning(state: Order, a: Answers) returns (s: Order, out: Outcome)
      requires state.status == Provisioning && kv.Some? && Similar(state, kv.value)
      modifies this`kv
      ensures PollStep(orderId, old(kv), kv, submits, submits)
      ensures out.Threw? ==> CanFail(old(kv).value, kv.value, s)
      ensures Calm(a) ==> Progress(orderId, old(kv).value, a, Final(s, out, kv.value), submits, submits)
    {
      s := state;
      if !HasId(s.serviceId) {
        return s, Threw("No service_id in provisioning state");
      }
      var vm: Vm;
      match a.vm {
        case Dies => return s, Died;
        case Throws(e) => return s, Threw(e);
        case Reply(v) => vm := v;
      }
      if vm.provisioning == Some("ready") || (vm.service == Some("active") && |vm.ips| > 0) {
        s := s.(hostname := vm.hostname, ip := if |vm.ips| > 0 then vm.ips[0] else None,
                osUser := if vm.osUser.Some? then vm.osUser else Some("debian"));
        if HasText(s.sshKey) {
          s := s.(status := ConfiguringSsh);
          var saved := SaveOrder(s, a.puts(0));
          return s, if saved then Replied else Died;
        }
        s, out := BecomeReady(s, a);
        return;
      }
      if vm.provisioning == Some("failed") || vm.provisioning == Some("error") {
        return s, Threw("VM provisioning failed: " + vm.provisioning.value);
      }
      return s, Replied;
    }

    method PollConfiguring(state: Order, a: Answers) returns (s: Order, out: Outcome)
      requires state.status == ConfiguringSsh && kv.Some? && Similar(state, kv.value)
      modifies this`kv
      ensures PollStep(orderId, old(kv), kv, submits, submits)
      ensures !out.Threw?
      ensures Calm(a) ==> Progress(orderId, old(kv).value, a, Final(s, out, kv.value), submits, submits)
    {
      s := state;
      if HasId(s.serviceId) && HasText(s.sshKey) {
        if a.ssh.Dies? {
          return s, Died;
        }
        // an exception here is swallowed
      }
      s, out := BecomeReady(s, a);
    }

    /** The common ending: status ready, credentials looked up once, order saved. */
    method BecomeReady(state: Order, a: Answers) returns (s: Order, out: Outcome)
      modifies this`kv
      ensures s == state.(status := Ready, password := s.password, osUser := s.osUser, checkedAt := s.checkedAt)
      ensures kv == old(kv) || (kv.Some? && ReadyFrom(state, kv.value))
      ensures !out.Threw?
      ensures a.puts(0) == a.puts(1) == Stored && !a.creds.Dies? ==> kv == Some(s) && Looked(state, a, s)
    {
      s := state.(status := Ready);
      var alive;
      s, alive := FetchCredentials(s, a, a.puts(0));
      if !alive {
        return s, Died;
      }
      alive := SaveOrder(s, a.puts(1));
      out := if alive then Replied else Died;
    }

    method PollReady(state: Order, a: Answers) returns (s: Order, out: Outcome)
      requires state.status == Ready && kv.Some? && Similar(state, kv.value)
      modifies this`kv
      ensures PollStep(orderId, old(kv), kv, submits, submits)
      ensures !out.Threw?
      ensures Calm(a) ==> Progress(orderId, old(kv).value, a, Final(s, out, kv.value), submits, submits)
    {
      s := state;
      out := Replied;
      if !HasText(s.password) && HasId(s.serviceId) {
        var alive;
        s, alive := FetchCredentials(s, a, a.puts(0));
        out := if alive then Replied else Died;
      }
    }

    /** One poll of GET /api/status/:order_id, from reading the order to the reply, an exception, or death. */
    method HandleStatus(a: Answers)
      modifies this
      ensures PollStep(orderId, old(kv), kv, old(submits), submits)
      ensures old(kv).Some? && Calm(a) ==> Progress(orderId, old(kv).value, a, kv.value, old(submits), submits)
    {
      if kv.None? {
        return;
      }
      var state := kv.value;
      if HasText(state.password) && !a.decrypts {
        state := state.(password := None);
      }
      ghost var first := kv.value;
      var s, out := state, Replied;
      match state.status {
        case AwaitingPayment => s, out := PollAwaiting(state, a);
        case Ordering => s, out := PollOrdering(state, a);
        case Provisioning => s, out := PollProvisioning(state, a);
        case ConfiguringSsh => s, out := PollConfiguring(state, a);
        case Ready => s, out := PollReady(state, a);
        case Failed =>
      }
      if out.Threw? {
        FailureIsStep(orderId, first, kv.value, s, out.error, old(submits), submits);
        s := s.(status := Failed, message := Some(out.error));
        var alive := SaveOrder(s, a.puts(2));
      }
    }

    /** Any number of polls, one after the other; the history they leave is a legal one. */
    method PollAll(answers: seq<Answers>) returns (ghost h: seq<Snapshot>)
      modifies this
      ensures |h| == |answers| + 1 && h[0] == Snapshot(old(kv), old(submits)) && h[|answers|] == Snapshot(kv, submits)
      ensures History(orderId, h) && ProgressMade(orderId, h, answers)
      ensures NewOrder(h[0]) ==> forall i, j :: 0 <= i <= j < |h| ==> OnlyAdvanced(orderId, h, i, j)
      ensures NewOrder(h[0]) ==>
                forall i :: 0 <= i < |answers| - 2 && GoodPolls(h, answers, i) ==> ReadyOrFailed(h[i + 3])
    {
      h := [Snapshot(kv, submits)];
      for n := 0 to |answers|
        invariant |h| == n + 1 && h[0] == Snapshot(old(kv), old(submits)) && h[n] == Snapshot(kv, submits)
        invariant History(orderId, h) && ProgressMade(orderId, h, answers[..n])
      {
        HandleStatus(answers[n]);
        h := h + [Snapshot(kv, submits)];
      }
      assert answers[..|answers|] == answers;
      if NewOrder(h[0]) {
        forall i, j | 0 <= i <= j < |h| ensures OnlyAdvanced(orderId, h, i, j) {
          OrdersOnlyAdvance(orderId, h, i, j);
        }
        forall i | 0 <= i < |answers| - 2 && GoodPolls(h, answers, i) ensures ReadyOrFailed(h[i + 3]) {
          ThreeGoodPolls(orderId, h, answers, i);
        }
      }
    }
  }

  /** A working copy differs from the stored order at most in a password that could not be decrypted. */
  predicate Similar(state: Order, stored: Order) {
    state == stored.(password := state.password) && (state.password == None || state.password == stored.password)
  }

  predicate ReadyFrom(o: Order, n: Order) {
    n == o.(status := Ready, password := n.password, osUser := n.osUser, checkedAt := n.checkedAt)
  }

  /** The working copy at an exception: the same order, not past ready, its service id kept. */
  ghost predicate CanFail(first: Order, stored: Order, s: Order) {
    && SameOrder(first, s) && Rank(first.status) < 4
    && (WellFormed(first) && HasId(first.serviceId) ==> s.serviceId == first.serviceId)
    && SameOrder(stored, s) && stored.status != Ready && stored.status != Failed
  }

  /** Storing the failed copy is still a legal poll. */
  lemma FailureIsStep(orderId: string, first: Order, stored: Order, s: Order, error: string, before: seq<Submit>,
      after: seq<Submit>)
    requires CanFail(first, stored, s)
    requires PollStep(orderId, Some(first), Some(stored), before, after)
    ensures PollStep(orderId, Some(first), Some(s.(status := Failed, message := Some(error))), before, after)
  {
  }

  // ----- Runs of polls -----

  datatype Snapshot = Snapshot(kv: Option<Order>, submits: seq<Submit>)

  /** A history: each snapshot follows from the one before by one poll. */
  ghost predicate History(orderId: string, h: seq<Snapshot>) {
    forall i :: 0 <= i < |h| - 1 ==> PollStep(orderId, h[i].kv, h[i + 1].kv, h[i].submits, h[i + 1].submits)
  }

  lemma AdvancesTransitive(a: Order, b: Order, c: Order)
    requires Advances(a, b) && Advances(b, c)
    ensures Advances(a, c)
  {
  }

  lemma {:induction false} HistoryAdvances(orderId: string, h: seq<Snapshot>, i: nat, j: nat)
    requires History(orderId, h) && i <= j < |h| && h[i].kv.Some?
    ensures h[j].kv.Some? && Advances(h[i].kv.value, h[j].kv.value)
    decreases j - i
  {
    if i < j {
      HistoryAdvances(orderId, h, i, j - 1);
      assert PollStep(orderId, h[j - 1].kv, h[j].kv, h[j - 1].submits, h[j].submits);
      AdvancesTransitive(h[i].kv.value, h[j - 1].kv.value, h[j].kv.value);
    }
  }

  lemma {:induction false} HistorySubmits(orderId: string, h: seq<Snapshot>, j: nat)
    requires History(orderId, h) && j < |h| && h[0].kv.Some? && h[0].submits == []
    ensures h[j].kv.Some? && Advances(h[0].kv.value, h[j].kv.value)
    ensures forall s :: s in h[j].submits ==> s == SubmitOf(orderId, h[0].kv.value.tier)
    ensures h[0].kv.value.status == AwaitingPayment && h[j].kv.value.status == AwaitingPayment ==> h[j].submits == []
  {
    if j > 0 {
      HistorySubmits(orderId, h, j - 1);
      HistoryAdvances(orderId, h, 0, j);
      HistoryAdvances(orderId, h, 0, j - 1);
      assert PollStep(orderId, h[j - 1].kv, h[j].kv, h[j - 1].submits, h[j].submits);
    }
  }

  lemma {:induction false} NoMoreSubmits(orderId: string, h: seq<Snapshot>, i: nat, j: nat)
    requires History(orderId, h) && i <= j < |h| && h[i].kv.Some? && Rank(h[i].kv.value.status) >= 2
    ensures h[j].submits == h[i].submits
    decreases j - i
  {
    if i < j {
      NoMoreSubmits(orderId, h, i, j - 1);
      HistoryAdvances(orderId, h, i, j - 1);
      assert PollStep(orderId, h[j - 1].kv, h[j].kv, h[j - 1].submits, h[j].submits);
    }
  }

  /** An order as it is first stored, before any submission. */
  predicate NewOrder(s: Snapshot) {
    && s.kv.Some? && s.submits == []
    && s.kv.value.status == AwaitingPayment && s.kv.value.serviceId.None?
  }

  /** What holds between two moments of an order's history. */
  ghost predicate OnlyAdvanced(orderId: string, h: seq<Snapshot>, i: nat, j: nat)
    requires i <= j < |h|
  {
    && h[i].kv.Some? && h[j].kv.Some?
    && var a, b := h[i].kv.value, h[j].kv.value;
    && Rank(a.status) <= Rank(b.status)
    && (a.status == Ready || a.status == Failed ==> b.status == a.status)
    && WellFormed(a) && WellFormed(b)
    && (HasId(a.serviceId) ==> b.serviceId == a.serviceId)
    && SameOrder(a, b)
    && (forall s :: s in h[j].submits ==> s == SubmitOf(orderId, a.tier))
    && (Rank(a.status) >= 2 ==> h[j].submits == h[i].submits)
  }

  /**
   * Over any run of polls, with the worker dying at any await: an order's status never moves backwards and only
   * leaves the line for failure, ready and failed are final, provisioning or later has a service id that never
   * changes again, every submission carries the same key and arguments, and none follows once provisioning began.
   */
  lemma OrdersOnlyAdvance(orderId: string, h: seq<Snapshot>, i: nat, j: nat)
    requires History(orderId, h) && i <= j < |h| && NewOrder(h[0])
    ensures OnlyAdvanced(orderId, h, i, j)
  {
    HistoryAdvances(orderId, h, 0, i);
    HistoryAdvances(orderId, h, 0, j);
    HistoryAdvances(orderId, h, i, j);
    HistorySubmits(orderId, h, j);
    if Rank(h[i].kv.value.status) >= 2 {
      NoMoreSubmits(orderId, h, i, j);
    }
  }

  /** Each undisturbed poll of a history made the progress it should. */
  ghost predicate ProgressMade(orderId: string, h: seq<Snapshot>, answers: seq<Answers>) {
    && |h| == |answers| + 1
    && forall i :: 0 <= i < |answers| && Calm(answers[i]) && h[i].kv.Some? ==>
         && h[i + 1].kv.Some?
         && Progress(orderId, h[i].kv.value, answers[i], h[i + 1].kv.value, h[i].submits, h[i + 1].submits)
  }

  /** The invoice is paid, the provider does its part, and nothing interrupts the worker. */
  ghost predicate Favourable(o: Order, a: Answers) {
    && Calm(a) && a.balance.Reply? && a.balance.value > o.creditBefore
    && Placed(a) && a.cancel.Reply? && a.vm.Reply? && a.vm.value.provisioning == Some("ready")
    && !a.ssh.Dies? && !a.creds.Dies?
  }

  ghost predicate GoodPolls(h: seq<Snapshot>, answers: seq<Answers>, i: nat)
    requires i + 3 <= |answers| && |h| == |answers| + 1
  {
    h[0].kv.Some? && forall k :: i <= k < i + 3 ==> Favourable(h[0].kv.value, answers[k])
  }

  predicate ReadyOrFailed(s: Snapshot) {
    s.kv.Some? && (s.kv.value.status == Ready || s.kv.value.status == Failed)
  }

  /** Whatever crashes came before, three favourable polls in a row finish an order that has not failed. */
  lemma ThreeGoodPolls(orderId: string, h: seq<Snapshot>, answers: seq<Answers>, i: nat)
    requires History(orderId, h) && ProgressMade(orderId, h, answers) && NewOrder(h[0])
    requires i + 3 <= |answers| && GoodPolls(h, answers, i)
    ensures ReadyOrFailed(h[i + 3])
    ensures h[i].kv.Some? && (h[i].kv.value.status != Failed ==> h[i + 3].kv.value.status == Ready)
  {
    OrdersOnlyAdvance(orderId, h, i, i + 3);
    GoodPoll(orderId, h, answers, i, i);
    GoodPoll(orderId, h, answers, i, i + 1);
    GoodPoll(orderId, h, answers, i, i + 2);
  }

  /** One favourable poll takes every phase to a later one. */
  lemma GoodPoll(orderId: string, h: seq<Snapshot>, answers: seq<Answers>, i: nat, k: nat)
    requires History(orderId, h) && ProgressMade(orderId, h, answers) && NewOrder(h[0])
    requires i + 3 <= |answers| && GoodPolls(h, answers, i) && i <= k < i + 3
    ensures h[k].kv.Some? && h[k + 1].kv.Some?
    ensures
      var a, b := h[k].kv.value.status, h[k + 1].kv.value.status;
      match a
      case AwaitingPayment => b == Provisioning
      case Ordering => b == Provisioning
      case Provisioning => b == ConfiguringSsh || b == Ready
      case ConfiguringSsh => b == Ready
      case Ready => b == Ready
      case Failed => b == Failed
  {
    OrdersOnlyAdvance(orderId, h, 0, k);
    OrdersOnlyAdvance(orderId, h, k, k);
    assert Calm(answers[k]);
  }

  // ----- Different orders -----

  /** What the provider is asked for tells every two tiers apart. */
  lemma TiersApart(a: string, b: string, s: Tier, t: Tier)
    ensures SubmitOf(a, s).packageId == SubmitOf(b, t).packageId <==> s == t
    ensures SubmitOf(a, s).pricingId == SubmitOf(b, t).pricingId <==> s == t
    ensures SubmitOf(a, s).pricingId in {245, 249, 253} && SubmitOf(a, s).packageId in {81, 82, 83}
  {
  }

  /**
   * Over any two histories of polls: a submission made for one order has the key of one made for the other exactly
   * when it is the same order, and asks for the same product exactly when the tiers agree.
   */
  lemma KeysTellOrdersApart(a: string, b: string, g: seq<Snapshot>, h: seq<Snapshot>, i: nat, j: nat,
                            s: Submit, t: Submit)
    requires History(a, g) && i < |g| && NewOrder(g[0]) && s in g[i].submits
    requires History(b, h) && j < |h| && NewOrder(h[0]) && t in h[j].submits
    ensures s.idempotencyKey == t.idempotencyKey <==> a == b
    ensures (s.packageId == t.packageId && s.pricingId == t.pricingId) <==> g[0].kv.value.tier == h[0].kv.value.tier
  {
    HistorySubmits(a, g, i);
    HistorySubmits(b, h, j);
    TiersApart(a, b, g[0].kv.value.tier, h[0].kv.value.tier);
    if s.idempotencyKey == t.idempotencyKey {
      assert s.idempotencyKey[6..] == a && t.idempotencyKey[6..] == b;
    }
  }
}
