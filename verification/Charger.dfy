/** The EV charger: one charger object under a lock, start and stop handlers, and one monitor per start. */
module Charger {
  import opened Common

  // ----- Pricing: exact reals stand for float64 -----

  type PriceTable = map<string, real>

  const DEFAULT_CURRENCY := "sat"

  /** A Go map read yields zero for a missing key. */
  function Price(t: PriceTable, unit: string): real {
    if unit in t then t[unit]
    else if DEFAULT_CURRENCY in t then t[DEFAULT_CURRENCY]
    else 0.0
  }

  function MaxKwh(t: PriceTable, credit: int, unit: string): real
    requires credit > 0 ==> Price(t, unit) != 0.0
  {
    if credit <= 0 then 0.0 else credit as real / Price(t, unit)
  }

  /** The credit lasts exactly until the maximum is delivered. */
  lemma CreditLastsToMaxKwh(t: PriceTable, credit: int, unit: string, kwh: real)
    requires Price(t, unit) > 0.0 && credit >= 0
    ensures credit as real - kwh * Price(t, unit) <= 0.0 <==> kwh >= MaxKwh(t, credit, unit)
  {
    var p := Price(t, unit);
    if credit > 0 {
      var m := MaxKwh(t, credit, unit);
      assert m * p == credit as real;
      if kwh >= m {
        assert (kwh - m) * p >= 0.0;
      } else {
        assert (m - kwh) * p > 0.0;
      }
    } else if kwh >= 0.0 {
      assert kwh * p >= 0.0;
    } else {
      assert kwh * p < 0.0;
    }
  }

  // ----- The charger under its lock; times are in hours -----

  const DEFAULT_POWER_KW: real := 7.4

  datatype Mode = Available | Starting | Charging | Blocked

  /** The fields of a live session that the state machine reads; `start` is the handler that created it. */
  datatype Session = Session(start: nat, startedAt: real, credit: int, unit: string, powerKw: real)

  datatype Cdr = Cdr(start: nat, startedAt: real, stoppedAt: real, kwh: real, creditUsed: real)

  datatype State = State(mode: Mode, session: Option<Session>)

  function Delivered(s: Session, now: real): real {
    s.powerKw * (now - s.startedAt)
  }

  function Remaining(t: PriceTable, s: Session, now: real): real {
    s.credit as real - Delivered(s, now) * Price(t, s.unit)
  }

  datatype Finish = Finish(state: State, cdr: Option<Cdr>, kwh: real, used: real, remaining: real)

  /**
   * Ending the current session: `now` is the reading the energy is computed from, `stopped` the later one in the
   * record.
   */
  function Finished(t: PriceTable, st: State, now: real, stopped: real): Finish {
    if st.session.None? || st.mode != Charging then Finish(st, None, 0.0, 0.0, 0.0)
    else
      var s := st.session.value;
      var kwh := Delivered(s, now);
      var used := kwh * Price(t, s.unit);
      var left := s.credit as real - used;
      Finish(State(Available, None), Some(Cdr(s.start, s.startedAt, stopped, kwh, used)),
             kwh, used, if left < 0.0 then 0.0 else left)
  }

  /** Ending session s at clock reading `read`: what is reported and recorded, in plain arithmetic. */
  ghost predicate Settlement(t: PriceTable, s: Session, read: real, stopped: real,
                             kwh: real, used: real, remaining: real, cdr: Cdr) {
    var price := if s.unit in t then t[s.unit] else if "sat" in t then t["sat"] else 0.0;
    && kwh == s.powerKw * (read - s.startedAt)
    && used == kwh * price
    && (used <= s.credit as real ==> used + remaining == s.credit as real)
    && (used > s.credit as real ==> remaining == 0.0)
    && cdr == Cdr(s.start, s.startedAt, stopped, kwh, used)
  }

  class ChargerState {
    const prices: PriceTable
    var mode: Mode
    var session: Option<Session>
    var cdrs: seq<Cdr>

    constructor (prices: PriceTable)
      ensures this.prices == prices && View() == State(Available, None) && cdrs == []
    {
      this.prices := prices;
      mode := Available;
      session := None;
      cdrs := [];
    }

    ghost function View(): State
      reads this
    {
      State(mode, session)
    }

    /** First critical section of a start. */
    method Claim() returns (ok: bool)
      modifies this`mode
      ensures ok <==> old(mode) == Available
      ensures mode == if ok then Starting else old(mode)
    {
      if mode != Available {
        return false;
      }
      mode := Starting;
      return true;
    }

    /** Second critical section of a start whose payment or provider check failed. */
    method Release()
      modifies this`mode
      ensures mode == Available
    {
      mode := Available;
    }

    /** Second critical section of a start that was accepted. */
    method Commit(s: Session)
      modifies this`mode, this`session
      ensures View() == State(Charging, Some(s))
    {
      mode := Charging;
      session := Some(s);
    }

    method FinishCharging(now: real, stopped: real) returns (kwh: real, used: real, remaining: real)
      modifies this
      ensures
        var f := Finished(prices, old(View()), now, stopped);
        && View() == f.state && kwh == f.kwh && used == f.used && remaining == f.remaining
        && cdrs == old(cdrs) + (if f.cdr.Some? then [f.cdr.value] else [])
      ensures old(mode) == Charging && old(session).Some? ==>
                && mode == Available && session == None && |cdrs| == |old(cdrs)| + 1
                && Settlement(prices, old(session).value, now, stopped, kwh, used, remaining, cdrs[|old(cdrs)|])
      ensures !(old(mode) == Charging && old(session).Some?) ==>
                cdrs == old(cdrs) && kwh == used == remaining == 0.0
    {
      if session == None || mode != Charging {
        return 0.0, 0.0, 0.0;
      }
      var s := session.value;
      kwh := s.powerKw * (now - s.startedAt);
      used := kwh * Price(prices, s.unit);
      remaining := s.credit as real - used;
      if remaining < 0.0 {
        remaining := 0.0;
      }
      cdrs := cdrs + [Cdr(s.start, s.startedAt, stopped, kwh, used)];
      mode := Available;
      session := None;
    }

    /**
     * One tick of a monitor: reads the clock, then finishes when the credit is gone; returns whether the monitor
     * exits.
     */
    method MonitorTick(now: real, later: real, stopped: real) returns (exits: bool)
      modifies this
      ensures exits <==>
                old(mode) != Charging || old(session).None? || Remaining(prices, old(session).value, now) <= 0.0
      ensures
        var f := Finished(prices, old(View()), later, stopped);
        if old(mode) == Charging && old(session).Some? && exits
        then View() == f.state && f.cdr.Some? && cdrs == old(cdrs) + [f.cdr.value]
        else View() == old(View()) && cdrs == old(cdrs)
    {
      if mode != Charging || session == None {
        return true;
      }
      var s := session.value;
      var kwh := s.powerKw * (now - s.startedAt);
      if s.credit as real - kwh * Price(prices, s.unit) <= 0.0 {
        var k, u, r := FinishCharging(later, stopped);
        return true;
      }
      return false;
    }
  }

  // ----- Handlers and monitors, interleaved -----

  /** A start handler between its critical sections, or a monitor; `since` is its last tick, or its session's start. */
  datatype Task =
    | Authorising
    | Committing(session: Session)
    | Spawning(since: real)
    | Monitoring(since: real)

  datatype Stop = Stop(session: Session, automatic: bool, kwh: real, remaining: real)

  datatype World = World(
    st: State, now: real, nextId: nat, tasks: map<nat, Task>,
    committed: seq<nat>, cdrs: seq<Cdr>, stops: seq<Stop>)

  datatype Action =
    | Claim
    | Refuse(h: nat)
    | Prepare(h: nat, credit: int, unit: string)
    | Commit(h: nat)
    | Spawn(h: nat)
    | StopNow(dt: real)
    | Tick(m: nat, lag: real, dt: real)
    | Wait(dt: real)

  function Boot(now: real): World {
    World(State(Available, None), now, 0, map[], [], [], [])
  }

  predicate Enabled(w: World, a: Action) {
    match a
    case Claim => true
    case Refuse(h) => h in w.tasks && w.tasks[h].Authorising?
    case Prepare(h, _, _) => h in w.tasks && w.tasks[h].Authorising?
    case Commit(h) => h in w.tasks && w.tasks[h].Committing?
    case Spawn(h) => h in w.tasks && w.tasks[h].Spawning?
    case StopNow(dt) => dt >= 0.0
    case Tick(m, lag, dt) => m in w.tasks && w.tasks[m].Monitoring? && lag >= 0.0 && dt >= 0.0
    case Wait(dt) => dt >= 0.0
  }

  /** Recording a finish: the charger's new state, the record, and how it came about. */
  function Settle(w: World, f: Finish, automatic: bool): World
    requires f.cdr.Some? ==> w.st.session.Some?
  {
    if f.cdr.None? then w.(st := f.state)
    else w.(st := f.state, cdrs := w.cdrs + [f.cdr.value],
            stops := w.stops + [Stop(w.st.session.value, automatic, f.kwh, f.remaining)])
  }

  function Apply(t: PriceTable, w: World, a: Action): World
    requires Enabled(w, a)
  {
    match a
    case Claim =>
      if w.st.mode != Available then w
      else w.(st := w.st.(mode := Starting), tasks := w.tasks[w.nextId := Authorising], nextId := w.nextId + 1)
    case Refuse(h) => w.(st := w.st.(mode := Available), tasks := w.tasks - {h})
    case Prepare(h, credit, unit) =>
      w.(tasks := w.tasks[h := Committing(Session(h, w.now, credit, unit, DEFAULT_POWER_KW))])
    case Commit(h) =>
      var s := w.tasks[h].session;
      w.(st := State(Charging, Some(s)), committed := w.committed + [h], tasks := w.tasks[h := Spawning(s.startedAt)])
    case Spawn(h) => w.(tasks := w.tasks[h := Monitoring(w.tasks[h].since)])
    case StopNow(dt) =>
      Settle(w.(now := w.now + dt), Finished(t, w.st, w.now, w.now + dt), false)
    case Tick(m, lag, dt) =>
      if w.st.mode != Charging || w.st.session.None? then w.(tasks := w.tasks - {m})
      else if Remaining(t, w.st.session.value, w.now) <= 0.0 then
        Settle(w.(tasks := w.tasks - {m}, now := w.now + lag + dt),
               Finished(t, w.st, w.now + lag, w.now + lag + dt), true)
      else w.(tasks := w.tasks[m := Monitoring(w.now)])
    case Wait(dt) => w.(now := w.now + dt)
  }

  predicate InStart(t: Task) {
    t.Authorising? || t.Committing?
  }

  function Starters(w: World): set<nat> {
    set h | h in w.tasks && InStart(w.tasks[h])
  }

  function CdrStarts(cdrs: seq<Cdr>): (r: seq<nat>)
    ensures |r| == |cdrs|
  {
    seq(|cdrs|, i requires 0 <= i < |cdrs| => cdrs[i].start)
  }

  /**
   * STARTING means one handler is between claim and decision, CHARGING means a session is set; the records
   * written so far are the committed starts in order, all of them except the one now charging.
   */
  ghost predicate Inv(w: World) {
    && (forall h :: h in w.tasks ==> h < w.nextId)
    && (forall i :: 0 <= i < |w.committed| ==>
          w.committed[i] < w.nextId && (w.committed[i] in w.tasks ==> !InStart(w.tasks[w.committed[i]])))
    && (forall i, j :: 0 <= i < j < |w.committed| ==> w.committed[i] != w.committed[j])
    && (forall h :: h in w.tasks && w.tasks[h].Committing? ==> w.tasks[h].session.start == h)
    && (w.st.mode == Charging <==> w.st.session.Some?)
    && (w.st.mode != Starting ==> Starters(w) == {})
    && (w.st.mode == Starting ==> exists h :: Starters(w) == {h})
    && w.committed == CdrStarts(w.cdrs) + (if w.st.mode == Charging then [w.st.session.value.start] else [])
  }

  lemma ClaimKeepsInv(t: PriceTable, w: World)
    requires Inv(w)
    ensures Inv(Apply(t, w, Claim))
  {
    var v := Apply(t, w, Claim);
    if w.st.mode == Available {
      assert Starters(v) == {w.nextId};
    }
  }

  lemma RefuseKeepsInv(t: PriceTable, w: World, h: nat)
    requires Inv(w) && Enabled(w, Refuse(h))
    ensures Inv(Apply(t, w, Refuse(h)))
  {
    var v := Apply(t, w, Refuse(h));
    assert h in Starters(w);
    assert Starters(v) == {};
  }

  lemma PrepareKeepsInv(t: PriceTable, w: World, h: nat, credit: int, unit: string)
    requires Inv(w) && Enabled(w, Prepare(h, credit, unit))
    ensures Inv(Apply(t, w, Prepare(h, credit, unit)))
  {
    assert h in Starters(w);
    assert Starters(Apply(t, w, Prepare(h, credit, unit))) == Starters(w);
  }

  lemma CommitKeepsInv(t: PriceTable, w: World, h: nat)
    requires Inv(w) && Enabled(w, Commit(h))
    ensures Inv(Apply(t, w, Commit(h)))
  {
    var v := Apply(t, w, Commit(h));
    assert h in Starters(w);
    var g :| Starters(w) == {g};
    forall k | k in v.tasks ensures !InStart(v.tasks[k]) {
      assert k != h && InStart(w.tasks[k]) ==> k in Starters(w);
    }
    assert Starters(v) == {};
    assert h !in w.committed;
  }

  /** Ending the current session moves its start from "charging" to "recorded". */
  lemma SettleKeepsInv(t: PriceTable, w: World, now: real, stopped: real, automatic: bool)
    requires Inv(w)
    ensures Inv(Settle(w, Finished(t, w.st, now, stopped), automatic))
  {
    var f := Finished(t, w.st, now, stopped);
    var v := Settle(w, f, automatic);
    assert Starters(v) == Starters(w);
    if f.cdr.Some? {
      assert CdrStarts(v.cdrs) == CdrStarts(w.cdrs) + [f.cdr.value.start];
    }
  }

  /** Monitors come and go without touching the charger. */
  lemma TaskChangeKeepsInv(w: World, tasks: map<nat, Task>, now: real)
    requires Inv(w)
    requires forall h :: h in tasks ==> h in w.tasks && (tasks[h] == w.tasks[h] || !InStart(tasks[h]))
    requires forall h :: h in w.tasks && InStart(w.tasks[h]) ==> h in tasks && tasks[h] == w.tasks[h]
    ensures Inv(w.(tasks := tasks, now := now))
  {
    assert Starters(w.(tasks := tasks, now := now)) == Starters(w);
  }

  /** The monitor that stops the session goes away itself. */
  lemma StoppingTickKeepsInv(t: PriceTable, w: World, m: nat, lag: real, dt: real)
    requires Inv(w) && m in w.tasks && w.tasks[m].Monitoring?
    ensures
      var v := w.(tasks := w.tasks - {m}, now := w.now + lag + dt);
      Inv(Settle(v, Finished(t, w.st, w.now + lag, w.now + lag + dt), true))
  {
    TaskChangeKeepsInv(w, w.tasks - {m}, w.now + lag + dt);
    SettleKeepsInv(t, w.(tasks := w.tasks - {m}, now := w.now + lag + dt), w.now + lag, w.now + lag + dt, true);
  }

  lemma TickKeepsInv(t: PriceTable, w: World, m: nat, lag: real, dt: real)
    requires Inv(w) && Enabled(w, Tick(m, lag, dt))
    ensures Inv(Apply(t, w, Tick(m, lag, dt)))
  {
    if w.st.mode != Charging || w.st.session.None? {
      TaskChangeKeepsInv(w, w.tasks - {m}, w.now);
    } else if Remaining(t, w.st.session.value, w.now) <= 0.0 {
      StoppingTickKeepsInv(t, w, m, lag, dt);
    } else {
      TaskChangeKeepsInv(w, w.tasks[m := Monitoring(w.now)], w.now);
    }
  }

  lemma SpawnKeepsInv(t: PriceTable, w: World, h: nat)
    requires Inv(w) && Enabled(w, Spawn(h))
    ensures Inv(Apply(t, w, Spawn(h)))
  {
    TaskChangeKeepsInv(w, w.tasks[h := Monitoring(w.tasks[h].since)], w.now);
  }

  lemma WaitKeepsInv(w: World, dt: real)
    requires Inv(w)
    ensures Inv(w.(now := w.now + dt))
  {
    TaskChangeKeepsInv(w, w.tasks, w.now + dt);
    assert w.(tasks := w.tasks, now := w.now + dt) == w.(now := w.now + dt);
  }

  lemma StopKeepsInv(t: PriceTable, w: World, dt: real)
    requires Inv(w) && Enabled(w, StopNow(dt))
    ensures Inv(Apply(t, w, StopNow(dt)))
  {
    WaitKeepsInv(w, dt);
    SettleKeepsInv(t, w.(now := w.now + dt), w.now, w.now + dt, false);
  }

  lemma ApplyKeepsInv(t: PriceTable, w: World, a: Action)
    requires Inv(w) && Enabled(w, a)
    ensures Inv(Apply(t, w, a))
  {
    match a
    case Claim => ClaimKeepsInv(t, w);
    case Refuse(h) => RefuseKeepsInv(t, w, h);
    case Prepare(h, credit, unit) => PrepareKeepsInv(t, w, h, credit, unit);
    case Commit(h) => CommitKeepsInv(t, w, h);
    case Spawn(h) => SpawnKeepsInv(t, w, h);
    case StopNow(dt) => StopKeepsInv(t, w, dt);
    case Tick(m, lag, dt) => TickKeepsInv(t, w, m, lag, dt);
    case Wait(dt) => WaitKeepsInv(w, dt);
  }

  function Run(t: PriceTable, w: World, actions: seq<Action>): Option<World>
    decreases |actions|
  {
    if actions == [] then Some(w)
    else if !Enabled(w, actions[0]) then None
    else Run(t, Apply(t, w, actions[0]), actions[1..])
  }

  lemma {:induction false} RunKeepsInv(t: PriceTable, w: World, actions: seq<Action>)
    requires Inv(w) && Run(t, w, actions).Some?
    ensures Inv(Run(t, w, actions).value)
    decreases |actions|
  {
    if actions != [] {
      ApplyKeepsInv(t, w, actions[0]);
      RunKeepsInv(t, Apply(t, w, actions[0]), actions[1..]);
    }
  }

  lemma BootInv(now: real)
    ensures Inv(Boot(now))
  {
    assert Starters(Boot(now)) == {};
  }

  /**
   * From a fresh boot, in every interleaving: STARTING exactly while one handler decides, CHARGING exactly while
   * a session is set, and committed starts are the records written plus the one charging, each recorded once.
   */
  lemma EveryStartFinishesOnce(t: PriceTable, now: real, actions: seq<Action>)
    requires Run(t, Boot(now), actions).Some?
    ensures
      var w := Run(t, Boot(now), actions).value;
      && (w.st.mode == Starting <==> |Starters(w)| == 1) && |Starters(w)| <= 1
      && (w.st.mode == Charging <==> w.st.session.Some?)
      && |w.committed| == |w.cdrs| + (if w.st.mode == Charging then 1 else 0)
      && (forall i :: 0 <= i < |w.cdrs| ==> w.cdrs[i].start == w.committed[i])
      && (forall i, j :: 0 <= i < j < |w.cdrs| ==> w.cdrs[i].start != w.cdrs[j].start)
  {
    BootInv(now);
    RunKeepsInv(t, Boot(now), actions);
    var w := Run(t, Boot(now), actions).value;
    if w.st.mode == Starting {
      var h :| Starters(w) == {h};
    }
    forall i | 0 <= i < |w.cdrs| ensures w.cdrs[i].start == w.committed[i] {
      assert CdrStarts(w.cdrs)[i] == w.committed[i];
    }
  }

  // ----- Automatic stop -----

  predicate Timed(t: Task) {
    !t.Authorising?
  }

  /** When a task last looked at its session, or the session's start before the first look. */
  function Since(t: Task): real
    requires Timed(t)
  {
    match t
    case Committing(s) => s.startedAt
    case Spawning(since) => since
    case Monitoring(since) => since
  }

  /**
   * The monitor spawned by the session's own start is alive or about to be, and saw credit left when it last looked.
   */
  predicate Guarded(t: PriceTable, w: World, s: Session) {
    && s.start in w.tasks && (w.tasks[s.start].Spawning? || w.tasks[s.start].Monitoring?)
    && s.startedAt <= Since(w.tasks[s.start]) <= w.now
    && (s.credit > 0 ==> Remaining(t, s, Since(w.tasks[s.start])) > 0.0)
    && (s.credit <= 0 && Price(t, s.unit) > 0.0 ==> Since(w.tasks[s.start]) == s.startedAt)
    && s.powerKw == DEFAULT_POWER_KW
  }

  ghost predicate MonitorInv(t: PriceTable, w: World) {
    && (forall h :: h in w.tasks && w.tasks[h].Committing? ==>
          w.tasks[h].session.startedAt <= w.now && w.tasks[h].session.powerKw == DEFAULT_POWER_KW)
    && (w.st.session.Some? ==> Guarded(t, w, w.st.session.value))
  }

  lemma ApplyKeepsMonitor(t: PriceTable, w: World, a: Action)
    requires Inv(w) && MonitorInv(t, w) && Enabled(w, a)
    ensures MonitorInv(t, Apply(t, w, a))
  {
    if a.Refuse? || a.Prepare? {
      assert a.h in Starters(w);
    }
    if w.st.session.Some? && Price(t, w.st.session.value.unit) > 0.0 {
      NoCreditIsGone(t, w.st.session.value, w.now);
    }
  }

  /** Without credit the first tick finds none left. */
  lemma NoCreditIsGone(t: PriceTable, s: Session, now: real)
    requires Price(t, s.unit) > 0.0
    ensures s.credit <= 0 && s.startedAt <= now && s.powerKw >= 0.0 ==> Remaining(t, s, now) <= 0.0
  {
    if s.startedAt <= now && s.powerKw >= 0.0 {
      assert Delivered(s, now) >= 0.0;
      assert Delivered(s, now) * Price(t, s.unit) >= 0.0;
    }
  }

  lemma {:induction false} RunKeepsMonitor(t: PriceTable, w: World, actions: seq<Action>)
    requires Inv(w) && MonitorInv(t, w) && Run(t, w, actions).Some?
    ensures MonitorInv(t, Run(t, w, actions).value)
    decreases |actions|
  {
    if actions != [] {
      ApplyKeepsInv(t, w, actions[0]);
      ApplyKeepsMonitor(t, w, actions[0]);
      RunKeepsMonitor(t, Apply(t, w, actions[0]), actions[1..]);
    }
  }

  /** From a fresh boot, a charging charger always has its own start's monitor, running or about to run. */
  lemma ChargingIsMonitored(t: PriceTable, now: real, actions: seq<Action>)
    requires Run(t, Boot(now), actions).Some?
    ensures
      var w := Run(t, Boot(now), actions).value;
      w.st.mode == Charging ==>
        && w.st.session.Some?
        && var h := w.st.session.value.start;
        h in w.tasks && (w.tasks[h].Spawning? || w.tasks[h].Monitoring?)
  {
    BootInv(now);
    RunKeepsInv(t, Boot(now), actions);
    RunKeepsMonitor(t, Boot(now), actions);
  }

  /** Ticks come at most d apart: the charging session's own monitor last looked at most d ago, at any action. */
  predicate Punctual(w: World, a: Action, d: real) {
    w.st.session.Some? ==>
      var h := w.st.session.value.start;
      h in w.tasks && Timed(w.tasks[h]) ==> w.now + (if a.Tick? then a.lag else 0.0) <= Since(w.tasks[h]) + d
  }

  ghost predicate PunctualRun(t: PriceTable, w: World, actions: seq<Action>, d: real)
    decreases |actions|
  {
    actions == [] || (Punctual(w, actions[0], d) &&
                      (Enabled(w, actions[0]) ==> PunctualRun(t, Apply(t, w, actions[0]), actions[1..], d)))
  }

  /** What an automatic stop owes the customer and the operator. */
  predicate FairStop(t: PriceTable, s: Stop, d: real)
    requires Price(t, s.session.unit) > 0.0
  {
    var max := MaxKwh(t, s.session.credit, s.session.unit);
    && s.kwh >= max && s.remaining == 0.0
    && s.kwh <= max + s.session.powerKw * d
    && (s.session.credit > 0 ==> s.kwh < max + s.session.powerKw * d)
  }

  ghost predicate PositivePrices(t: PriceTable) {
    forall u :: Price(t, u) > 0.0
  }

  ghost predicate StopsFair(t: PriceTable, w: World, d: real)
    requires PositivePrices(t)
  {
    forall i :: 0 <= i < |w.stops| && w.stops[i].automatic ==> FairStop(t, w.stops[i], d)
  }

  /** Energy grows linearly while charging. */
  lemma DeliveredGrows(s: Session, a: real, b: real)
    requires a <= b && s.powerKw >= 0.0
    ensures Delivered(s, b) == Delivered(s, a) + s.powerKw * (b - a)
    ensures Delivered(s, a) <= Delivered(s, b)
  {
    assert s.powerKw * (b - a) >= 0.0;
  }

  /** An automatic stop decided at `now` and computed `lag` later is fair. */
  lemma AutomaticStopFair(t: PriceTable, w: World, lag: real, dt: real, d: real)
    requires PositivePrices(t) && w.st.mode == Charging && w.st.session.Some?
    requires Guarded(t, w, w.st.session.value) && lag >= 0.0
    requires Remaining(t, w.st.session.value, w.now) <= 0.0
    requires w.now + lag <= Since(w.tasks[w.st.session.value.start]) + d
    ensures
      var f := Finished(t, w.st, w.now + lag, w.now + lag + dt);
      FairStop(t, Stop(w.st.session.value, true, f.kwh, f.remaining), d)
  {
    var s := w.st.session.value;
    var since, read := Since(w.tasks[s.start]), w.now + lag;
    StillGone(t, s, w.now, read);
    PaidInFull(t, s, read);
    DeliveredGrows(s, since, read);
    DeliveredGrows(s, s.startedAt, since);
    if s.credit > 0 {
      CreditLastsToMaxKwh(t, s.credit, s.unit, Delivered(s, since));
    }
    LateBy(s.powerKw, read - since, d);
  }

  /** Credit that is gone stays gone. */
  lemma StillGone(t: PriceTable, s: Session, now: real, read: real)
    requires Price(t, s.unit) > 0.0 && s.powerKw >= 0.0 && now <= read && Remaining(t, s, now) <= 0.0
    ensures Remaining(t, s, read) <= 0.0
  {
    DeliveredGrows(s, now, read);
    Scaled(Delivered(s, now), Delivered(s, read), Price(t, s.unit));
  }

  lemma Scaled(a: real, b: real, p: real)
    requires a <= b && p > 0.0
    ensures a * p <= b * p
  {
  }

  lemma LateBy(power: real, late: real, d: real)
    requires power >= 0.0 && late <= d
    ensures power * late <= power * d
  {
  }

  /** Once the credit is gone the maximum has been delivered, and nothing is left to report. */
  lemma PaidInFull(t: PriceTable, s: Session, read: real)
    requires Price(t, s.unit) > 0.0 && s.powerKw >= 0.0 && s.startedAt <= read && Remaining(t, s, read) <= 0.0
    ensures Delivered(s, read) >= MaxKwh(t, s.credit, s.unit)
  {
    DeliveredGrows(s, s.startedAt, read);
    if s.credit > 0 {
      CreditLastsToMaxKwh(t, s.credit, s.unit, Delivered(s, read));
    }
  }

  lemma ApplyKeepsFair(t: PriceTable, w: World, a: Action, d: real)
    requires PositivePrices(t) && Inv(w) && MonitorInv(t, w) && StopsFair(t, w, d) && Enabled(w, a) && Punctual(w, a, d)
    ensures StopsFair(t, Apply(t, w, a), d)
  {
    if a.Tick? && w.st.mode == Charging && Remaining(t, w.st.session.value, w.now) <= 0.0 {
      assert Timed(w.tasks[w.st.session.value.start]);
      AutomaticStopFair(t, w, a.lag, a.dt, d);
    }
  }

  lemma {:induction false} RunKeepsFair(t: PriceTable, w: World, actions: seq<Action>, d: real)
    requires PositivePrices(t) && Inv(w) && MonitorInv(t, w) && StopsFair(t, w, d)
    requires PunctualRun(t, w, actions, d) && Run(t, w, actions).Some?
    ensures StopsFair(t, Run(t, w, actions).value, d)
    decreases |actions|
  {
    if actions != [] {
      ApplyKeepsInv(t, w, actions[0]);
      ApplyKeepsMonitor(t, w, actions[0]);
      ApplyKeepsFair(t, w, actions[0], d);
      RunKeepsFair(t, Apply(t, w, actions[0]), actions[1..], d);
    }
  }

  /**
   * From a fresh boot, with positive prices and ticks at most d apart: an automatic stop never comes before the
   * paid energy is delivered, exceeds it by less than what d delivers, and reports no credit left.
   */
  lemma AutomaticStopsAreFair(t: PriceTable, now: real, actions: seq<Action>, d: real)
    requires PositivePrices(t) && PunctualRun(t, Boot(now), actions, d) && Run(t, Boot(now), actions).Some?
    ensures StopsFair(t, Run(t, Boot(now), actions).value, d)
  {
    BootInv(now);
    RunKeepsFair(t, Boot(now), actions, d);
  }

  // ----- Every stop, manual or automatic -----

  lemma {:induction false} RunSnoc(t: PriceTable, w: World, xs: seq<Action>, a: Action)
    ensures Run(t, w, xs + [a]) ==
            if Run(t, w, xs).None? || !Enabled(Run(t, w, xs).value, a) then None
            else Some(Apply(t, Run(t, w, xs).value, a))
    decreases |xs|
  {
    if xs == [] {
      assert [] + [a] == [a] && [a][1..] == [];
    } else {
      assert (xs + [a])[0] == xs[0] && (xs + [a])[1..] == xs[1..] + [a];
      if Enabled(w, xs[0]) {
        RunSnoc(t, Apply(t, w, xs[0]), xs[1..], a);
      }
    }
  }

  /** The session is the one that action j prepared: its credit and unit, 7.4 kW, counted from the clock then. */
  ghost predicate PreparedAt(t: PriceTable, w0: World, actions: seq<Action>, j: nat, s: Session) {
    && j < |actions| && actions[j] == Prepare(s.start, s.credit, s.unit)
    && var w := Run(t, w0, actions[..j]);
    w.Some? && s.startedAt == w.value.now && s.powerKw == 7.4
  }

  ghost predicate Prepared(t: PriceTable, w0: World, actions: seq<Action>, s: Session) {
    exists j: nat :: PreparedAt(t, w0, actions, j, s)
  }

  /** Action k stopped a charging session, and reported and recorded what was due by the clock it read. */
  ghost predicate StoppedAt(t: PriceTable, w0: World, actions: seq<Action>, k: nat, i: nat, stop: Stop, cdr: Cdr) {
    && k < |actions| && (actions[k].StopNow? || actions[k].Tick?)
    && var w := Run(t, w0, actions[..k]);
    && w.Some? && |w.value.stops| == i && w.value.st.session == Some(stop.session)
    && stop.automatic == actions[k].Tick?
    && var read := if actions[k].Tick? then w.value.now + actions[k].lag else w.value.now;
    Settlement(t, stop.session, read, read + actions[k].dt, stop.kwh, cdr.creditUsed, stop.remaining, cdr)
  }

  ghost predicate Stopped(t: PriceTable, w0: World, actions: seq<Action>, i: nat, stop: Stop, cdr: Cdr) {
    exists k: nat :: StoppedAt(t, w0, actions, k, i, stop, cdr)
  }

  ghost predicate Accounted(t: PriceTable, w0: World, actions: seq<Action>, w: World) {
    && (forall h :: h in w.tasks && w.tasks[h].Committing? ==> Prepared(t, w0, actions, w.tasks[h].session))
    && (w.st.session.Some? ==> Prepared(t, w0, actions, w.st.session.value))
    && |w.stops| == |w.cdrs|
    && (forall i :: 0 <= i < |w.stops| ==> StopKnown(t, w0, actions, i, w.stops[i], w.cdrs[i]))
  }

  ghost predicate StopKnown(t: PriceTable, w0: World, actions: seq<Action>, i: nat, stop: Stop, cdr: Cdr) {
    Prepared(t, w0, actions, stop.session) && Stopped(t, w0, actions, i, stop, cdr)
  }

  lemma PreparedLater(t: PriceTable, w0: World, xs: seq<Action>, a: Action, s: Session)
    requires Prepared(t, w0, xs, s)
    ensures Prepared(t, w0, xs + [a], s)
  {
    var j: nat :| PreparedAt(t, w0, xs, j, s);
    assert (xs + [a])[..j] == xs[..j];
    assert PreparedAt(t, w0, xs + [a], j, s);
  }

  lemma StoppedLater(t: PriceTable, w0: World, xs: seq<Action>, a: Action, i: nat, stop: Stop, cdr: Cdr)
    requires Stopped(t, w0, xs, i, stop, cdr)
    ensures Stopped(t, w0, xs + [a], i, stop, cdr)
  {
    var k: nat :| StoppedAt(t, w0, xs, k, i, stop, cdr);
    assert (xs + [a])[..k] == xs[..k];
    assert StoppedAt(t, w0, xs + [a], k, i, stop, cdr);
  }

  lemma AccountedLater(t: PriceTable, w0: World, xs: seq<Action>, a: Action, w: World)
    requires Accounted(t, w0, xs, w)
    ensures Accounted(t, w0, xs + [a], w)
  {
    forall s | Prepared(t, w0, xs, s) ensures Prepared(t, w0, xs + [a], s) {
      PreparedLater(t, w0, xs, a, s);
    }
    forall i | 0 <= i < |w.stops| ensures StopKnown(t, w0, xs + [a], i, w.stops[i], w.cdrs[i]) {
      assert StopKnown(t, w0, xs, i, w.stops[i], w.cdrs[i]);
      StoppedLater(t, w0, xs, a, i, w.stops[i], w.cdrs[i]);
    }
  }

  /** What a settlement adds is what the arithmetic says. */
  lemma FinishedSettles(t: PriceTable, st: State, read: real, stopped: real)
    requires st.mode == Charging && st.session.Some?
    ensures
      var f := Finished(t, st, read, stopped);
      f.cdr.Some? && f.state.session.None? &&
      Settlement(t, st.session.value, read, stopped, f.kwh, f.cdr.value.creditUsed, f.remaining, f.cdr.value)
  {
  }

  /** A stop or a tick either adds one settled stop or none at all, and prepares nothing. */
  lemma StopAdds(t: PriceTable, w: World, a: Action)
    requires Enabled(w, a) && (a.StopNow? || a.Tick?) && |w.stops| == |w.cdrs|
    ensures
      var v := Apply(t, w, a);
      && (forall h :: h in v.tasks && v.tasks[h].Committing? ==> h in w.tasks && v.tasks[h] == w.tasks[h])
      && if |v.stops| == |w.stops| then v.stops == w.stops && v.cdrs == w.cdrs && v.st.session == w.st.session
         else
           && |v.stops| == |w.stops| + 1 == |v.cdrs| && v.st.session.None?
           && v.stops[..|w.stops|] == w.stops && v.cdrs[..|w.stops|] == w.cdrs
           && AddsStop(t, w, a, v.stops[|w.stops|], v.cdrs[|w.stops|])
  {
    var read := if a.Tick? then w.now + a.lag else w.now;
    if w.st.mode == Charging && w.st.session.Some? {
      FinishedSettles(t, w.st, read, read + a.dt);
    }
  }

  ghost predicate AddsStop(t: PriceTable, w: World, a: Action, stop: Stop, cdr: Cdr)
    requires a.StopNow? || a.Tick?
  {
    && w.st.session == Some(stop.session) && stop.automatic == a.Tick?
    && var read := if a.Tick? then w.now + a.lag else w.now;
    Settlement(t, stop.session, read, read + a.dt, stop.kwh, cdr.creditUsed, stop.remaining, cdr)
  }

  lemma StopAccounted(t: PriceTable, w0: World, xs: seq<Action>, a: Action, w: World)
    requires Run(t, w0, xs) == Some(w) && Accounted(t, w0, xs + [a], w) && Enabled(w, a) && (a.StopNow? || a.Tick?)
    ensures Accounted(t, w0, xs + [a], Apply(t, w, a))
  {
    var v, n := Apply(t, w, a), |w.stops|;
    StopAdds(t, w, a);
    if |v.stops| > n {
      NewStopKnown(t, w0, xs, a, w, v.stops[n], v.cdrs[n]);
      forall i | 0 <= i < |v.stops| ensures StopKnown(t, w0, xs + [a], i, v.stops[i], v.cdrs[i]) {
        if i < n {
          assert v.stops[i] == v.stops[..n][i] == w.stops[i] && v.cdrs[i] == v.cdrs[..n][i] == w.cdrs[i];
          assert StopKnown(t, w0, xs + [a], i, w.stops[i], w.cdrs[i]);
        }
      }
    }
  }

  lemma NewStopKnown(t: PriceTable, w0: World, xs: seq<Action>, a: Action, w: World, stop: Stop, cdr: Cdr)
    requires Run(t, w0, xs) == Some(w) && Accounted(t, w0, xs + [a], w) && (a.StopNow? || a.Tick?)
    requires AddsStop(t, w, a, stop, cdr)
    ensures StopKnown(t, w0, xs + [a], |w.stops|, stop, cdr)
  {
    assert (xs + [a])[..|xs|] == xs;
    assert StoppedAt(t, w0, xs + [a], |xs|, |w.stops|, stop, cdr);
  }

  lemma ApplyAccounted(t: PriceTable, w0: World, xs: seq<Action>, a: Action, w: World)
    requires Run(t, w0, xs) == Some(w) && Accounted(t, w0, xs, w) && Enabled(w, a)
    ensures Accounted(t, w0, xs + [a], Apply(t, w, a))
  {
    AccountedLater(t, w0, xs, a, w);
    if a.StopNow? || a.Tick? {
      StopAccounted(t, w0, xs, a, w);
    } else if a.Prepare? {
      assert (xs + [a])[..|xs|] == xs;
      assert PreparedAt(t, w0, xs + [a], |xs|, Session(a.h, w.now, a.credit, a.unit, 7.4));
    }
  }

  lemma {:induction false} RunAccounted(t: PriceTable, w0: World, actions: seq<Action>)
    requires Accounted(t, w0, [], w0) && Run(t, w0, actions).Some?
    ensures Accounted(t, w0, actions, Run(t, w0, actions).value)
    decreases |actions|
  {
    if actions != [] {
      var xs, a := actions[..|actions| - 1], actions[|actions| - 1];
      assert actions == xs + [a];
      RunSnoc(t, w0, xs, a);
      RunAccounted(t, w0, xs);
      ApplyAccounted(t, w0, xs, a, Run(t, w0, xs).value);
    }
  }

  /**
   * Every stop of every run from a fresh boot, manual or automatic: energy is 7.4 kW times the time since the start
   * was prepared, at the unit's own price; used and remaining add up to the credit that was prepared, or nothing
   * remains; and the record written carries the same figures and times.
   */
  lemma EveryStopSettles(t: PriceTable, now: real, actions: seq<Action>)
    requires Run(t, Boot(now), actions).Some?
    ensures
      var w := Run(t, Boot(now), actions).value;
      && |w.stops| == |w.cdrs|
      && forall i :: 0 <= i < |w.stops| ==> StopKnown(t, Boot(now), actions, i, w.stops[i], w.cdrs[i])
  {
    RunAccounted(t, Boot(now), actions);
  }
}
