/** MicroVM lifecycle: creation with rollback, and four ways of removal racing for the same VM and TAP device. */
module MicroVm {
  import Cycle

  datatype Vm = Vm(ip: int, cid: int, tap: string, ttl: int, expiresAt: int)

  /** What happened to TAP devices on the host, in order. */
  datatype TapEvent = Added(name: string) | Deleted(name: string) | DeleteMissed(name: string)

  datatype Host = Host(vms: map<string, Vm>, taps: set<string>, ipCounter: int, cidCounter: int, trace: seq<TapEvent>)

  /** Outcomes of the foreign calls of one creation. */
  datatype Env = Env(mkdir: bool, add: bool, up: bool, attach: bool, config: bool, serial: bool, start: bool)

  const COUNTER_MAX := 250

  function TapName(id: string): string
    requires |id| >= 8
  {
    "fc" + id[..8]
  }

  /** The kernel refuses a device name that exists. */
  function AddTap(h: Host, name: string): Host {
    h.(taps := h.taps + {name}, trace := h.trace + [Added(name)])
  }

  function DeleteTap(h: Host, name: string): Host {
    if name in h.taps then h.(taps := h.taps - {name}, trace := h.trace + [Deleted(name)])
    else h.(trace := h.trace + [DeleteMissed(name)])
  }

  /** Device set-up with its own rollback; the result says whether it succeeded. */
  function SetupTap(h: Host, name: string, env: Env): (Host, bool) {
    if !env.add || name in h.taps then (h, false)
    else
      var g := AddTap(h, name);
      if !env.up || !env.attach then (DeleteTap(g, name), false) else (g, true)
  }

  function NextIp(h: Host): Host {
    h.(ipCounter := Cycle.Next(h.ipCounter, 1, COUNTER_MAX))
  }

  function NextCid(h: Host): Host {
    h.(cidCounter := Cycle.Next(h.cidCounter, 2, COUNTER_MAX))
  }

  function Create(h: Host, id: string, env: Env, ttl: int, now: int): (Host, bool)
    requires |id| >= 8
  {
    if !env.mkdir then (h, false)
    else
      var ip, tap := h.ipCounter + 1, TapName(id);
      var (g, ok) := SetupTap(NextIp(h), tap, env);
      if !ok then (g, false)
      else
        var c := NextCid(g);
        if !env.config || !env.serial || !env.start then (DeleteTap(c, tap), false)
        else (c.(vms := c.vms[id := Vm(ip, c.cidCounter, tap, ttl, now + ttl)]), true)
  }

  /** What every removal does to the map and the devices; a VM that is already gone is left alone. */
  function Remove(h: Host, id: string): Host {
    if id !in h.vms then h
    else
      var g := DeleteTap(h, h.vms[id].tap);
      g.(vms := g.vms - {id})
  }

  predicate Expired(v: Vm, now: int) {
    v.ttl > 0 && now > v.expiresAt
  }

  /** One reaper sweep, visiting VMs in some order. */
  function Reap(h: Host, now: int, order: seq<string>): Host {
    if order == [] then h
    else
      var g := Reap(h, now, order[..|order| - 1]);
      var id := order[|order| - 1];
      if id in g.vms && Expired(g.vms[id], now) then Remove(g, id) else g
  }

  function RemoveAll(h: Host, order: seq<string>): Host {
    if order == [] then h else Remove(RemoveAll(h, order[..|order| - 1]), order[|order| - 1])
  }

  /** The daemon's state under its lock, with the host's devices. */
  class Daemon {
    var vms: map<string, Vm>
    var taps: set<string>
    var ipCounter: int
    var cidCounter: int
    ghost var trace: seq<TapEvent>

    constructor ()
      ensures View() == Boot()
    {
      vms, taps, ipCounter, cidCounter, trace := map[], {}, 1, 2, [];
    }

    ghost function View(): Host
      reads this
    {
      Host(vms, taps, ipCounter, cidCounter, trace)
    }

    method CleanupTap(name: string)
      modifies this`taps, this`trace
      ensures View() == DeleteTap(old(View()), name)
      ensures taps == old(taps) - {name}
    {
      if name in taps {
        taps := taps - {name};
        trace := trace + [Deleted(name)];
      } else {
        trace := trace + [DeleteMissed(name)];
      }
    }

    method SetupTapDevice(name: string, env: Env) returns (ok: bool)
      modifies this`taps, this`trace
      ensures (View(), ok) == SetupTap(old(View()), name, env)
      ensures ok <==> env.add && name !in old(taps) && env.up && env.attach
      ensures taps == if ok then old(taps) + {name} else old(taps)
    {
      if !env.add || name in taps {
        return false;
      }
      taps := taps + {name};
      trace := trace + [Added(name)];
      if !env.up {
        CleanupTap(name);
        return false;
      }
      if !env.attach {
        CleanupTap(name);
        return false;
      }
      return true;
    }

    method NextVmIp() returns (ip: int)
      modifies this`ipCounter
      ensures View() == NextIp(old(View())) && ip == old(ipCounter) + 1
    {
      ip := ipCounter + 1;
      ipCounter := ipCounter + 1;
      if ipCounter > 250 {
        ipCounter := 1;
      }
    }

    method NextGuestCid() returns (cid: int)
      modifies this`cidCounter
      ensures View() == NextCid(old(View())) && cid == cidCounter
    {
      cidCounter := cidCounter + 1;
      if cidCounter > 250 {
        cidCounter := 2;
      }
      return cidCounter;
    }

    method CreateVm(id: string, env: Env, ttl: int, now: int) returns (ok: bool)
      requires |id| >= 8
      modifies this
      ensures (View(), ok) == Create(old(View()), id, env, ttl, now)
      ensures ok <==>
                && env.mkdir && env.add && "fc" + id[..8] !in old(taps) && env.up && env.attach
                && env.config && env.serial && env.start
      ensures
        var tap := "fc" + id[..8];
        if ok
        then taps == old(taps) + {tap} &&
             vms == old(vms)[id := Vm(old(ipCounter) + 1, cidCounter, tap, ttl, now + ttl)]
        else taps == old(taps) && vms == old(vms)
    {
      if !env.mkdir {
        return false;
      }
      var ip := NextVmIp();
      var tap := "fc" + id[..8];
      ok := SetupTapDevice(tap, env);
      if !ok {
        return;
      }
      var cid := NextGuestCid();
      if !env.config {
        CleanupTap(tap);
        return false;
      }
      if !env.serial {
        CleanupTap(tap);
        return false;
      }
      if !env.start {
        CleanupTap(tap);
        return false;
      }
      vms := vms[id := Vm(ip, cid, tap, ttl, now + ttl)];
    }

    /** The goroutine that waits for the process. */
    method OnExit(id: string)
      modifies this
      ensures View() == Remove(old(View()), id)
      ensures vms == old(vms) - {id} && taps == if id in old(vms) then old(taps) - {old(vms)[id].tap} else old(taps)
    {
      if id in vms {
        CleanupTap(vms[id].tap);
        vms := vms - {id};
      }
    }

    /** DELETE requests and the TTL timer. */
    method DestroyVm(id: string) returns (found: bool)
      modifies this
      ensures View() == Remove(old(View()), id) && found == (id in old(vms))
      ensures vms == old(vms) - {id} && taps == if found then old(taps) - {old(vms)[id].tap} else old(taps)
    {
      if id !in vms {
        return false;
      }
      CleanupTap(vms[id].tap);
      vms := vms - {id};
      return true;
    }

    /** One pass of the reaper over the map, in some order. */
    method ReapExpired(now: int) returns (ghost order: seq<string>)
      modifies this
      ensures View() == Reap(old(View()), now, order)
      ensures forall id :: id in vms <==>
                id in old(vms) && (old(vms)[id].ttl <= 0 || now <= old(vms)[id].expiresAt)
      ensures forall id :: id in vms ==> vms[id] == old(vms)[id]
    {
      ghost var before := View();
      var todo := vms.Keys;
      order := [];
      while todo != {}
        invariant todo <= before.vms.Keys
        invariant View() == Reap(before, now, order)
        invariant forall id :: id in vms <==> id in before.vms && (id in todo || !Expired(before.vms[id], now))
        invariant forall id :: id in vms ==> vms[id] == before.vms[id]
        decreases todo
      {
        var id :| id in todo;
        todo := todo - {id};
        ghost var longer := order + [id];
        assert longer[..|longer| - 1] == order;
        if Expired(vms[id], now) {
          CleanupTap(vms[id].tap);
          vms := vms - {id};
        }
        order := longer;
      }
    }
  }

  // ----- Every interleaving of the critical sections -----

  datatype Action =
    | Creation(id: string, env: Env, ttl: int, now: int)
    | Exit(id: string)
    | Timer(id: string)
    | Delete(id: string)
    | Sweep(now: int, order: seq<string>)
    | Shutdown(order: seq<string>)

  function Boot(): Host {
    Host(map[], {}, 1, 2, [])
  }

  predicate Enabled(a: Action) {
    a.Creation? ==> |a.id| >= 8
  }

  function Apply(h: Host, a: Action): Host
    requires Enabled(a)
  {
    match a
    case Creation(id, env, ttl, now) => Create(h, id, env, ttl, now).0
    case Exit(id) => Remove(h, id)
    case Timer(id) => Remove(h, id)
    case Delete(id) => Remove(h, id)
    case Sweep(now, order) => Reap(h, now, order)
    case Shutdown(order) => RemoveAll(h, order)
  }

  function Run(h: Host, actions: seq<Action>): Host
    requires forall i :: 0 <= i < |actions| ==> Enabled(actions[i])
    decreases |actions|
  {
    if actions == [] then h else Run(Apply(h, actions[0]), actions[1..])
  }

  function Adds(trace: seq<TapEvent>, name: string): nat {
    if trace == [] then 0
    else Adds(trace[..|trace| - 1], name) + (if trace[|trace| - 1] == Added(name) then 1 else 0)
  }

  function Deletes(trace: seq<TapEvent>, name: string): nat {
    if trace == [] then 0
    else Deletes(trace[..|trace| - 1], name) + (if trace[|trace| - 1] == Deleted(name) then 1 else 0)
  }

  /** The trace accounts for the live devices: one more addition than deletions for each, and never a missed delete. */
  ghost predicate TraceInv(h: Host) {
    && (forall e :: e in h.trace ==> !e.DeleteMissed?)
    && (forall n :: Adds(h.trace, n) == Deletes(h.trace, n) + (if n in h.taps then 1 else 0))
  }

  ghost predicate Owned(h: Host, extra: set<string>) {
    && (forall id :: id in h.vms ==>
          |id| >= 8 && h.vms[id].tap == TapName(id) && h.vms[id].tap in h.taps && h.vms[id].tap !in extra)
    && (forall n :: n in h.taps ==> n in extra || exists id :: id in h.vms && h.vms[id].tap == n)
    && (forall i, j :: i in h.vms && j in h.vms && i != j ==> h.vms[i].tap != h.vms[j].tap)
  }

  ghost predicate Inv(h: Host) {
    TraceInv(h) && Owned(h, {})
  }

  lemma AddTrace(h: Host, name: string)
    requires TraceInv(h) && name !in h.taps
    ensures TraceInv(AddTap(h, name))
  {
    var t := h.trace + [Added(name)];
    assert t[..|h.trace|] == h.trace;
  }

  lemma DeleteTrace(h: Host, name: string)
    requires TraceInv(h) && name in h.taps
    ensures TraceInv(DeleteTap(h, name))
  {
    var t := h.trace + [Deleted(name)];
    assert t[..|h.trace|] == h.trace;
  }

  lemma RemoveKeepsInv(h: Host, id: string)
    requires Inv(h)
    ensures Inv(Remove(h, id))
  {
    if id in h.vms {
      DeleteTrace(h, h.vms[id].tap);
      var v := Remove(h, id);
      forall n | n in v.taps ensures exists k :: k in v.vms && v.vms[k].tap == n {
        var k :| k in h.vms && h.vms[k].tap == n;
        assert k in v.vms && v.vms[k].tap == n;
      }
    }
  }

  lemma CreateKeepsInv(h: Host, id: string, env: Env, ttl: int, now: int)
    requires Inv(h) && |id| >= 8
    ensures Inv(Create(h, id, env, ttl, now).0)
  {
    var tap := TapName(id);
    if env.mkdir && env.add && tap !in h.taps {
      var g := AddTap(NextIp(h), tap);
      AddTrace(NextIp(h), tap);
      assert Owned(g, {tap});
      if !env.up || !env.attach {
        RollbackKeepsInv(g, tap);
      } else if !env.config || !env.serial || !env.start {
        RollbackKeepsInv(NextCid(g), tap);
      } else {
        EnterKeepsInv(NextCid(g), id, Vm(h.ipCounter + 1, NextCid(g).cidCounter, tap, ttl, now + ttl));
      }
    }
  }

  /** A started VM takes over the device its creation added. */
  lemma EnterKeepsInv(g: Host, id: string, vm: Vm)
    requires |id| >= 8 && vm.tap == TapName(id)
    requires TraceInv(g) && Owned(g, {vm.tap}) && vm.tap in g.taps
    ensures Inv(g.(vms := g.vms[id := vm]))
  {
    assert id !in g.vms;
    EnterOwned(g, id, vm);
  }

  lemma EnterOwned(g: Host, id: string, vm: Vm)
    requires |id| >= 8 && vm.tap == TapName(id) && id !in g.vms
    requires Owned(g, {vm.tap}) && vm.tap in g.taps
    ensures Owned(g.(vms := g.vms[id := vm]), {})
  {
    var vms := g.vms[id := vm];
    forall k | k in vms ensures |k| >= 8 && vms[k].tap == TapName(k) && vms[k].tap in g.taps {
      assert k != id ==> k in g.vms;
    }
    forall n | n in g.taps ensures exists k :: k in vms && vms[k].tap == n {
      if n == vm.tap {
        assert id in vms && vms[id].tap == n;
      } else {
        var k :| k in g.vms && g.vms[k].tap == n;
        assert k in vms && vms[k].tap == n;
      }
    }
    forall i, j | i in vms && j in vms && i != j ensures vms[i].tap != vms[j].tap {
      assert i != id ==> i in g.vms && g.vms[i].tap != vm.tap;
      assert j != id ==> j in g.vms && g.vms[j].tap != vm.tap;
    }
  }

  /** Deleting the device of a creation that failed half-way. */
  lemma RollbackKeepsInv(g: Host, tap: string)
    requires TraceInv(g) && Owned(g, {tap}) && tap in g.taps
    ensures Inv(DeleteTap(g, tap))
  {
    DeleteTrace(g, tap);
  }

  lemma {:induction false} ReapKeepsInv(h: Host, now: int, order: seq<string>)
    requires Inv(h)
    ensures Inv(Reap(h, now, order))
  {
    if order != [] {
      ReapKeepsInv(h, now, order[..|order| - 1]);
      RemoveKeepsInv(Reap(h, now, order[..|order| - 1]), order[|order| - 1]);
    }
  }

  lemma {:induction false} RemoveAllKeepsInv(h: Host, order: seq<string>)
    requires Inv(h)
    ensures Inv(RemoveAll(h, order))
  {
    if order != [] {
      RemoveAllKeepsInv(h, order[..|order| - 1]);
      RemoveKeepsInv(RemoveAll(h, order[..|order| - 1]), order[|order| - 1]);
    }
  }

  lemma {:induction false} RunKeepsInv(h: Host, actions: seq<Action>)
    requires Inv(h) && forall i :: 0 <= i < |actions| ==> Enabled(actions[i])
    ensures Inv(Run(h, actions))
    decreases |actions|
  {
    if actions != [] {
      match actions[0] {
        case Creation(id, env, ttl, now) => CreateKeepsInv(h, id, env, ttl, now);
        case Exit(id) => RemoveKeepsInv(h, id);
        case Timer(id) => RemoveKeepsInv(h, id);
        case Delete(id) => RemoveKeepsInv(h, id);
        case Sweep(now, order) => ReapKeepsInv(h, now, order);
        case Shutdown(order) => RemoveAllKeepsInv(h, order);
      }
      RunKeepsInv(Apply(h, actions[0]), actions[1..]);
    }
  }

  /**
   * Whenever the lock is free, the live TAP devices are exactly those of the VMs in the map, one each; every
   * device was deleted exactly as often as it was added, once less while it is live, and no delete ever missed.
   */
  lemma TapsAreExactlyOwned(actions: seq<Action>)
    requires forall i :: 0 <= i < |actions| ==> Enabled(actions[i])
    ensures
      var h := Run(Boot(), actions);
      && h.taps == (set id | id in h.vms :: h.vms[id].tap)
      && |h.taps| == |h.vms|
      && (forall e :: e in h.trace ==> !e.DeleteMissed?)
      && (forall n :: Adds(h.trace, n) == Deletes(h.trace, n) + (if n in h.taps then 1 else 0))
  {
    RunKeepsInv(Boot(), actions);
    OwnedExactly(Run(Boot(), actions));
  }

  lemma OwnedExactly(h: Host)
    requires Owned(h, {})
    ensures h.taps == (set id | id in h.vms :: h.vms[id].tap) && |h.taps| == |h.vms|
  {
    var owned := set id | id in h.vms :: h.vms[id].tap;
    forall n | n in h.taps ensures n in owned {
      var id :| id in h.vms && h.vms[id].tap == n;
    }
    OwnedCount(h.vms);
  }

  lemma OwnedCount(vms: map<string, Vm>)
    requires forall i, j :: i in vms && j in vms && i != j ==> vms[i].tap != vms[j].tap
    ensures |set id | id in vms :: vms[id].tap| == |vms|
  {
    TapCount(vms, vms.Keys);
    assert (set id | id in vms.Keys :: vms[id].tap) == (set id | id in vms :: vms[id].tap);
  }

  lemma {:induction false} TapCount(vms: map<string, Vm>, ids: set<string>)
    requires ids <= vms.Keys
    requires forall i, j :: i in ids && j in ids && i != j ==> vms[i].tap != vms[j].tap
    ensures |set id | id in ids :: vms[id].tap| == |ids|
    decreases ids
  {
    if ids != {} {
      var k :| k in ids;
      TapCount(vms, ids - {k});
      assert (set id | id in ids :: vms[id].tap) == (set id | id in ids - {k} :: vms[id].tap) + {vms[k].tap};
    }
  }

  // ----- Lifetime -----

  /** A VM that is in the map, and was not created anew, has been there unchanged. */
  lemma {:induction false} VmStays(h: Host, actions: seq<Action>, id: string)
    requires forall i :: 0 <= i < |actions| ==> Enabled(actions[i]) && !(actions[i].Creation? && actions[i].id == id)
    ensures id in Run(h, actions).vms ==> id in h.vms && Run(h, actions).vms[id] == h.vms[id]
    decreases |actions|
  {
    if actions != [] {
      ApplyAddsNo(h, actions[0], id);
      VmStays(Apply(h, actions[0]), actions[1..], id);
    }
  }

  lemma ApplyAddsNo(h: Host, a: Action, id: string)
    requires Enabled(a) && !(a.Creation? && a.id == id)
    ensures id in Apply(h, a).vms ==> id in h.vms && Apply(h, a).vms[id] == h.vms[id]
  {
    match a
    case Sweep(now, order) => ReapVisits(h, now, order, id);
    case Shutdown(order) => RemoveAllAddsNo(h, order, id);
    case Creation(_, _, _, _) =>
    case Exit(_) =>
    case Timer(_) =>
    case Delete(_) =>
  }

  lemma {:induction false} RemoveAllAddsNo(h: Host, order: seq<string>, id: string)
    ensures id in RemoveAll(h, order).vms ==> id in h.vms && RemoveAll(h, order).vms[id] == h.vms[id]
  {
    if order != [] {
      RemoveAllAddsNo(h, order[..|order| - 1], id);
    }
  }

  /** A sweep removes a VM exactly when it visits it and its time is over. */
  lemma {:induction false} ReapVisits(h: Host, now: int, order: seq<string>, id: string)
    ensures
      var v := Reap(h, now, order);
      && (id in v.vms <==> id in h.vms && !(id in order && h.vms[id].ttl > 0 && now > h.vms[id].expiresAt))
      && (id in v.vms ==> v.vms[id] == h.vms[id])
  {
    if order != [] {
      var front, last := order[..|order| - 1], order[|order| - 1];
      ReapVisits(h, now, front, id);
      ReapVisits(h, now, front, last);
      assert id in order <==> id in front || id == last;
      assert last in order;
    }
  }

  /**
   * Counted from its creation, in any run: a sweep that visits a VM removes it if it was given a positive ttl and
   * that many seconds have passed, and leaves it in every other case.
   */
  lemma SweptIffExpired(before: seq<Action>, c: Action, between: seq<Action>, now: int, order: seq<string>)
    requires forall i :: 0 <= i < |before| ==> Enabled(before[i])
    requires c.Creation? && Enabled(c) && Create(Run(Boot(), before), c.id, c.env, c.ttl, c.now).1
    requires forall i :: 0 <= i < |between| ==>
               Enabled(between[i]) && !(between[i].Creation? && between[i].id == c.id)
    requires c.id in Run(Apply(Run(Boot(), before), c), between).vms
    ensures
      var h := Run(Apply(Run(Boot(), before), c), between);
      c.id in Apply(h, Sweep(now, order)).vms <==> !(c.id in order && c.ttl > 0 && now > c.now + c.ttl)
  {
    var g := Apply(Run(Boot(), before), c);
    VmStays(g, between, c.id);
    ReapVisits(Run(g, between), now, order, c.id);
  }

  // ----- Addresses -----

  /** Creations that get as far as taking an address; failed ones count too. */
  function IpMoves(actions: seq<Action>): nat {
    if actions == [] then 0
    else (if actions[0].Creation? && actions[0].env.mkdir then 1 else 0) + IpMoves(actions[1..])
  }

  /** Creations that get as far as taking a guest CID. */
  function CidMoves(h: Host, actions: seq<Action>): nat
    requires forall i :: 0 <= i < |actions| ==> Enabled(actions[i])
    decreases |actions|
  {
    if actions == [] then 0
    else (if TakesCid(h, actions[0]) then 1 else 0) + CidMoves(Apply(h, actions[0]), actions[1..])
  }

  predicate TakesCid(h: Host, a: Action)
    requires Enabled(a)
  {
    a.Creation? && a.env.mkdir && SetupTap(NextIp(h), TapName(a.id), a.env).1
  }

  lemma {:induction false} SweepKeepsCounters(h: Host, now: int, order: seq<string>)
    ensures Reap(h, now, order).ipCounter == h.ipCounter && Reap(h, now, order).cidCounter == h.cidCounter
    ensures RemoveAll(h, order).ipCounter == h.ipCounter && RemoveAll(h, order).cidCounter == h.cidCounter
  {
    if order != [] {
      SweepKeepsCounters(h, now, order[..|order| - 1]);
    }
  }

  lemma ApplyCounters(h: Host, a: Action)
    requires Enabled(a)
    ensures Apply(h, a).ipCounter ==
            if a.Creation? && a.env.mkdir then Cycle.Next(h.ipCounter, 1, COUNTER_MAX) else h.ipCounter
    ensures Apply(h, a).cidCounter == if TakesCid(h, a) then Cycle.Next(h.cidCounter, 2, COUNTER_MAX) else h.cidCounter
  {
    match a
    case Sweep(now, order) => SweepKeepsCounters(h, now, order);
    case Shutdown(order) => SweepKeepsCounters(h, 0, order);
    case Creation(id, env, ttl, now) =>
    case Exit(id) =>
    case Timer(id) =>
    case Delete(id) =>
  }

  lemma {:induction false} RunCounters(h: Host, actions: seq<Action>)
    requires forall i :: 0 <= i < |actions| ==> Enabled(actions[i])
    ensures Run(h, actions).ipCounter == Cycle.After(h.ipCounter, 1, COUNTER_MAX, IpMoves(actions))
    ensures Run(h, actions).cidCounter == Cycle.After(h.cidCounter, 2, COUNTER_MAX, CidMoves(h, actions))
    decreases |actions|
  {
    if actions != [] {
      ApplyCounters(h, actions[0]);
      RunCounters(Apply(h, actions[0]), actions[1..]);
      Cycle.AfterNext(h.ipCounter, 1, COUNTER_MAX, IpMoves(actions[1..]));
      Cycle.AfterNext(h.cidCounter, 2, COUNTER_MAX, CidMoves(Apply(h, actions[0]), actions[1..]));
    }
  }

  /**
   * In any run, a creation's address is one of 172.16.0.2 to .251, and the addresses of two creations differ
   * when fewer than 249 others took one in between.
   */
  lemma VmAddresses(actions: seq<Action>, first: Action, between: seq<Action>)
    requires forall i :: 0 <= i < |actions| ==> Enabled(actions[i])
    requires forall i :: 0 <= i < |between| ==> Enabled(between[i])
    requires first.Creation? && first.env.mkdir && Enabled(first) && IpMoves(between) < 249
    ensures
      var h := Run(Boot(), actions);
      var g := Run(Apply(h, first), between);
      2 <= h.ipCounter + 1 <= 251 && h.ipCounter != g.ipCounter
  {
    var h := Run(Boot(), actions);
    var k := IpMoves(actions);
    RunCounters(Boot(), actions);
    Cycle.AfterIs(1, 1, COUNTER_MAX, k);
    ApplyCounters(h, first);
    RunCounters(Apply(h, first), between);
    Cycle.AfterNext(h.ipCounter, 1, COUNTER_MAX, IpMoves(between));
    Cycle.WindowDistinct(h.ipCounter, 1, COUNTER_MAX, 0, IpMoves(between) + 1);
  }

  /**
   * A creation is given guest CID 2, the address vsock reserves for the host, exactly when it is the 249th,
   * 498th, ... to take one since the daemon started.
   */
  lemma ReservedCidIff(boot: Host, actions: seq<Action>, next: Action)
    requires boot == Boot() && forall i :: 0 <= i < |actions| ==> Enabled(actions[i])
    requires Enabled(next) && TakesCid(Run(boot, actions), next)
    ensures Apply(Run(boot, actions), next).cidCounter == 2 <==> (CidMoves(boot, actions) + 1) % 249 == 0
  {
    var h, k := Run(boot, actions), CidMoves(boot, actions);
    RunCounters(boot, actions);
    NextCidIff(h, next, k, 2, COUNTER_MAX);
  }

  lemma NextCidIff(h: Host, next: Action, k: nat, lo: int, hi: int)
    requires lo == 2 && hi == COUNTER_MAX && h.cidCounter == Cycle.After(lo, lo, hi, k)
    requires Enabled(next) && TakesCid(h, next)
    ensures Apply(h, next).cidCounter == lo <==> (k + 1) % (hi - lo + 1) == 0
  {
    ApplyCounters(h, next);
    Cycle.BottomIff(lo, hi, k + 1);
  }
}
