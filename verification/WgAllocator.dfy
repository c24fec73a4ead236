/** The WireGuard peer manager: address allocation with wrap-around, and reload from the state file. */
module WgAllocator {
  import opened Common
  import Cycle
  import Text

  const WG_SUBNET := "10.200.0"
  const CLIENT_START := 2
  const CLIENT_END := 254

  datatype Peer = Peer(ip: string, tokenHash: string, expiresAt: int, assignedAt: int)

  function IpOf(octet: nat): string {
    WG_SUBNET + "." + Text.Decimal(octet)
  }

  /** The leading run of digits. */
  function Digits(s: string): (d: string)
    ensures d <= s
    ensures forall i :: 0 <= i < |d| ==> Text.IsDigit(d[i])
  {
    if s == "" || !Text.IsDigit(s[0]) then "" else [s[0]] + Digits(s[1..])
  }

  /** A formatted scan of one decimal number: blanks, an optional sign, digits; zero when there is none that fits. */
  function ScanInt(s: string): int {
    if s == "" then 0
    else if s[0] == ' ' || s[0] == '\t' then ScanInt(s[1..])
    else
      var signed := s[0] == '-' || s[0] == '+';
      var n := Text.DecimalValue(Digits(if signed then s[1..] else s));
      var v: int := if s[0] == '-' then -(n as int) else n;
      if -TWO63 <= v < TWO63 then v else 0
  }

  function LastOctet(ip: string): int {
    var prefix := WG_SUBNET + ".";
    if prefix <= ip then ScanInt(ip[|prefix|..]) else 0
  }

  lemma {:induction false} DigitsAll(s: string)
    requires forall i :: 0 <= i < |s| ==> Text.IsDigit(s[i])
    ensures Digits(s) == s
  {
    if s != "" {
      DigitsAll(s[1..]);
      assert s == [s[0]] + s[1..];
    }
  }

  /** Parsing undoes formatting. */
  lemma OctetRoundTrip(n: nat)
    requires n < TWO63
    ensures LastOctet(IpOf(n)) == n
  {
    var d := Text.Decimal(n);
    var prefix := WG_SUBNET + ".";
    assert IpOf(n)[|prefix|..] == d;
    assert Text.IsDigit(d[0]);
    DigitsAll(d);
    Text.DecimalRoundTrip(n);
  }

  /** Of any address, the number after the subnet counts, up to the first character that is no digit; others count 0. */
  lemma LastOctetIs(n: nat, rest: string, ip: string)
    requires n < TWO63 && (rest == "" || !Text.IsDigit(rest[0]))
    ensures LastOctet("10.200.0." + (Text.Decimal(n) + rest)) == n
    ensures LastOctet("10.200.0." + ("-" + (Text.Decimal(n) + rest))) == 0 - n as int
    ensures !("10.200.0." <= ip) ==> LastOctet(ip) == 0
  {
    ScanIs(n, rest);
    AfterSubnet(Text.Decimal(n) + rest);
    AfterSubnet("-" + (Text.Decimal(n) + rest));
  }

  lemma AfterSubnet(s: string)
    ensures LastOctet("10.200.0." + s) == ScanInt(s)
  {
    assert ("10.200.0." + s)[9..] == s;
  }

  lemma ScanIs(n: nat, rest: string)
    requires n < TWO63 && (rest == "" || !Text.IsDigit(rest[0]))
    ensures ScanInt(Text.Decimal(n) + rest) == n
    ensures ScanInt("-" + (Text.Decimal(n) + rest)) == 0 - n as int
  {
    var d := Text.Decimal(n);
    DigitsThen(d, rest);
    Text.DecimalRoundTrip(n);
    assert Text.IsDigit((d + rest)[0]);
    ScanPlain(d + rest, n);
    ScanMinus("-" + (d + rest), d + rest, n);
  }

  lemma ScanPlain(s: string, n: nat)
    requires s != "" && Text.IsDigit(s[0]) && Text.DecimalValue(Digits(s)) == n < TWO63
    ensures ScanInt(s) == n
  {
  }

  lemma ScanMinus(s: string, t: string, n: nat)
    requires s == "-" + t && Text.DecimalValue(Digits(t)) == n < TWO63
    ensures ScanInt(s) == 0 - n as int
  {
    assert s[1..] == t;
  }

  lemma {:induction false} DigitsThen(d: string, rest: string)
    requires forall i :: 0 <= i < |d| ==> Text.IsDigit(d[i])
    requires rest == "" || !Text.IsDigit(rest[0])
    ensures Digits(d + rest) == d
  {
    if d == "" {
      assert d + rest == rest;
    } else {
      DigitsThen(d[1..], rest);
      assert (d + rest)[1..] == d[1..] + rest;
      assert d == [d[0]] + d[1..];
    }
  }

  predicate Survives(p: Peer, now: int) {
    p.expiresAt >= now
  }

  function Unexpired(peers: map<string, Peer>, now: int): map<string, Peer> {
    map k | k in peers && Survives(peers[k], now) :: peers[k]
  }

  /** Exactly the peers whose time is not over are left, unchanged. */
  ghost predicate Kept(before: map<string, Peer>, after: map<string, Peer>, now: int) {
    && (forall k :: k in after <==> k in before && before[k].expiresAt >= now)
    && (forall k :: k in after ==> after[k] == before[k])
  }

  /** h is the highest octet among the peers, or 1 when none is higher. */
  ghost predicate Highest(peers: map<string, Peer>, h: int) {
    && h >= CLIENT_START - 1
    && (forall k :: k in peers ==> LastOctet(peers[k].ip) <= h)
    && (h == CLIENT_START - 1 || exists k :: k in peers && LastOctet(peers[k].ip) == h)
  }

  /** The manager, and the keys the interface really has; `wg set` may fail to put one on or to take one off. */
  datatype Wg = Wg(peers: map<string, Peer>, nextIP: nat, iface: set<string>)

  function Fresh(): Wg {
    Wg(map[], CLIENT_START, {})
  }

  function Bump(next: nat): nat {
    Cycle.Next(next, CLIENT_START, CLIENT_END)
  }

  /** The peer's key is listed and its time is not over. */
  predicate Active(peers: map<string, Peer>, pubkey: string, now: int) {
    pubkey in peers && peers[pubkey].expiresAt > now
  }

  /**
   * A still active peer of that key is taken off first, if that works. The allocation is consumed even when the
   * interface refuses the new peer, and the map then still lists the old one.
   */
  function Added(w: Wg, pubkey: string, tokenHash: string, duration: int, now: int, off: bool, on: bool): Wg {
    var peer := Peer(IpOf(w.nextIP), tokenHash, now + duration, now);
    var left := if Active(w.peers, pubkey, now) && off then w.iface - {pubkey} else w.iface;
    Wg(if on then w.peers[pubkey := peer] else w.peers, Bump(w.nextIP), if on then left + {pubkey} else left)
  }

  function Dropped(w: Wg, pubkey: string, off: bool): Wg {
    w.(peers := w.peers - {pubkey}, iface := if off then w.iface - {pubkey} else w.iface)
  }

  /** Expired peers leave the map; those whose removal is stuck stay on the interface. */
  function Swept(w: Wg, now: int, stuck: set<string>): Wg {
    w.(peers := Unexpired(w.peers, now), iface := w.iface - (Expired(w.peers, now) - stuck))
  }

  function Expired(peers: map<string, Peer>, now: int): set<string> {
    set k | k in peers && !Survives(peers[k], now)
  }

  class WgManager {
    var peers: map<string, Peer>
    var nextIP: nat
    var stateFile: Option<map<string, Peer>>
    var iface: set<string>

    ghost function View(): Wg
      reads this
    {
      Wg(peers, nextIP, iface)
    }

    /** A new manager loads whatever the state file holds; the interface is as it was left. */
    constructor (stateFile: Option<map<string, Peer>>, iface: set<string>, now: int)
      ensures this.iface == iface
      ensures stateFile.None? ==> View() == Fresh().(iface := iface)
      ensures stateFile.Some? ==>
                peers == Unexpired(stateFile.value, now) && Highest(peers, nextIP - 1)
    {
      this.stateFile := stateFile;
      this.iface := iface;
      peers := map[];
      nextIP := CLIENT_START;
      new;
      LoadState(now);
    }

    /** Drops expired peers and continues after the highest octet left. */
    method LoadState(now: int)
      modifies this`peers, this`nextIP
      ensures stateFile.None? ==> View() == old(View())
      ensures stateFile.Some? ==> peers == Unexpired(stateFile.value, now) && Highest(peers, nextIP - 1)
      ensures stateFile.Some? ==> Kept(stateFile.value, peers, now)
    {
      if stateFile.None? {
        return;
      }
      peers := stateFile.value;
      ghost var all := peers;
      var highest: nat := CLIENT_START - 1;
      var todo := peers.Keys;
      while todo != {}
        invariant todo <= all.Keys
        invariant peers == map k | k in all && (k in todo || Survives(all[k], now)) :: all[k]
        invariant highest >= CLIENT_START - 1
        invariant forall k :: k in all && k !in todo && Survives(all[k], now) ==> LastOctet(all[k].ip) <= highest
        invariant highest == CLIENT_START - 1 ||
                  exists k :: k in all && k !in todo && Survives(all[k], now) && LastOctet(all[k].ip) == highest
        decreases todo
      {
        var pk :| pk in todo;
        todo := todo - {pk};
        if peers[pk].expiresAt < now {
          peers := peers - {pk};
          continue;
        }
        var ipNum := LastOctet(peers[pk].ip);
        if ipNum > highest {
          highest := ipNum;
        }
      }
      assert peers == Unexpired(all, now);
      nextIP := highest + 1;
    }

    method AssignIP() returns (ip: string)
      modifies this`nextIP
      ensures ip == IpOf(old(nextIP)) && nextIP == Bump(old(nextIP))
      ensures ip == "10.200.0." + Text.Decimal(old(nextIP))
      ensures nextIP == if old(nextIP) >= 254 then 2 else old(nextIP) + 1
    {
      ip := WG_SUBNET + "." + Text.Decimal(nextIP);
      nextIP := nextIP + 1;
      if nextIP > CLIENT_END {
        nextIP := CLIENT_START;
      }
    }

    method WgRemove(pubkey: string, off: bool)
      modifies this`iface
      ensures iface == if off then old(iface) - {pubkey} else old(iface)
    {
      if off {
        iface := iface - {pubkey};
      }
    }

    /** `off` and `on` say whether the interface obeys the two commands. */
    method AddPeer(pubkey: string, tokenHash: string, duration: int, now: int, off: bool, on: bool)
      returns (ip: Option<string>)
      modifies this
      ensures View() == Added(old(View()), pubkey, tokenHash, duration, now, off, on)
      ensures ip == if on then Some(IpOf(old(nextIP))) else None
      ensures stateFile == if on then Some(peers) else old(stateFile)
      ensures peers == if !on then old(peers) else old(peers)[pubkey :=
                Peer("10.200.0." + Text.Decimal(old(nextIP)), tokenHash, now + duration, now)]
      ensures pubkey in iface <==>
                on || (pubkey in old(iface) && !(off && pubkey in old(peers) && old(peers)[pubkey].expiresAt > now))
      ensures forall k :: k != pubkey ==> (k in iface <==> k in old(iface))
    {
      if pubkey in peers && peers[pubkey].expiresAt > now {
        WgRemove(pubkey, off);
      }
      var addr := AssignIP();
      var peer := Peer(addr, tokenHash, now + duration, now);
      if !on {
        return None;
      }
      iface := iface + {pubkey};
      peers := peers[pubkey := peer];
      stateFile := Some(peers);
      return Some(addr);
    }

    method RemovePeer(pubkey: string, off: bool)
      modifies this`peers, this`stateFile, this`iface
      ensures View() == Dropped(old(View()), pubkey, off) && stateFile == Some(peers)
      ensures peers == old(peers) - {pubkey} && iface == if off then old(iface) - {pubkey} else old(iface)
    {
      WgRemove(pubkey, off);
      peers := peers - {pubkey};
      stateFile := Some(peers);
    }

    /** `stuck` are the keys the interface fails to take off. */
    method Cleanup(now: int, stuck: set<string>)
      modifies this`peers, this`stateFile, this`iface
      ensures View() == Swept(old(View()), now, stuck) && stateFile == Some(peers)
      ensures Kept(old(peers), peers, now)
      ensures forall k :: k in iface <==>
                k in old(iface) && !(k in old(peers) && old(peers)[k].expiresAt < now && k !in stuck)
    {
      ghost var all, before := peers, iface;
      var todo := peers.Keys;
      while todo != {}
        invariant todo <= all.Keys && nextIP == old(nextIP)
        invariant peers == map k | k in all && (k in todo || Survives(all[k], now)) :: all[k]
        invariant iface == before - (Expired(all, now) - todo - stuck)
        decreases todo
      {
        var pk :| pk in todo;
        if peers[pk].expiresAt < now {
          WgRemove(pk, pk !in stuck);
          peers := peers - {pk};
        }
        todo := todo - {pk};
      }
      assert peers == Unexpired(all, now);
      stateFile := Some(peers);
    }
  }

  // ----- Whole runs -----

  datatype Op =
    | Add(pubkey: string, tokenHash: string, duration: int, now: int, off: bool, on: bool)
    | Drop(pubkey: string, off: bool)
    | Sweep(now: int, stuck: set<string>)

  function Apply(w: Wg, op: Op): Wg {
    match op
    case Add(pubkey, tokenHash, duration, now, off, on) => Added(w, pubkey, tokenHash, duration, now, off, on)
    case Drop(pubkey, off) => Dropped(w, pubkey, off)
    case Sweep(now, stuck) => Swept(w, now, stuck)
  }

  /** The octets handed out over a run. */
  function Allocations(w: Wg, ops: seq<Op>): seq<nat>
    decreases |ops|
  {
    if ops == [] then []
    else (if ops[0].Add? then [w.nextIP] else []) + Allocations(Apply(w, ops[0]), ops[1..])
  }

  /** Adds consume the counter one by one; nothing else touches it. */
  lemma {:induction false} AllocationAt(w: Wg, ops: seq<Op>, i: nat)
    requires i < |Allocations(w, ops)|
    ensures Allocations(w, ops)[i] == Cycle.After(w.nextIP, CLIENT_START, CLIENT_END, i)
    decreases |ops|
  {
    if ops[0].Add? {
      if i > 0 {
        AllocationAt(Apply(w, ops[0]), ops[1..], i - 1);
        Cycle.AfterNext(w.nextIP, CLIENT_START, CLIENT_END, i - 1);
      }
    } else {
      AllocationAt(Apply(w, ops[0]), ops[1..], i);
    }
  }

  /**
   * From a fresh manager: every octet is in 2..254, any 253 allocations in a row are distinct, and the next repeats.
   */
  lemma FreshAllocations(w: Wg, ops: seq<Op>, i: nat, j: nat)
    requires w == Fresh() && i <= j < |Allocations(w, ops)|
    ensures
      var a := Allocations(w, ops);
      && 2 <= a[i] <= 254
      && (i < j < i + 253 ==> a[i] != a[j])
      && (j == i + 253 ==> a[i] == a[j])
  {
    AllocationAt(w, ops, i);
    AllocationAt(w, ops, j);
    Cycle.AfterIs(w.nextIP, CLIENT_START, CLIENT_END, i);
    if i < j < i + 253 {
      Cycle.WindowDistinct(w.nextIP, CLIENT_START, CLIENT_END, i, j);
    } else if j == i + 253 {
      Cycle.WindowRepeats(w.nextIP, CLIENT_START, CLIENT_END, i);
    }
  }

  /** After a reload the counter climbs from just above the highest survivor up to 254. */
  lemma {:induction false} ClimbAfterReload(h: int, i: nat)
    requires CLIENT_START - 1 <= h && h + 1 + i <= CLIENT_END
    ensures Cycle.After(h + 1, CLIENT_START, CLIENT_END, i) == h + 1 + i
  {
    if i > 0 {
      ClimbAfterReload(h, i - 1);
    }
  }

  /** No peer has this octet's address. */
  ghost predicate Unheld(peers: map<string, Peer>, octet: nat) {
    forall k :: k in peers ==> peers[k].ip != IpOf(octet)
  }

  lemma ReloadOctet(w: Wg, h: int, ops: seq<Op>, i: nat)
    requires CLIENT_START - 1 <= h && w.nextIP == h + 1
    requires i < |Allocations(w, ops)| && i < CLIENT_END - h
    ensures Allocations(w, ops)[i] == h + 1 + i
  {
    AllocationAt(w, ops, i);
    ClimbAfterReload(h, i);
  }

  /**
   * After a reload whose highest surviving octet is h, the next 254 - h allocations differ from each other and
   * from every survivor's address.
   */
  lemma ReloadAllocations(w: Wg, h: int, ops: seq<Op>, i: nat, j: nat)
    requires Highest(w.peers, h) && w.nextIP == h + 1
    requires i <= j < |Allocations(w, ops)| && j < 254 - h
    ensures
      var a := Allocations(w, ops);
      2 <= a[i] <= 254 && (i < j ==> a[i] != a[j]) && Unheld(w.peers, a[i])
  {
    ReloadOctet(w, h, ops, i);
    ReloadOctet(w, h, ops, j);
    AboveSurvivors(w, h, Allocations(w, ops)[i]);
  }

  lemma AboveSurvivors(w: Wg, h: int, n: nat)
    requires Highest(w.peers, h) && h < n < TWO63
    ensures Unheld(w.peers, n)
  {
    OctetRoundTrip(n);
  }

  /** The first allocation after a reload is a usable address exactly when no survivor holds the last one. */
  lemma FirstAfterReloadIff(w: Wg, h: int, ops: seq<Op>)
    requires Highest(w.peers, h) && w.nextIP == h + 1 && |Allocations(w, ops)| > 0
    ensures 2 <= Allocations(w, ops)[0] <= 254 <==> h < 254
    ensures Allocations(w, ops)[0] == h + 1
  {
    AllocationAt(w, ops, 0);
  }

  /** Save and reload: the addresses written by the manager itself are read back as the octets that were assigned. */
  lemma SavedOctets(w: Wg, pubkey: string, tokenHash: string, duration: int, now: int, off: bool)
    requires w.nextIP < TWO63
    ensures LastOctet(Added(w, pubkey, tokenHash, duration, now, off, true).peers[pubkey].ip) == w.nextIP
  {
    OctetRoundTrip(w.nextIP);
  }

  // ----- Addresses given out twice -----

  /** A run with its bookkeeping: how many addresses were handed out, and which of them each new peer got. */
  datatype Track = Track(w: Wg, given: nat, number: map<string, nat>)

  function TrackApply(s: Track, op: Op): Track {
    var w := Apply(s.w, op);
    match op
    case Add(pubkey, _, _, _, _, on) =>
      Track(w, s.given + 1, if on then s.number[pubkey := s.given] else s.number)
    case Drop(pubkey, _) => Track(w, s.given, s.number - {pubkey})
    case Sweep(_, _) => Track(w, s.given, map k | k in s.number && k in w.peers :: s.number[k])
  }

  function TrackRun(s: Track, ops: seq<Op>): Track
    decreases |ops|
  {
    if ops == [] then s else TrackRun(TrackApply(s, ops[0]), ops[1..])
  }

  predicate InRange(w: Wg) {
    CLIENT_START <= w.nextIP <= CLIENT_END
  }

  /** The octet a counter that starts in range stands at after k allocations. */
  function OctetAfter(w0: Wg, k: nat): (r: nat)
    requires InRange(w0)
    ensures r == Cycle.After(w0.nextIP, CLIENT_START, CLIENT_END, k) && CLIENT_START <= r <= CLIENT_END
  {
    Cycle.AfterIs(w0.nextIP, CLIENT_START, CLIENT_END, k);
    Cycle.After(w0.nextIP, CLIENT_START, CLIENT_END, k)
  }

  /** Peers added in the run hold the address of their number; the others are as they were before it. */
  ghost predicate Tracks(w0: Wg, s: Track)
    requires InRange(w0)
  {
    && s.w.nextIP == OctetAfter(w0, s.given)
    && (forall k :: k in s.number ==>
          && k in s.w.peers && s.number[k] < s.given
          && s.w.peers[k].ip == IpOf(OctetAfter(w0, s.number[k])))
    && (forall k :: k in s.w.peers && k !in s.number ==> k in w0.peers && s.w.peers[k] == w0.peers[k])
  }

  lemma {:induction false} RunTracks(w0: Wg, s: Track, ops: seq<Op>)
    requires InRange(w0) && Tracks(w0, s)
    ensures Tracks(w0, TrackRun(s, ops))
    decreases |ops|
  {
    if ops != [] {
      assert OctetAfter(w0, s.given + 1) == Bump(OctetAfter(w0, s.given));
      RunTracks(w0, TrackApply(s, ops[0]), ops[1..]);
    }
  }

  lemma SameAddressIff(a: nat, b: nat)
    requires a < TWO63 && b < TWO63
    ensures IpOf(a) == IpOf(b) <==> a == b
  {
    OctetRoundTrip(a);
    OctetRoundTrip(b);
  }

  /**
   * The next add hands out the address a live peer still holds exactly when that peer was added a multiple of 253
   * allocations ago, or was there before the run and holds the address the counter has come to.
   */
  lemma AddressHeldIff(w0: Wg, ops: seq<Op>, k: string)
    requires InRange(w0) && k in RunOps(w0, ops).peers
    ensures
      var s := TrackRun(Track(w0, 0, map[]), ops);
      && s.w == RunOps(w0, ops) && s.given == |Allocations(w0, ops)|
      && (k in s.number ==> s.number[k] < s.given)
    ensures
      var s := TrackRun(Track(w0, 0, map[]), ops);
      s.w.peers[k].ip == IpOf(s.w.nextIP) <==>
      if k in s.number then (s.given - s.number[k]) % 253 == 0
      else k in w0.peers && w0.peers[k].ip == IpOf(OctetAfter(w0, s.given))
  {
    var s := TrackRun(Track(w0, 0, map[]), ops);
    TrackIsRun(Track(w0, 0, map[]), ops);
    RunTracks(w0, Track(w0, 0, map[]), ops);
    if k in s.number {
      SameAddressIff(OctetAfter(w0, s.number[k]), s.w.nextIP);
      Cycle.SameIff(w0.nextIP, CLIENT_START, CLIENT_END, s.number[k], s.given);
    }
  }

  /** From a fresh manager, a clash needs a peer that has outlived a whole turn of the counter. */
  lemma NoClashWithinTurn(w0: Wg, ops: seq<Op>)
    requires w0 == Fresh()
    requires
      var s := TrackRun(Track(w0, 0, map[]), ops);
      forall k :: k in s.number ==> s.given < s.number[k] + 253
    ensures Unheld(RunOps(w0, ops).peers, RunOps(w0, ops).nextIP)
  {
    var s := TrackRun(Track(w0, 0, map[]), ops);
    TrackIsRun(Track(w0, 0, map[]), ops);
    RunTracks(w0, Track(w0, 0, map[]), ops);
    forall k | k in s.w.peers ensures s.w.peers[k].ip != IpOf(s.w.nextIP) {
      AddressHeldIff(w0, ops, k);
    }
  }

  function RunOps(w: Wg, ops: seq<Op>): Wg
    decreases |ops|
  {
    if ops == [] then w else RunOps(Apply(w, ops[0]), ops[1..])
  }

  /** The bookkeeping changes nothing: it is the same manager, and numbers count allocations. */
  lemma {:induction false} TrackIsRun(s: Track, ops: seq<Op>)
    ensures TrackRun(s, ops).w == RunOps(s.w, ops)
    ensures TrackRun(s, ops).given == s.given + |Allocations(s.w, ops)|
    decreases |ops|
  {
    if ops != [] {
      TrackIsRun(TrackApply(s, ops[0]), ops[1..]);
    }
  }

  // ----- The interface -----

  /** The interface has exactly the listed peers. */
  predicate InStep(w: Wg) {
    w.iface == w.peers.Keys
  }

  /** The interface did what the operation relied on; a re-add may fail to take the old peer off, not to put it back. */
  predicate Obeyed(w: Wg, op: Op) {
    match op
    case Add(pubkey, _, _, now, off, on) => on || !off || !Active(w.peers, pubkey, now)
    case Drop(pubkey, off) => off || pubkey !in w.peers
    case Sweep(now, stuck) => Expired(w.peers, now) !! stuck
  }

  /**
   * Map and interface stay in step exactly when the interface obeyed. In particular a re-add that is refused after
   * the active peer was taken off leaves that client listed without a tunnel.
   */
  lemma StaysInStepIff(w: Wg, op: Op)
    requires InStep(w)
    ensures InStep(Apply(w, op)) <==> Obeyed(w, op)
  {
    var v := Apply(w, op);
    match op
    case Add(pubkey, _, _, now, off, on) =>
      if !Obeyed(w, op) {
        assert pubkey in v.peers && pubkey !in v.iface;
      }
    case Drop(pubkey, off) =>
      if !Obeyed(w, op) {
        assert pubkey in v.iface && pubkey !in v.peers;
      }
    case Sweep(now, stuck) =>
      assert v.peers.Keys == w.peers.Keys - Expired(w.peers, now);
      if k :| k in Expired(w.peers, now) && k in stuck {
        assert k in v.iface && k !in v.peers;
      }
  }

  /** Every state of the run is in step. */
  predicate AlwaysInStep(w: Wg, ops: seq<Op>)
    decreases |ops|
  {
    InStep(w) && (ops != [] ==> AlwaysInStep(Apply(w, ops[0]), ops[1..]))
  }

  predicate AlwaysObeyed(w: Wg, ops: seq<Op>)
    decreases |ops|
  {
    ops != [] ==> Obeyed(w, ops[0]) && AlwaysObeyed(Apply(w, ops[0]), ops[1..])
  }

  /** From a fresh manager: listed peers and real peers agree all along exactly when the interface obeyed all along. */
  lemma {:induction false} AlwaysInStepIff(w: Wg, ops: seq<Op>)
    requires InStep(w)
    ensures AlwaysInStep(w, ops) <==> AlwaysObeyed(w, ops)
    decreases |ops|
  {
    if ops != [] {
      StaysInStepIff(w, ops[0]);
      if Obeyed(w, ops[0]) {
        AlwaysInStepIff(Apply(w, ops[0]), ops[1..]);
      }
    }
  }
}
