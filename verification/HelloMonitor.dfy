/** Neighbour tracking by hello messages (hello_monitor/hello_monitor.cc, with the links
    of adhoc/routing_protocol.cc). Each mutex-protected section is one method. */
module HelloMonitor {
  import opened Packets
  import opened NodeSpec
  import opened Aodv
  import RreqIds
  import opened Sets

  const HELLO_INTERVAL_MS := 500
  const HELLO_NEIGHBOR_TTL_MS := 1000
  const TWO_32: int := 0x1_0000_0000
  const TWO_64: int := 0x1_0000_0000_0000_0000

  type U64 = x: nat | x < TWO_64

  // ----- Links as values

  /** The neighbour list, and when each node was last heard. */
  datatype Hood = Hood(links: seq<Ip>, heard: map<Ip, U64>)

  /** `now - heardAt` on unsigned numbers, compared with the time to live. */
  predicate IsFresh(now: U64, heardAt: U64) { (now - heardAt) % TWO_64 < HELLO_NEIGHBOR_TTL_MS }

  function FreshIn(heard: map<Ip, U64>, now: U64): set<Ip> { set ip | ip in heard && IsFresh(now, heard[ip]) }

  predicate InOrder(s: seq<Ip>) { forall i, j :: 0 <= i < j < |s| ==> s[i] < s[j] }

  /** A set in ascending order, as `std::map` iterates. */
  function Ascending(ips: set<Ip>): (s: seq<Ip>)
    ensures forall x :: x in s <==> x in ips
    ensures InOrder(s)
  {
    if ips == {} then []
    else
      var m := RreqIds.Smallest(ips);
      [m] + Ascending(ips - {m})
  }

  /** The fresh ones among some keys, in their order. */
  function FreshOf(keys: seq<Ip>, heard: map<Ip, U64>, now: U64): seq<Ip> {
    if keys == [] then []
    else
      var last := keys[|keys| - 1];
      FreshOf(keys[..|keys| - 1], heard, now) + if last in heard && IsFresh(now, heard[last]) then [last] else []
  }

  lemma FreshOfStep(keys: seq<Ip>, i: nat, heard: map<Ip, U64>, now: U64)
    requires i < |keys|
    ensures FreshOf(keys[..i + 1], heard, now)
         == if keys[i] in heard && IsFresh(now, heard[keys[i]]) then FreshOf(keys[..i], heard, now) + [keys[i]]
            else FreshOf(keys[..i], heard, now)
  {
    assert keys[..i + 1][..i] == keys[..i];
  }

  lemma {:induction false} FreshOfFilters(keys: seq<Ip>, heard: map<Ip, U64>, now: U64)
    ensures forall x :: x in FreshOf(keys, heard, now) <==> x in keys && x in heard && IsFresh(now, heard[x])
  {
    if keys != [] {
      FreshOfFilters(keys[..|keys| - 1], heard, now);
      assert keys == keys[..|keys| - 1] + [keys[|keys| - 1]];
    }
  }

  lemma {:induction false} FreshOfKeepsOrder(keys: seq<Ip>, heard: map<Ip, U64>, now: U64)
    requires InOrder(keys)
    ensures InOrder(FreshOf(keys, heard, now))
  {
    if keys != [] {
      var before, last := keys[..|keys| - 1], keys[|keys| - 1];
      FreshOfFilters(before, heard, now);
      assert forall i :: 0 <= i < |before| ==> before[i] == keys[i];
      FreshOfKeepsOrder(before, heard, now);
      var f := FreshOf(before, heard, now);
      forall i | 0 <= i < |f|
        ensures f[i] < last
      {
        assert f[i] in before;
      }
      assert FreshOf(keys, heard, now) == f || FreshOf(keys, heard, now) == f + [last];
    }
  }

  lemma FreshOfAscending(heard: map<Ip, U64>, now: U64)
    ensures FreshOf(Ascending(heard.Keys), heard, now) == Ascending(FreshIn(heard, now))
  {
    FreshOfFilters(Ascending(heard.Keys), heard, now);
    FreshOfKeepsOrder(Ascending(heard.Keys), heard, now);
    AscendingIsUnique(FreshOf(Ascending(heard.Keys), heard, now), Ascending(FreshIn(heard, now)));
  }

  function Hear(h: Hood, ip: Ip, now: U64): Hood {
    Hood(if ip in h.links then h.links else h.links + [ip], h.heard[ip := now])
  }

  function AddLinks(n: Node, ips: seq<Ip>): Node {
    if ips == [] then n else AddLink(AddLinks(n, ips[..|ips| - 1]), ips[|ips| - 1])
  }

  lemma AddLinksStep(n: Node, ips: seq<Ip>, ip: Ip)
    ensures AddLinks(n, ips + [ip]) == AddLink(AddLinks(n, ips), ip)
  {
    assert (ips + [ip])[..|ips|] == ips;
  }

  lemma AddLinksAppends(n: Node, ips: seq<Ip>)
    requires n.neighbors == [] && InOrder(ips)
    ensures AddLinks(n, ips).neighbors == ips
  {
  }

  /** Everyone on the list has an active route over its own link, everyone else the route
      it had before. */
  ghost predicate Rebuilt(n: Node, m: Node, ips: seq<Ip>) {
    && m == n.(neighbors := ips, table := m.table)
    && (forall x :: x in ips ==> x in m.table && m.table[x].active && m.table[x].nextHop == x)
    && (forall x :: x !in ips ==> (x in m.table <==> x in n.table) && (x in n.table ==> m.table[x] == n.table[x]))
  }

  lemma RebuiltOneMore(n: Node, m: Node, ips: seq<Ip>, ip: Ip)
    requires Rebuilt(n, m, ips) && ip !in ips
    ensures Rebuilt(n, AddLink(m, ip), ips + [ip])
  {
    var m' := AddLink(m, ip);
    assert m'.neighbors == ips + [ip];
    forall x | x in ips + [ip] ensures x in m'.table && m'.table[x].active && m'.table[x].nextHop == x {
      assert x in ips || x == ip;
    }
  }

  /** Rebuilding the list takes no route from anyone: a neighbour no longer heard keeps an
      active route without a link. */
  lemma {:induction false} RebuiltRoutes(n: Node, ips: seq<Ip>)
    requires InOrder(ips)
    ensures Rebuilt(n, AddLinks(ResetLinks(n), ips), ips)
  {
    if ips != [] {
      var before, last := ips[..|ips| - 1], ips[|ips| - 1];
      RebuiltRoutes(n, before);
      assert ips == before + [last];
      RebuiltOneMore(n, AddLinks(ResetLinks(n), before), before, last);
    }
  }

  // ----- The monitor

  class HelloMonitor {
    const routing: Aodv
    const portId: int
    const parentIp: Ip
    /** The 40 bytes of a hello; nobody reads them. */
    const payload: seq<U8>
    var detectionTimes: map<Ip, U64>
    var active: bool
    /** What `_getCurrentTimeMS` reads. */
    var clock: U64

    ghost predicate Valid()
    {
      routing.Valid()
    }

    ghost function View(): Hood
      reads this, routing
    {
      Hood(routing.neighbors, detectionTimes)
    }

    constructor (portId: int, routing: Aodv, payload: seq<U8>)
      requires routing.Valid()
      ensures Valid() && this.routing == routing && this.portId == portId && detectionTimes == map[] && active
      ensures parentIp == routing.ipAddress && this.payload == payload
    {
      this.portId, this.routing, this.parentIp, this.payload := portId, routing, routing.ipAddress, payload;
      detectionTimes, active, clock := map[], true, 0;
    }

    /** A hello makes its sender a neighbour at once, and its detection time is noted. */
    method ReceiveHelloMessage(nodeIp: Ip)
      requires Valid()
      modifies this`detectionTimes, routing`neighbors, routing.table
      ensures View() == Hear(old(View()), nodeIp, clock)
      ensures routing.State() == AddLink(old(routing.State()), nodeIp)
    {
      routing.AddLink(nodeIp);
      detectionTimes := detectionTimes[nodeIp := clock];
    }

    /** Step 1 of a pass: the neighbour list is rebuilt from the nodes heard lately. */
    method RefreshLinks()
      requires Valid()
      modifies routing`neighbors, routing.table
      ensures View() == Refresh(old(View()), clock)
      ensures routing.State() == AddLinks(ResetLinks(old(routing.State())), Ascending(FreshIn(detectionTimes, clock)))
    {
      routing.ResetLinks();
      AddFreshLinks();
      FreshOfAscending(detectionTimes, clock);
      AddLinksAppends(ResetLinks(old(routing.State())), Ascending(FreshIn(detectionTimes, clock)));
      assert routing.neighbors == routing.State().neighbors;
    }

    method AddFreshLinks()
      requires Valid()
      modifies routing`neighbors, routing.table
      ensures routing.State() ==
              AddLinks(old(routing.State()), FreshOf(Ascending(detectionTimes.Keys), detectionTimes, clock))
    {
      ghost var start := routing.State();
      var keys := Ascending(detectionTimes.Keys);
      for i := 0 to |keys|
        invariant routing.State() == AddLinks(start, FreshOf(keys[..i], detectionTimes, clock))
      {
        FreshOfStep(keys, i, detectionTimes, clock);
        AddLinksStep(start, FreshOf(keys[..i], detectionTimes, clock), keys[i]);
        if IsFresh(clock, detectionTimes[keys[i]]) {
          routing.AddLink(keys[i]);
        }
      }
      assert keys[..|keys|] == keys;
    }

    /** `_sleep`, taken to last exactly as long as asked. */
    method Sleep(ms: nat)
      modifies this`clock
      ensures clock == (old(clock) + ms) % TWO_64
    {
      clock := (clock + ms) % TWO_64;
    }

    method BroadcastHelloMessage()
      requires Valid()
      modifies routing`rreqPacketBuffer, routing`outbox, routing.table, routing.sequenceNum, routing.rreqHelper`rreqId
      ensures routing.State() == old(routing.State())
      ensures routing.outbox == old(routing.outbox) + [Hello()]
    {
      routing.SendPacket(portId, payload, BROADCAST, parentIp);
    }

    /** A pass: the list is refreshed and, half an interval later, one hello goes out; the
        next pass starts exactly 500 ms after this one. */
    method OnePass()
      requires Valid()
      modifies this`clock, routing`neighbors, routing`rreqPacketBuffer, routing`outbox,
        routing.table, routing.sequenceNum, routing.rreqHelper`rreqId
      ensures View() == Refresh(old(View()), old(clock)) && routing.outbox == old(routing.outbox) + [Hello()]
      ensures clock == After(old(clock), 1)
    {
      HalvesAdd(clock);
      RefreshLinks();
      Sleep(HELLO_INTERVAL_MS / 2);
      BroadcastHelloMessage();
      assert routing.neighbors == routing.State().neighbors;
      Sleep(HELLO_INTERVAL_MS / 2);
    }

    ghost function Hellos(n: nat): seq<Output> { if n == 0 then [] else [Hello()] + Hellos(n - 1) }

    ghost function Hello(): Output { Send(BROADCAST, DataPacket(portId, MakeFrame(BROADCAST, parentIp, payload))) }

    /** One pass every 500 ms until the time is used up: exactly `Broadcasts` hellos, the
        clock that many intervals later, and the list as the last pass, one interval before
        that, made it. */
    method UpdateNeighbors(remaining: U64)
      requires Valid()
      modifies this`active, this`clock, routing`neighbors, routing`rreqPacketBuffer, routing`outbox,
        routing.table, routing.sequenceNum, routing.rreqHelper`rreqId
      ensures routing.outbox == old(routing.outbox) + Hellos(Broadcasts(remaining)) && !active
      ensures clock == After(old(clock), Broadcasts(remaining))
      ensures View() == PassesMake(old(View()), old(clock), Broadcasts(remaining))
      decreases Budget(remaining)
    {
      if Signed(remaining) <= 0 {
        NoPass(clock, remaining);
        active := false;
        return;
      }
      active := true;
      ghost var rest := Broadcasts(AfterOnePass(remaining));
      ghost var hood, start := View(), clock;
      OnePassOf(hood, start, remaining);
      OnePass();
      assert View() == Refresh(hood, start) && clock == After(start, 1);
      OneMoreHello(rest);
      UpdateNeighbors(AfterOnePass(remaining));
    }

    lemma OneMoreHello(n: nat)
      ensures Hellos(n + 1) == [Hello()] + Hellos(n)
    {
    }
  }

  /** The list after a pass: exactly the nodes heard lately, in ascending order. */
  function Refresh(h: Hood, now: U64): Hood { Hood(Ascending(FreshIn(h.heard, now)), h.heard) }

  lemma {:induction false} AscendingIsUnique(s: seq<Ip>, t: seq<Ip>)
    requires InOrder(s) && InOrder(t)
    requires forall x :: x in s <==> x in t
    ensures s == t
  {
    assert t != [] ==> t[0] in s;
    assert s != [] ==> s[0] in t;
    if s != [] {
      assert s[0] == t[0];
      forall x
        ensures x in s[1..] <==> x in t[1..]
      {
        assert x in s <==> x == s[0] || x in s[1..];
        assert x in t <==> x == t[0] || x in t[1..];
      }
      AscendingIsUnique(s[1..], t[1..]);
    }
  }

  /** The clock `n` intervals later. */
  function After(clock: U64, n: nat): U64 { (clock + n * HELLO_INTERVAL_MS) % TWO_64 }

  lemma WrapOnce(a: nat, b: nat)
    ensures (a % TWO_64 + b) % TWO_64 == (a + b) % TWO_64
  {
  }

  lemma HalvesAdd(clock: U64)
    ensures ((clock + HELLO_INTERVAL_MS / 2) % TWO_64 + HELLO_INTERVAL_MS / 2) % TWO_64 == After(clock, 1)
  {
  }

  lemma AfterOneMore(clock: U64, n: nat)
    requires n > 0
    ensures After(After(clock, 1), n - 1) == After(clock, n)
  {
    WrapOnce(clock + HELLO_INTERVAL_MS, (n - 1) * HELLO_INTERVAL_MS);
  }

  /** What `n` passes from `clock` on make of the list, if nothing is heard meanwhile: the
      last one, started at the clock then, decides. */
  function PassesMake(h: Hood, clock: U64, n: nat): Hood {
    if n == 0 then h else Refresh(h, After(clock, n - 1))
  }

  lemma PassesMakeOneMore(h: Hood, clock: U64, n: nat)
    requires n > 0
    ensures PassesMake(Refresh(h, clock), After(clock, 1), n - 1) == PassesMake(h, clock, n)
  {
    if n > 1 { AfterOneMore(clock, n - 1); }
  }

  // ----- How long `sendHellos` runs

  /** `signed(x)`: the low 32 bits of an unsigned 64-bit number, as a signed int. */
  function Signed(x: U64): int { if x % TWO_32 < TWO_32 / 2 then x % TWO_32 else x % TWO_32 - TWO_32 }

  function Budget(x: U64): nat { if Signed(x) <= 0 then 0 else Signed(x) }

  /** `remaining` less one interval, in 64 bits. */
  function AfterOnePass(remaining: U64): U64 { (remaining - HELLO_INTERVAL_MS) % TWO_64 }

  /** How many hellos a duration asks for: one per 500 ms begun. */
  function Broadcasts(duration: U64): nat { (Budget(duration) + HELLO_INTERVAL_MS - 1) / HELLO_INTERVAL_MS }

  lemma LowBits(x: U64)
    ensures (x - HELLO_INTERVAL_MS) % TWO_64 % TWO_32 == (x % TWO_32 - HELLO_INTERVAL_MS) % TWO_32
  {
    var y := (x - HELLO_INTERVAL_MS) % TWO_64;
    assert y == x - HELLO_INTERVAL_MS || y == x - HELLO_INTERVAL_MS + TWO_64;
    assert TWO_64 == TWO_32 * TWO_32;
  }

  lemma OnePassLess(x: U64)
    requires Signed(x) > 0
    ensures var rest := (x - HELLO_INTERVAL_MS) % TWO_64;
            && Budget(rest) == (if Signed(x) <= HELLO_INTERVAL_MS then 0 else Signed(x) - HELLO_INTERVAL_MS)
            && Budget(rest) < Budget(x) && Broadcasts(x) == Broadcasts(rest) + 1
  {
    LowBits(x);
    var lo, rest := x % TWO_32, (x - HELLO_INTERVAL_MS) % TWO_64;
    assert rest % TWO_32 == if lo >= HELLO_INTERVAL_MS then lo - HELLO_INTERVAL_MS else lo - HELLO_INTERVAL_MS + TWO_32;
    OneQuotientLess(Budget(x));
  }

  lemma OneQuotientLess(n: nat)
    ensures n > HELLO_INTERVAL_MS ==>
              (n + HELLO_INTERVAL_MS - 1) / HELLO_INTERVAL_MS ==
              (n - HELLO_INTERVAL_MS + HELLO_INTERVAL_MS - 1) / HELLO_INTERVAL_MS + 1
    ensures 0 < n <= HELLO_INTERVAL_MS ==> (n + HELLO_INTERVAL_MS - 1) / HELLO_INTERVAL_MS == 1
  {
  }

  lemma NoPass(clock: U64, remaining: U64)
    requires Signed(remaining) <= 0
    ensures Broadcasts(remaining) == 0 && After(clock, Broadcasts(remaining)) == clock
  {
  }

  /** One pass and then the passes of what remains are the passes of the whole. */
  lemma OnePassOf(h: Hood, clock: U64, remaining: U64)
    requires Signed(remaining) > 0
    ensures Budget(AfterOnePass(remaining)) < Budget(remaining)
    ensures Broadcasts(remaining) == Broadcasts(AfterOnePass(remaining)) + 1
    ensures After(After(clock, 1), Broadcasts(AfterOnePass(remaining))) == After(clock, Broadcasts(remaining))
    ensures PassesMake(Refresh(h, clock), After(clock, 1), Broadcasts(AfterOnePass(remaining)))
         == PassesMake(h, clock, Broadcasts(remaining))
  {
    OnePassLess(remaining);
    AfterOneMore(clock, Broadcasts(remaining));
    PassesMakeOneMore(h, clock, Broadcasts(remaining));
  }

  /** For a duration below 2^31 ms that is the rounded-up quotient, and it needs no more
      passes although the last subtraction wraps around; from 2^31 on the cast to a
      signed 32-bit int decides, and a duration of exactly 2^31 sends nothing. */
  lemma BroadcastsExactly(d: U64)
    ensures d < 0x8000_0000 ==> 500 * Broadcasts(d) - 500 < d <= 500 * Broadcasts(d)
    ensures Broadcasts(d) == 0 <==> d % 0x1_0000_0000 == 0 || d % 0x1_0000_0000 >= 0x8000_0000
  {
  }

  // ----- Whole runs

  datatype Event = Heard(ip: Ip, at: U64) | Pass(at: U64)

  function Play(events: seq<Event>): Hood {
    if events == [] then Hood([], map[])
    else
      var h := Play(events[..|events| - 1]);
      match events[|events| - 1]
      case Heard(ip, at) => Hear(h, ip, at)
      case Pass(at) => Refresh(h, at)
  }

  /** The clock never runs backwards, and no event lies in the future of `now`. */
  ghost predicate Monotone(events: seq<Event>, now: U64) {
    && (forall i, j :: 0 <= i < j < |events| ==> events[i].at <= events[j].at)
    && (events != [] ==> events[|events| - 1].at <= now)
  }

  /** When the last pass was. */
  function LastPass(events: seq<Event>): int {
    if events == [] then 0
    else if events[|events| - 1].Pass? then events[|events| - 1].at
    else LastPass(events[..|events| - 1])
  }

  predicate HeardSince(events: seq<Event>, ip: Ip, t: int) {
    exists i :: 0 <= i < |events| && events[i].Heard? && events[i].ip == ip && events[i].at > t
  }

  /** The detection time of a node is the last time it was heard. */
  lemma {:induction false} HeardIsLatest(events: seq<Event>, ip: Ip)
    requires forall i, j :: 0 <= i < j < |events| ==> events[i].at <= events[j].at
    ensures ip in Play(events).heard ==> Heard(ip, Play(events).heard[ip]) in events
    ensures forall i :: 0 <= i < |events| && events[i].Heard? && events[i].ip == ip ==>
              ip in Play(events).heard && events[i].at <= Play(events).heard[ip]
  {
    if events != [] {
      var before, e := events[..|events| - 1], events[|events| - 1];
      HeardIsLatest(before, ip);
      assert events == before + [e];
      if e.Heard? && e.ip == ip {
        assert Play(events).heard[ip] == e.at && events[|events| - 1] == e;
      } else {
        assert ip in Play(events).heard <==> ip in Play(before).heard;
      }
    }
  }

  lemma {:induction false} EventsArePast(events: seq<Event>, now: U64, ip: Ip)
    requires Monotone(events, now)
    ensures 0 <= LastPass(events) <= now
    ensures ip in Play(events).heard ==> Play(events).heard[ip] <= now
  {
    if events != [] { EventsArePast(events[..|events| - 1], events[|events| - 1].at, ip); }
  }

  /** At time `now` a node heard recently is listed, and one listed was heard recently
      when the last pass was at `pass`. */
  predicate Recent(h: Hood, ip: Ip, now: int, pass: int) {
    && (ip in h.heard && now - h.heard[ip] < HELLO_NEIGHBOR_TTL_MS ==> ip in h.links)
    && (ip in h.links ==> ip in h.heard && h.heard[ip] > pass - HELLO_NEIGHBOR_TTL_MS)
  }

  lemma HearKeepsRecent(h: Hood, ip: Ip, from: Ip, at: U64, pass: int)
    requires Recent(h, ip, at, pass) && (ip in h.heard ==> h.heard[ip] <= at) && pass <= at
    ensures Recent(Hear(h, from, at), ip, at, pass)
  {
  }

  lemma RefreshIsRecent(h: Hood, ip: Ip, at: U64)
    requires ip in h.heard ==> h.heard[ip] <= at
    ensures Recent(Refresh(h, at), ip, at, at)
  {
  }

  lemma {:induction false} LinksAreRecent(events: seq<Event>, now: U64, ip: Ip)
    requires Monotone(events, now)
    ensures Recent(Play(events), ip, now, LastPass(events))
  {
    if events != [] {
      var before, e := events[..|events| - 1], events[|events| - 1];
      EventsArePast(before, e.at, ip);
      LinksAreRecent(before, e.at, ip);
      match e
      case Heard(from, at) => HearKeepsRecent(Play(before), ip, from, at, LastPass(before));
      case Pass(at) => RefreshIsRecent(Play(before), ip, at);
    }
  }

  lemma {:induction false} LinksAreDistinct(events: seq<Event>)
    ensures NoRepeats(Play(events).links)
  {
    if events != [] {
      LinksAreDistinct(events[..|events| - 1]);
    }
  }

  /** With a monotone clock and a pass at most 500 ms ago, a node heard less than 1000 ms
      ago is a neighbour, a neighbour was heard less than 1500 ms ago, and the list has
      no duplicates. */
  lemma NeighborsAreRecent(events: seq<Event>, now: U64, ip: Ip)
    requires Monotone(events, now) && now - LastPass(events) <= 500
    ensures HeardSince(events, ip, now - 1000) ==> ip in Play(events).links
    ensures ip in Play(events).links ==> HeardSince(events, ip, now - 1500)
    ensures NoRepeats(Play(events).links)
  {
    HeardIsLatest(events, ip);
    EventsArePast(events, now, ip);
    LinksAreRecent(events, now, ip);
    LinksAreDistinct(events);
  }
}
