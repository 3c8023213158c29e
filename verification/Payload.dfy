/** The payload of a discovery, whatever routes the nodes knew before: it may be held by
    relays that then ask for a route themselves, but it is never copied or changed. */
module Payload {
  import opened Packets
  import opened RoutingTable
  import opened NodeSpec
  import opened Network
  import opened Discovery
  import opened Flood
  import opened Routes

  // ----- Where the payload is

  /** What `v` holds for the destination. */
  function HeldAt(c: Config, s: State, v: Ip): Pending {
    if v in s.nodes then HeldFor(s.nodes[v], c.dest) else []
  }

  /** A request or reply is of a node that has asked; data carries the payload. */
  predicate CarriesOurs(c: Config, p: Packet, askers: set<Ip>) {
    match p
    case RreqPacket(q) => q.origIp in askers
    case RrepPacket(p) => p.origIp in askers
    case DataPacket(port, f) => port == c.port && FramePayload(f) == c.payload
    case RerrPacket(_) => false
  }

  predicate IsHandOver(c: Config, h: (Ip, Output)) {
    h.0 == c.dest && h.1.Hand? && h.1.port == c.port && h.1.payload == c.payload
  }

  /** Of the nodes that have asked only `holder` may hold something for the destination,
      namely the payload; and there is one copy at most, held, in flight or handed over. */
  ghost predicate OneCopy(c: Config, s: State, askers: set<Ip>, holder: Ip) {
    && c.orig in askers && holder in askers
    && (forall r {:trigger HeldAt(c, s, r)} :: r in askers && r != holder ==> HeldAt(c, s, r) == [])
    && HeldAt(c, s, holder) in {[], [Buffered(c.port, c.payload)]}
    && |HeldAt(c, s, holder)| + DataInFlight(s.wire) + |s.handed| <= 1
    && (forall m :: m in s.wire ==> CarriesOurs(c, m.packet, askers))
    && (forall h :: h in s.handed ==> IsHandOver(c, h))
  }

  // ----- One node

  /** What a node sends on a request: nothing, the request, or an answer to it. */
  lemma RequestSends(c: Config, n: Node, q: Rreq, source: Ip, askers: set<Ip>)
    requires q.origIp in askers
    ensures var r := Receive(n, RreqPacket(q), source);
            && r.node.pending == n.pending && OnlyRouting(r.out)
            && (r.out != [] ==> CarriesOurs(c, r.out[0].packet, askers))
  {
  }

  lemma RelaySends(c: Config, n: Node, p: Rrep, source: Ip, askers: set<Ip>)
    requires p.origIp in askers && n.ip != p.origIp
    ensures var r := Receive(n, RrepPacket(p), source);
            && r.node.pending == n.pending && OnlyRouting(r.out)
            && (r.out != [] ==> CarriesOurs(c, r.out[0].packet, askers))
  {
    RelayEffect(c, n, p, source);
  }

  /** A data packet at a node: handed over or dropped at the destination, else passed on,
      or held by a node that asks for a route. */
  lemma DataReceived(c: Config, n: Node, f: Frame, source: Ip)
    requires GoodNet(c) && FrameDest(f) == c.dest && FramePayload(f) == c.payload && n.ip != BROADCAST
    requires n.ip != c.dest && Active(n.table, c.dest) ==> NextHop(n.table, c.dest) in n.neighbors
    ensures var r := Receive(n, DataPacket(c.port, f), source);
            if c.port == ROUTING_PORT then r == Result(n, [])
            else if n.ip == c.dest then
              r == Result(n, if c.port in n.ports then [Hand(c.port, c.payload, source)] else [])
            else if Active(n.table, c.dest) then
              && r.node == n && |r.out| == 1 && r.out[0].Send? && r.out[0].to == NextHop(n.table, c.dest)
              && CarriesOurs(c, r.out[0].packet, {}) && r.out[0].packet.DataPacket?
            else
              && HeldFor(r.node, c.dest) == [Buffered(c.port, c.payload)]
              && OnlyRouting(r.out) && |r.out| == 1 && CarriesOurs(c, r.out[0].packet, {n.ip})
  {
    FrameRoundTrip(c.dest, if FrameOrig(f) == BROADCAST then n.ip else FrameOrig(f), c.payload);
  }

  // ----- Steps

  /** A node that sends at most one routing packet of an asker, and whose own held packets
      stay, leaves the payload where it is. */
  lemma RoutingStep(c: Config, s: State, i: nat, askers: set<Ip>, holder: Ip)
    requires OneCopy(c, s, askers, holder) && Enabled(c, s, i) && !s.wire[i].packet.DataPacket?
    requires Reaction(c, s, i).node.pending == s.nodes[s.wire[i].to].pending && OnlyRouting(Reaction(c, s, i).out)
    requires Reaction(c, s, i).out != [] ==> CarriesOurs(c, Reaction(c, s, i).out[0].packet, askers)
    ensures OneCopy(c, Deliver(c, s, i), askers, holder)
  {
    var v, out, s' := s.wire[i].to, Reaction(c, s, i).out, Deliver(c, s, i);
    RoutingEmitsNoData(c, v, out);
    DataWithout(s.wire, i);
    DataAdds(Without(s.wire, i), Emit(c, v, out));
    forall m | m in s'.wire
      ensures CarriesOurs(c, m.packet, askers)
    {
      if m in Without(s.wire, i) { InWithout(s.wire, i, m); } else { SentCarries(c, v, out, m); }
    }
    forall r {:trigger HeldAt(c, s', r)}
      ensures HeldAt(c, s', r) == HeldAt(c, s, r)
    {
    }
  }

  lemma SentCarries(c: Config, v: Ip, out: seq<Output>, m: Msg)
    requires v in c.topo && |out| <= 1 && m in Emit(c, v, out)
    ensures out != [] && out[0].Send? && m.packet == out[0].packet
  {
    if out == [] { EmitNothing(c, v); } else {
      assert out == [out[0]];
      EmittedBy(c, v, out[0], m);
    }
  }

  /** What a step makes of the count and of what the nodes hold. */
  lemma StepCounts(c: Config, s: State, i: nat)
    requires Enabled(c, s, i)
    ensures var v, r, s' := s.wire[i].to, Reaction(c, s, i), Deliver(c, s, i);
            && DataInFlight(s'.wire) + (if s.wire[i].packet.DataPacket? then 1 else 0) ==
               DataInFlight(s.wire) + DataInFlight(Emit(c, v, r.out))
            && HeldAt(c, s', v) == HeldFor(r.node, c.dest)
            && (forall u {:trigger HeldAt(c, s', u)} :: u != v ==> HeldAt(c, s', u) == HeldAt(c, s, u))
            && s'.handed == s.handed + Hands(v, r.out)
  {
    DataWithout(s.wire, i);
    DataAdds(Without(s.wire, i), Emit(c, s.wire[i].to, Reaction(c, s, i).out));
  }

  /** Everything in flight after a step is ours, if what the actor sent is. */
  lemma WireStaysOurs(c: Config, s: State, i: nat, askers: set<Ip>, askers': set<Ip>)
    requires Enabled(c, s, i) && askers <= askers' && forall m :: m in s.wire ==> CarriesOurs(c, m.packet, askers)
    requires var out := Reaction(c, s, i).out;
             |out| <= 1 && (out != [] && out[0].Send? ==> CarriesOurs(c, out[0].packet, askers'))
    ensures forall m :: m in Deliver(c, s, i).wire ==> CarriesOurs(c, m.packet, askers')
  {
    forall m | m in Deliver(c, s, i).wire
      ensures CarriesOurs(c, m.packet, askers')
    {
      if m in Without(s.wire, i) { InWithout(s.wire, i, m); }
      else { SentCarries(c, s.wire[i].to, Reaction(c, s, i).out, m); }
    }
  }

  /** One data packet over a link is one copy in flight. */
  lemma OneData(c: Config, v: Ip, out: seq<Output>)
    requires GoodNet(c) && v in c.topo && |out| == 1 && out[0].Send? && out[0].packet.DataPacket?
    requires out[0].to in c.topo[v]
    ensures DataInFlight(Emit(c, v, out)) == 1 && Hands(v, out) == []
  {
    var o := out[0];
    assert out == [o] && IsLink(c, v, o.to);
    InEmit(c, v, o);
    assert DataInFlight([Msg(o.to, v, o.packet)][1..]) == 0;
  }

  lemma NoData(c: Config, v: Ip)
    requires v in c.topo
    ensures DataInFlight(Emit(c, v, [])) == 0 && Hands(v, []) == []
  {
    EmitNothing(c, v);
  }

  /** A reply at the node that asked: what it holds leaves. */
  lemma ArrivalStep(c: Config, s: State, i: nat, askers: set<Ip>, holder: Ip)
    requires GoodNet(c) && Inv(c, s) && OneCopy(c, s, askers, holder) && Enabled(c, s, i)
    requires s.wire[i].packet.RrepPacket? && s.wire[i].packet.rrep.origIp == s.wire[i].to
    ensures OneCopy(c, Deliver(c, s, i), askers, holder)
  {
    var m, v := s.wire[i], s.wire[i].to;
    var n := s.nodes[v];
    var out := Reaction(c, s, i).out;
    AskerHears(c, s, i);
    StepCounts(c, s, i);
    assert CarriesOurs(c, m.packet, askers);
    assert HeldAt(c, s, v) == HeldFor(n, c.dest);
    if HeldFor(n, c.dest) == [] { NoData(c, v); } else { OneData(c, v, out); }
    WireStaysOurs(c, s, i, askers, askers);
  }

  lemma AskerHears(c: Config, s: State, i: nat)
    requires GoodNet(c) && Inv(c, s) && Enabled(c, s, i)
    requires s.wire[i].packet.RrepPacket? && s.wire[i].packet.rrep.origIp == s.wire[i].to
    ensures var v, r := s.wire[i].to, Reaction(c, s, i);
            var held := HeldFor(s.nodes[v], c.dest);
            && HeldFor(r.node, c.dest) == []
            && if held == [] then r.out == [] else
                 && |r.out| == 1 && r.out[0].Send? && r.out[0].to in c.topo[v] && r.out[0].packet.DataPacket?
                 && r.out[0].packet.port == held[0].port && FramePayload(r.out[0].packet.frame) == held[0].payload
  {
    var m, n := s.wire[i], s.nodes[s.wire[i].to];
    MsgInOrder(c, s, m);
    assert IsLink(c, m.from, m.to);
    NodeInOrder(c, s, m.to);
    ArrivalEffect(c, n, m.packet.rrep, m.from);
    HearEffect(c, n, m.packet.rrep, m.from);
    if HeldFor(n, c.dest) != [] { FrameRoundTrip(c.dest, n.ip, HeldFor(n, c.dest)[0].payload); }
  }

  /** The payload at the destination, or for the routing port. */
  lemma DataArrives(c: Config, s: State, i: nat, askers: set<Ip>, holder: Ip)
    requires GoodNet(c) && Inv(c, s) && OneCopy(c, s, askers, holder) && Enabled(c, s, i)
    requires s.wire[i].packet.DataPacket? && (s.wire[i].to == c.dest || c.port == ROUTING_PORT)
    ensures OneCopy(c, Deliver(c, s, i), askers, holder)
  {
    var m, v := s.wire[i], s.wire[i].to;
    var r, s' := Reaction(c, s, i), Deliver(c, s, i);
    DataIsOurs(c, s, i, askers, holder);
    DataReceived(c, s.nodes[v], m.packet.frame, m.from);
    StepCounts(c, s, i);
    if r.out == [] {
      NoData(c, v);
      assert s'.handed == s.handed;
    } else {
      assert r.out == [r.out[0]];
      InEmit(c, v, r.out[0]);
      assert Emit(c, v, r.out) == [] && s'.handed == [(v, r.out[0])] && IsHandOver(c, (v, r.out[0]));
    }
    assert HeldAt(c, s', v) == HeldAt(c, s, v);
    WireStaysOurs(c, s, i, askers, askers);
  }

  lemma DataIsOurs(c: Config, s: State, i: nat, askers: set<Ip>, holder: Ip)
    requires GoodNet(c) && Inv(c, s) && OneCopy(c, s, askers, holder) && Enabled(c, s, i)
    requires s.wire[i].packet.DataPacket?
    ensures var m := s.wire[i];
            && m.packet.port == c.port && FramePayload(m.packet.frame) == c.payload
            && FrameDest(m.packet.frame) == c.dest
            && SiteOk(c, s, m.to) && m.to != BROADCAST
            && DataInFlight(s.wire) == 1 && HeldAt(c, s, holder) == [] && s.handed == []
  {
    assert CarriesOurs(c, s.wire[i].packet, askers);
    MsgInOrder(c, s, s.wire[i]);
    NodeInOrder(c, s, s.wire[i].to);
    DataWithout(s.wire, i);
  }

  /** The payload at a node with a route, which passes it on. */
  lemma DataPasses(c: Config, s: State, i: nat, askers: set<Ip>, holder: Ip)
    requires GoodNet(c) && Inv(c, s) && OneCopy(c, s, askers, holder) && Enabled(c, s, i)
    requires s.wire[i].packet.DataPacket? && s.wire[i].to != c.dest && c.port != ROUTING_PORT
    requires Routed(c, s, s.wire[i].to)
    ensures OneCopy(c, Deliver(c, s, i), askers, holder)
  {
    var m, v := s.wire[i], s.wire[i].to;
    DataIsOurs(c, s, i, askers, holder);
    DataReceived(c, s.nodes[v], m.packet.frame, m.from);
    StepCounts(c, s, i);
    OneData(c, v, Reaction(c, s, i).out);
    WireStaysOurs(c, s, i, askers, askers);
  }

  /** The payload at a node without one, which holds it and asks. */
  lemma DataIsHeld(c: Config, s: State, i: nat, askers: set<Ip>, holder: Ip)
    requires GoodNet(c) && Inv(c, s) && OneCopy(c, s, askers, holder) && Enabled(c, s, i)
    requires s.wire[i].packet.DataPacket? && s.wire[i].to != c.dest && c.port != ROUTING_PORT
    requires !Routed(c, s, s.wire[i].to)
    ensures OneCopy(c, Deliver(c, s, i), askers + {s.wire[i].to}, s.wire[i].to)
  {
    var m, v := s.wire[i], s.wire[i].to;
    DataIsOurs(c, s, i, askers, holder);
    DataReceived(c, s.nodes[v], m.packet.frame, m.from);
    StepCounts(c, s, i);
    RoutingEmitsNoData(c, v, Reaction(c, s, i).out);
    WireStaysOurs(c, s, i, askers, askers + {v});
  }

  lemma LossKeepsOneCopy(c: Config, s: State, i: nat, askers: set<Ip>, holder: Ip)
    requires OneCopy(c, s, askers, holder) && i < |s.wire|
    ensures OneCopy(c, Lose(s, i), askers, holder)
  {
    DataWithout(s.wire, i);
    assert forall r :: HeldAt(c, Lose(s, i), r) == HeldAt(c, s, r);
    forall m | m in Lose(s, i).wire
      ensures CarriesOurs(c, m.packet, askers)
    {
      InWithout(s.wire, i, m);
    }
  }

  lemma DeliveryKeepsOneCopy(c: Config, s: State, i: nat, askers: set<Ip>, holder: Ip)
    returns (askers': set<Ip>, holder': Ip)
    requires GoodConfig(c) && Inv(c, s) && OneCopy(c, s, askers, holder) && Enabled(c, s, i)
    ensures OneCopy(c, Deliver(c, s, i), askers', holder')
  {
    var m := s.wire[i];
    askers', holder' := askers, holder;
    assert CarriesOurs(c, m.packet, askers);
    match m.packet
    case RreqPacket(q) =>
      RequestSends(c, s.nodes[m.to], q, m.from, askers);
      RoutingStep(c, s, i, askers, holder);
    case RrepPacket(p) =>
      NodeInOrder(c, s, m.to);
      if m.to == p.origIp {
        ArrivalStep(c, s, i, askers, holder);
      } else {
        RelaySends(c, s.nodes[m.to], p, m.from, askers);
        RoutingStep(c, s, i, askers, holder);
      }
    case DataPacket(_, _) =>
      if m.to == c.dest || c.port == ROUTING_PORT { DataArrives(c, s, i, askers, holder); }
      else if Routed(c, s, m.to) { DataPasses(c, s, i, askers, holder); }
      else {
        DataIsHeld(c, s, i, askers, holder);
        askers', holder' := askers + {m.to}, m.to;
      }
    case RerrPacket(_) =>
  }

  // ----- Runs

  lemma BeginOneCopy(c: Config, nodes: map<Ip, Node>)
    requires Asks(c, nodes)
    ensures OneCopy(c, Begin(c, nodes), {c.orig}, c.orig)
  {
    BeginSends(c, nodes);
    BeginIsOurs(c, nodes);
    NoDataInFlight(Begin(c, nodes).wire);
  }

  lemma BeginIsOurs(c: Config, nodes: map<Ip, Node>)
    requires Asks(c, nodes)
    ensures forall m :: m in Begin(c, nodes).wire ==> m.packet == Request(c, 0)
  {
    BeginSends(c, nodes);
  }

  lemma {:induction false} RunHasOneCopy(c: Config, tr: Trace, sched: Schedule, t: nat)
    returns (askers: set<Ip>, holder: Ip)
    requires GoodConfig(c) && IsTrace(c, tr, sched) && Inv(c, tr(0)) && OneCopy(c, tr(0), {c.orig}, c.orig)
    ensures OneCopy(c, tr(t), askers, holder)
  {
    if t == 0 {
      askers, holder := {c.orig}, c.orig;
    } else {
      var k := t - 1;
      var a, h := RunHasOneCopy(c, tr, sched, k);
      RunKeepsInv(c, tr, sched, k);
      askers, holder := StepKeepsOneCopy(c, tr, sched, k, a, h);
    }
  }

  lemma StepKeepsOneCopy(c: Config, tr: Trace, sched: Schedule, t: nat, askers: set<Ip>, holder: Ip)
    returns (askers': set<Ip>, holder': Ip)
    requires GoodConfig(c) && IsTrace(c, tr, sched) && Inv(c, tr(t)) && OneCopy(c, tr(t), askers, holder)
    ensures OneCopy(c, tr(t + 1), askers', holder')
  {
    assert StepsAt(c, tr, sched, t);
    askers', holder' := NextKeepsOneCopy(c, tr(t), sched(t), askers, holder);
  }

  lemma NextKeepsOneCopy(c: Config, s: State, ch: Choice, askers: set<Ip>, holder: Ip)
    returns (askers': set<Ip>, holder': Ip)
    requires GoodConfig(c) && Inv(c, s) && OneCopy(c, s, askers, holder)
    ensures OneCopy(c, Next(c, s, ch), askers', holder')
  {
    askers', holder' := askers, holder;
    if s.wire != [] {
      var i := ch.which % |s.wire|;
      if ch.lost || !Enabled(c, s, i) { LossKeepsOneCopy(c, s, i, askers, holder); }
      else { askers', holder' := DeliveryKeepsOneCopy(c, s, i, askers, holder); }
    }
  }

  /** Under any schedule, whatever is lost or reordered and whatever routes were known
      before, the payload reaches only the destination's port, unchanged, and at most once. */
  lemma PayloadAtMostOnce(c: Config, nodes: map<Ip, Node>, tr: Trace, sched: Schedule, t: nat)
    requires Discovers(c, nodes, tr, sched)
    ensures |tr(t).handed| <= 1
    ensures forall h :: h in tr(t).handed ==>
              h.0 == c.dest && h.1.Hand? && h.1.port == c.port && h.1.payload == c.payload
  {
    BeginKeepsInv(c, nodes);
    BeginOneCopy(c, nodes);
    var askers, holder := RunHasOneCopy(c, tr, sched, t);
    forall h | h in tr(t).handed
      ensures h.0 == c.dest && h.1.Hand? && h.1.port == c.port && h.1.payload == c.payload
    {
      assert IsHandOver(c, h);
    }
  }
}
