/** When discoveries end, exactly: unless the request can reach a node whose known next
    hops run on for ever, for then the payload can be passed on for ever. */
module Endings {
  import opened Packets
  import opened NodeSpec
  import opened Network
  import opened DataPath
  import opened Discovery
  import opened Flood
  import opened FloodWork
  import opened HopWrap
  import opened Routes
  import opened RouteResults

  ghost predicate Ends(tr: Trace) { exists n: nat :: tr(n).wire == [] }

  /** Every run ends, whatever is delivered or lost first. */
  ghost predicate AllEnd(c: Config, nodes: map<Ip, Node>)
    requires c.orig in nodes && c.orig in c.topo
  {
    forall tr: Trace, sched: Schedule :: IsTrace(c, tr, sched) && tr(0) == Begin(c, nodes) ==> Ends(tr)
  }

  // ----- Known next hops that run on

  /** The next hops known before lead from `v` over `n` more nodes that know a route. */
  ghost predicate KnowsOn(c: Config, v: Ip, n: nat)
    decreases n
  {
    v in c.cache && v != c.dest && (n == 0 || KnowsOn(c, c.cache[v], n - 1))
  }

  /** They never end: they run into a circle. */
  ghost predicate Circles(c: Config, v: Ip) { forall n: nat :: KnowsOn(c, v, n) }

  /** After `n` of them comes a node that knows no route and is not the destination. */
  ghost predicate BreaksOff(c: Config, v: Ip, n: nat)
    decreases n
  {
    v != c.dest && if n == 0 then v !in c.cache else v in c.cache && BreaksOff(c, c.cache[v], n - 1)
  }

  ghost predicate NeverBreaksOff(c: Config, v: Ip) { forall n: nat :: !BreaksOff(c, v, n) }

  /** No known route that the request can reach breaks off. */
  ghost predicate NoneBreaksOff(c: Config) {
    forall p :: Trail(c, p) && p[|p| - 1] in c.cache ==> NeverBreaksOff(c, p[|p| - 1])
  }

  /** A known route leads to the destination, breaks off, or runs into a circle. */
  lemma {:induction false} LeadsOrCircles(c: Config, v: Ip, n: nat)
    requires c.dest !in c.cache && v in c.cache && !HasLead(c, v) && NeverBreaksOff(c, v)
    ensures KnowsOn(c, v, n)
    decreases n
  {
    var w := c.cache[v];
    assert w == c.dest ==> Leads(c, v, 1);
    forall m: nat
      ensures !BreaksOff(c, w, m)
    {
      assert !BreaksOff(c, v, m + 1);
    }
    assert !BreaksOff(c, w, 0);
    if n > 0 {
      if k: nat :| Leads(c, w, k) { assert Leads(c, v, k + 1); }
      LeadsOrCircles(c, w, n - 1);
    }
  }

  /** In a state: the next hops from `v` lead over `n` more nodes with a route. */
  ghost predicate RunsOn(c: Config, s: State, v: Ip, n: nat)
    decreases n
  {
    v != c.dest && Routed(c, s, v) && (n == 0 || RunsOn(c, s, AheadHop(c, s, v), n - 1))
  }

  /** Routes that were open are as they were. */
  ghost predicate RoutesStand(c: Config, s: State, s': State) {
    forall u {:trigger Routed(c, s, u)} :: Routed(c, s, u) ==>
      Routed(c, s', u) && AheadHop(c, s', u) == AheadHop(c, s, u)
  }

  lemma {:induction false} RunsOnStands(c: Config, s: State, s': State, v: Ip, n: nat)
    requires RoutesStand(c, s, s') && RunsOn(c, s, v, n)
    ensures RunsOn(c, s', v, n)
    decreases n
  {
    if n > 0 { RunsOnStands(c, s, s', AheadHop(c, s, v), n - 1); }
  }

  /** Routes known before are as they were. */
  ghost predicate KnownStand(c: Config, s: State) {
    forall v {:trigger c.cache[v]} :: v in c.cache ==> Routed(c, s, v) && AheadHop(c, s, v) == c.cache[v]
  }

  lemma UnopenedKnown(c: Config, nodes: map<Ip, Node>, s: State)
    requires Asks(c, nodes) && Unopened(c, nodes, s)
    ensures KnownStand(c, s)
  {
    forall v | v in c.cache
      ensures Routed(c, s, v) && AheadHop(c, s, v) == c.cache[v]
    {
      assert Route(s.nodes[v].table, c.dest) == Route(nodes[v].table, c.dest);
    }
  }

  lemma {:induction false} KnownRunsOn(c: Config, s: State, v: Ip, n: nat)
    requires KnownStand(c, s) && KnowsOn(c, v, n)
    ensures RunsOn(c, s, v, n)
    decreases n
  {
    if n > 0 { KnownRunsOn(c, s, c.cache[v], n - 1); }
  }

  // ----- The message sent last is delivered next

  function LastOf(s: State): Msg
    requires s.wire != []
  {
    s.wire[|s.wire| - 1]
  }

  function TakeLast(s: State): Choice
    requires s.wire != []
  {
    Choice(|s.wire| - 1, false)
  }

  lemma LastIsTaken(c: Config, s: State, i: nat)
    requires i + 1 == |s.wire| && Enabled(c, s, i)
    ensures Next(c, s, TakeLast(s)) == Deliver(c, s, i)
  {
    assert TakeLast(s) == Choice(i, false);
    ChoiceIs(c, s, i);
  }

  /** If it makes its addressee send one message, that one is last now. */
  lemma LastIsReplaced(c: Config, s: State, i: nat, m: Msg)
    requires i + 1 == |s.wire| && Enabled(c, s, i) && Emit(c, s.wire[i].to, Reaction(c, s, i).out) == [m]
    ensures var s' := Deliver(c, s, i); |s'.wire| == |s.wire| && LastOf(s') == m
  {
    assert Deliver(c, s, i).wire == Without(s.wire, i) + [m];
  }

  // ----- The payload on its way

  /** The payload was sent last, to a node from which next hops run on. */
  ghost predicate Roams(c: Config, s: State) {
    && Inv(c, s) && s.wire != [] && LastOf(s).packet == Data(c)
    && forall n: nat :: RunsOn(c, s, LastOf(s).to, n)
  }

  lemma RoamsOn(c: Config, s: State)
    requires GoodNet(c) && c.port != ROUTING_PORT && Roams(c, s)
    ensures var s' := Next(c, s, TakeLast(s)); Roams(c, s') && |s'.wire| == |s.wire|
  {
    var i, v := |s.wire| - 1, LastOf(s).to;
    var w, s' := AheadHop(c, s, v), Next(c, s, TakeLast(s));
    WireIsEnabled(c, s, i);
    LastIsTaken(c, s, i);
    assert RunsOn(c, s, v, 0);
    NodeInOrder(c, s, v);
    PassedOver(c, s, i, v, w);
    LastIsReplaced(c, s, i, Msg(w, v, Data(c)));
    ForeignKeepsInv(c, s, i);
    forall n: nat
      ensures RunsOn(c, s', w, n)
    {
      assert RunsOn(c, s, v, n + 1);
      RunsOnStands(c, s, s', w, n);
    }
  }

  /** A node with a route passes the payload on over it, and nothing else changes. */
  lemma PassedOver(c: Config, s: State, i: nat, v: Ip, w: Ip)
    requires GoodNet(c) && c.port != ROUTING_PORT && Enabled(c, s, i) && SiteOk(c, s, v)
    requires s.wire[i].to == v && s.wire[i].packet == Data(c)
    requires v != c.dest && Routed(c, s, v) && w == AheadHop(c, s, v)
    ensures Emit(c, v, Reaction(c, s, i).out) == [Msg(w, v, Data(c))] && Deliver(c, s, i).nodes == s.nodes
  {
    assert IsLink(c, v, w);
    RelayKeepsFrame(s.nodes[v], c.port, c.payload, c.dest, c.orig, s.wire[i].from);
    InEmit(c, v, Send(w, Data(c)));
    assert s.nodes[v := s.nodes[v]] == s.nodes;
  }

  // ----- The reply on its way

  /** A reply was sent last, by a node from which next hops run on; relays with a route
      are all further from the originator than its addressee. */
  ghost predicate Returns(c: Config, s: State) {
    && Inv(c, s) && s.wire != []
    && LastOf(s).packet.RrepPacket? && LastOf(s).packet.rrep.origIp == c.orig
    && (forall n: nat :: RunsOn(c, s, LastOf(s).from, n))
    && (forall u {:trigger Routed(c, s, u)} :: Relays(c, u) && Routed(c, s, u) ==>
          Back(c, s, LastOf(s).to) < Back(c, s, u))
    && HeldAtOrig(c, s) == [Buffered(c.port, c.payload)]
  }

  /** Its addressee opens a route to its sender, and no other route changes. */
  lemma ReplyOpens(c: Config, s: State)
    requires GoodNet(c) && Returns(c, s) && ReplyNext(c, s, |s.wire| - 1)
    ensures var v, s' := LastOf(s).to, Deliver(c, s, |s.wire| - 1);
            && Relays(c, v) && !Routed(c, s, v) && RoutesStand(c, s, s')
            && Routed(c, s', v) && AheadHop(c, s', v) == LastOf(s).from
            && forall u {:trigger s'.nodes[u]} :: u in s.nodes && u != v ==> s'.nodes[u] == s.nodes[u]
  {
    var i, v := |s.wire| - 1, LastOf(s).to;
    MsgInOrder(c, s, LastOf(s));
    assert !Routed(c, s, v);
    if v == c.orig { ArrivalReaction(c, s, i); } else { RelayReaction(c, s, i); }
  }

  /** So next hops run on from there too. */
  lemma OpenedRunsOn(c: Config, s: State, n: nat)
    requires GoodNet(c) && Returns(c, s) && ReplyNext(c, s, |s.wire| - 1)
    ensures RunsOn(c, Deliver(c, s, |s.wire| - 1), LastOf(s).from, n)
    ensures RunsOn(c, Deliver(c, s, |s.wire| - 1), LastOf(s).to, n)
  {
    var s' := Deliver(c, s, |s.wire| - 1);
    ReplyOpens(c, s);
    RunsOnStands(c, s, s', LastOf(s).from, n);
    if n > 0 { RunsOnStands(c, s, s', LastOf(s).from, n - 1); }
  }

  lemma ReturnsOn(c: Config, s: State)
    requires GoodConfig(c) && Returns(c, s) && LastOf(s).to != c.orig
    ensures var s' := Next(c, s, TakeLast(s));
            Returns(c, s') && Back(c, s', LastOf(s').to) < Back(c, s, LastOf(s).to)
  {
    var i, v, s' := |s.wire| - 1, LastOf(s).to, Next(c, s, TakeLast(s));
    DeliverKeepsInv(c, s, i);
    WireIsEnabled(c, s, i);
    LastIsTaken(c, s, i);
    ReplyOpens(c, s);
    RelayEmits(c, s, i);
    ReplyGrows(c, s, i);
    LastIsReplaced(c, s, i, Emit(c, v, Reaction(c, s, i).out)[0]);
    forall n: nat
      ensures RunsOn(c, s', v, n)
    {
      OpenedRunsOn(c, s, n);
    }
    forall u {:trigger Routed(c, s', u)} | Relays(c, u) && Routed(c, s', u)
      ensures Back(c, s', LastOf(s').to) < Back(c, s', u)
    {
      if u != v { assert s'.nodes[u] == s.nodes[u] && Routed(c, s, u); }
    }
  }

  /** At the originator the payload leaves. */
  lemma ReturnsHome(c: Config, s: State)
    requires GoodConfig(c) && Returns(c, s) && LastOf(s).to == c.orig
    ensures Roams(c, Next(c, s, TakeLast(s)))
  {
    var i, m, s' := |s.wire| - 1, LastOf(s), Next(c, s, TakeLast(s));
    DeliverKeepsInv(c, s, i);
    WireIsEnabled(c, s, i);
    LastIsTaken(c, s, i);
    MsgInOrder(c, s, m);
    NodeInOrder(c, s, c.orig);
    ReplyOpens(c, s);
    ArrivalReaction(c, s, i);
    assert IsLink(c, m.from, c.orig);
    InEmit(c, c.orig, Send(m.from, Data(c)));
    LastIsReplaced(c, s, i, Msg(m.from, c.orig, Data(c)));
    forall n: nat
      ensures RunsOn(c, s', m.from, n)
    {
      OpenedRunsOn(c, s, n);
    }
  }

  /** Choices that bring the reply home. */
  lemma {:induction false} BringHome(c: Config, s0: State, chs: seq<Choice>) returns (all: seq<Choice>)
    requires GoodConfig(c) && Returns(c, After(c, s0, chs))
    ensures Roams(c, After(c, s0, all))
    decreases Back(c, After(c, s0, chs), LastOf(After(c, s0, chs)).to)
  {
    var s := After(c, s0, chs);
    all := chs + [TakeLast(s)];
    AfterOneMore(c, s0, chs, TakeLast(s));
    if LastOf(s).to == c.orig {
      ReturnsHome(c, s);
    } else {
      ReturnsOn(c, s);
      all := BringHome(c, s0, all);
    }
  }

  // ----- The request on its way

  lemma {:induction false} AfterKeepsInv(c: Config, s: State, chs: seq<Choice>)
    requires GoodConfig(c) && Inv(c, s)
    ensures Inv(c, After(c, s, chs))
  {
    if chs != [] {
      AfterKeepsInv(c, s, chs[..|chs| - 1]);
      NextKeepsInv(c, After(c, s, chs[..|chs| - 1]), chs[|chs| - 1]);
    }
  }

  /** The request has come along `p` to its last node, which answers. */
  lemma RequestTurns(c: Config, nodes: map<Ip, Node>, p: seq<Ip>, s: State) returns (ch: Choice)
    requires Asks(c, nodes) && GoodConfig(c) && Trail(c, p) && 1 < |p| <= 256 && Circles(c, p[|p| - 1])
    requires OnPath(c, nodes, p, s, |p| - 2) && Unopened(c, nodes, s) && Inv(c, s)
    ensures Returns(c, Next(c, s, ch))
  {
    var k, v := |p| - 2, p[|p| - 1];
    PathNode(c, nodes, p, k + 1);
    var i := DeliverNext(c, s, Msg(v, p[k], Request(c, k)));
    ch := Choice(i, false);
    ChoiceIs(c, s, i);
    assert s.nodes[p[k + 1]] == nodes[p[k + 1]];
    assert KnowsOn(c, v, 0);
    RequestIsAnswered(c, nodes, s, i);
  }

  lemma RequestIsAnswered(c: Config, nodes: map<Ip, Node>, s: State, i: nat)
    requires Asks(c, nodes) && GoodConfig(c) && Unopened(c, nodes, s) && RequestNext(c, s, i) && News(c, s, i)
    requires Circles(c, s.wire[i].to) && s.wire[i].to in c.cache && s.wire[i].to != c.orig
    ensures Returns(c, Deliver(c, s, i))
  {
    var v, s' := s.wire[i].to, Deliver(c, s, i);
    assert Route(s.nodes[v].table, c.dest) == Route(nodes[v].table, c.dest);
    UnopenedKnown(c, nodes, s);
    AnswerKeepsInv(c, s, i);
    AnswerIsLast(c, s, i);
    AnswerOpensNothing(c, nodes, s, i);
    UnopenedRelays(c, nodes, s');
    forall n: nat
      ensures RunsOn(c, s', v, n)
    {
      KnownRunsOn(c, s, v, n);
      RunsOnStands(c, s, s', v, n);
    }
  }

  lemma AnswerIsLast(c: Config, s: State, i: nat)
    requires GoodConfig(c) && RequestNext(c, s, i) && News(c, s, i) && Answers(c, s.nodes[s.wire[i].to])
    ensures Deliver(c, s, i).wire != []
    ensures var m := LastOf(Deliver(c, s, i));
            && m.from == s.wire[i].to
            && m.packet.RrepPacket? && m.packet.rrep.origIp == c.orig
  {
    AnswerEmits(c, s, i);
  }

  lemma AnswerOpensNothing(c: Config, nodes: map<Ip, Node>, s: State, i: nat)
    requires Asks(c, nodes) && GoodConfig(c) && Unopened(c, nodes, s) && RequestNext(c, s, i) && News(c, s, i)
    requires s.wire[i].to != c.orig
    ensures RoutesStand(c, s, Deliver(c, s, i)) && Unopened(c, nodes, Deliver(c, s, i))
  {
    var v, s' := s.wire[i].to, Deliver(c, s, i);
    NewsKeepsForward(c, s, i);
    StaysUnopened(c, nodes, s, s', v);
    UnopenedStand(c, nodes, s, s');
  }

  lemma NewsKeepsForward(c: Config, s: State, i: nat)
    requires GoodConfig(c) && RequestNext(c, s, i) && News(c, s, i)
    ensures var v, s' := s.wire[i].to, Deliver(c, s, i);
            && s'.nodes.Keys == s.nodes.Keys
            && (forall u {:trigger s'.nodes[u]} :: u in s.nodes && u != v ==> s'.nodes[u] == s.nodes[u])
            && Route(s'.nodes[v].table, c.dest) == Route(s.nodes[v].table, c.dest)
  {
    NewsIsLearned(c, s, i);
  }

  lemma UnopenedStand(c: Config, nodes: map<Ip, Node>, s: State, s': State)
    requires Unopened(c, nodes, s) && Unopened(c, nodes, s')
    ensures RoutesStand(c, s, s')
  {
    forall u {:trigger Routed(c, s, u)} | Routed(c, s, u)
      ensures Routed(c, s', u) && AheadHop(c, s', u) == AheadHop(c, s, u)
    {
      assert Route(s.nodes[u].table, c.dest) == Route(nodes[u].table, c.dest);
      assert Route(s'.nodes[u].table, c.dest) == Route(nodes[u].table, c.dest);
    }
  }

  lemma UnopenedRelays(c: Config, nodes: map<Ip, Node>, s: State)
    requires Asks(c, nodes) && Unopened(c, nodes, s)
    ensures HeldAtOrig(c, s) == [Buffered(c.port, c.payload)]
    ensures forall u {:trigger Routed(c, s, u)} :: Relays(c, u) ==> !Routed(c, s, u)
  {
    BeginSends(c, nodes);
    forall u {:trigger Routed(c, s, u)} | Relays(c, u)
      ensures !Routed(c, s, u)
    {
      if u in s.nodes { assert Route(s.nodes[u].table, c.dest) == Route(nodes[u].table, c.dest); }
    }
  }

  // ----- The run that never ends

  lemma RoamsStep(c: Config, tr: Trace, sched: Schedule, t: nat)
    requires GoodNet(c) && c.port != ROUTING_PORT && IsTrace(c, tr, sched) && Roams(c, tr(t))
    requires sched(t) == TakeLast(tr(t))
    ensures Roams(c, tr(t + 1)) && |tr(t + 1).wire| == |tr(t).wire|
  {
    assert StepsAt(c, tr, sched, t);
    RoamsOn(c, tr(t));
  }

  lemma {:induction false} RoamsForEver(c: Config, tr: Trace, sched: Schedule, t0: nat, t: nat)
    requires GoodNet(c) && c.port != ROUTING_PORT && IsTrace(c, tr, sched) && Roams(c, tr(t0)) && t0 <= t
    requires forall k: nat :: t0 <= k ==> sched(k) == TakeLast(tr(t0))
    ensures Roams(c, tr(t)) && |tr(t).wire| == |tr(t0).wire|
  {
    if t0 < t {
      RoamsForEver(c, tr, sched, t0, t - 1);
      RoamsStep(c, tr, sched, t - 1);
    }
  }

  /** Once nothing is in flight, nothing ever is. */
  lemma {:induction false} QuietStays(c: Config, tr: Trace, sched: Schedule, t: nat, n: nat)
    requires IsTrace(c, tr, sched) && tr(t).wire == [] && t <= n
    ensures tr(n).wire == []
  {
    if t < n {
      QuietStays(c, tr, sched, t, n - 1);
      assert StepsAt(c, tr, sched, n - 1);
    }
  }

  lemma NoEnd(c: Config, tr: Trace, sched: Schedule, t0: nat)
    requires GoodNet(c) && c.port != ROUTING_PORT && IsTrace(c, tr, sched) && Roams(c, tr(t0))
    requires forall k: nat :: t0 <= k ==> sched(k) == TakeLast(tr(t0))
    ensures !Ends(tr)
  {
    forall t: nat
      ensures tr(t).wire != []
    {
      if t0 <= t { RoamsForEver(c, tr, sched, t0, t); } else if tr(t).wire == [] { QuietStays(c, tr, sched, t, t0); }
    }
  }

  /** Choices that take the request along a trail to such a node, bring its reply home and
      send the payload on its way. */
  lemma LeadIn(c: Config, nodes: map<Ip, Node>, p: seq<Ip>) returns (all: seq<Choice>)
    requires Asks(c, nodes) && NoLongTrail(c) && Trail(c, p) && Circles(c, p[|p| - 1])
    ensures Roams(c, After(c, Begin(c, nodes), all))
  {
    var s0 := Begin(c, nodes);
    assert KnowsOn(c, p[|p| - 1], 0);
    var chs := PathChoices(c, nodes, p, |p| - 2);
    BeginKeepsInv(c, nodes);
    AfterKeepsInv(c, s0, chs);
    var ch := RequestTurns(c, nodes, p, After(c, s0, chs));
    AfterOneMore(c, s0, chs, ch);
    all := BringHome(c, s0, chs + [ch]);
  }

  /** If the request can reach a node whose known next hops run in a circle, some run
      never ends: the node answers, and the payload goes round. */
  lemma CanGoOnForEver(c: Config, nodes: map<Ip, Node>, p: seq<Ip>) returns (tr: Trace, sched: Schedule)
    requires Asks(c, nodes) && NoLongTrail(c) && c.port != ROUTING_PORT
    requires Trail(c, p) && Circles(c, p[|p| - 1])
    ensures IsTrace(c, tr, sched) && tr(0) == Begin(c, nodes) && !Ends(tr)
  {
    var all := LeadIn(c, nodes, p);
    var s := After(c, Begin(c, nodes), all);
    var t0: nat;
    tr, sched, t0 := RunOf(c, Begin(c, nodes), all, TakeLast(s));
    NoEnd(c, tr, sched, t0);
  }

  // ----- A payload for the routing port

  /** A data packet that its first receiver drops. */
  predicate IsDropped(m: Msg) { m.packet.DataPacket? && m.packet.port == ROUTING_PORT }

  ghost predicate OnlyDropped(c: Config, s: State) {
    && (forall m :: m in s.wire ==> IsOwn(c, m) || IsDropped(m))
    && (forall b :: b in HeldAtOrig(c, s) ==> b.port == ROUTING_PORT)
  }

  lemma DroppedSendsNothing(c: Config, s: State, i: nat)
    requires Enabled(c, s, i) && IsDropped(s.wire[i])
    ensures Deliver(c, s, i).wire == Without(s.wire, i) && Deliver(c, s, i).nodes == s.nodes
  {
    EmitNothing(c, s.wire[i].to);
    assert s.nodes[s.wire[i].to := s.nodes[s.wire[i].to]] == s.nodes;
  }

  lemma OwnSends(c: Config, s: State, i: nat, m: Msg)
    requires GoodConfig(c) && Inv(c, s) && OnlyDropped(c, s) && Enabled(c, s, i) && IsOwn(c, s.wire[i])
    requires m in Emit(c, s.wire[i].to, Reaction(c, s, i).out)
    ensures IsOwn(c, m) || IsDropped(m)
  {
    WireIsEnabled(c, s, i);
    if s.wire[i].packet.RreqPacket? {
      if News(c, s, i) {
        if Answers(c, s.nodes[s.wire[i].to]) { AnswerEmits(c, s, i); }
        else {
          ForwardEmits(c, s, i);
          EmittedBy(c, s.wire[i].to, Reaction(c, s, i).out[0], m);
        }
      }
    } else if s.wire[i].to != c.orig {
      RelayEmits(c, s, i);
    } else {
      DrainSends(c, s, i, m);
    }
  }

  lemma DrainSends(c: Config, s: State, i: nat, m: Msg)
    requires GoodConfig(c) && OnlyDropped(c, s) && ReplyNext(c, s, i) && s.wire[i].to == c.orig
    requires m in Emit(c, c.orig, Reaction(c, s, i).out)
    ensures IsDropped(m)
  {
    ArrivalReaction(c, s, i);
    var out := Reaction(c, s, i).out;
    if out == [] { EmitNothing(c, c.orig); } else {
      assert HeldAtOrig(c, s)[0] in HeldAtOrig(c, s) && out == [out[0]];
      EmittedBy(c, c.orig, out[0], m);
    }
  }

  lemma OwnKeepsHeld(c: Config, s: State, i: nat)
    requires GoodConfig(c) && Inv(c, s) && Enabled(c, s, i) && IsOwn(c, s.wire[i])
    ensures HeldAtOrig(c, Deliver(c, s, i)) in {HeldAtOrig(c, s), []}
  {
    WireIsEnabled(c, s, i);
    if s.wire[i].to == c.orig {
      NodeInOrder(c, s, c.orig);
      if s.wire[i].packet.RrepPacket? { ArrivalReaction(c, s, i); }
    }
  }

  lemma NextIsOnlyDropped(c: Config, s: State, ch: Choice)
    requires GoodConfig(c) && Inv(c, s) && OnlyDropped(c, s) && s.wire != []
    ensures var s' := Next(c, s, ch);
            && Inv(c, s') && OnlyDropped(c, s')
            && (WorkLeft(c, s') < WorkLeft(c, s) || (WorkLeft(c, s') == WorkLeft(c, s) && |s'.wire| < |s.wire|))
  {
    var i, s' := ch.which % |s.wire|, Next(c, s, ch);
    NextKeepsInv(c, s, ch);
    NextLowersWork(c, s, ch);
    WireIsEnabled(c, s, i);
    if !ch.lost {
      if IsDropped(s.wire[i]) { DroppedSendsNothing(c, s, i); } else { OwnKeepsHeld(c, s, i); }
    }
    forall m | m in s'.wire
      ensures IsOwn(c, m) || IsDropped(m)
    {
      if m in Without(s.wire, i) { InWithout(s.wire, i, m); } else { OwnSends(c, s, i, m); }
    }
  }

  lemma {:induction false} DroppedEnds(c: Config, tr: Trace, sched: Schedule, t: nat)
    requires GoodConfig(c) && IsTrace(c, tr, sched) && Inv(c, tr(t)) && OnlyDropped(c, tr(t))
    ensures Ends(tr)
    decreases WorkLeft(c, tr(t)), |tr(t).wire|
  {
    if tr(t).wire != [] {
      assert StepsAt(c, tr, sched, t);
      NextIsOnlyDropped(c, tr(t), sched(t));
      DroppedEnds(c, tr, sched, t + 1);
    }
  }

  lemma RoutingPortEnds(c: Config, nodes: map<Ip, Node>, tr: Trace, sched: Schedule)
    requires Discovers(c, nodes, tr, sched) && c.port == ROUTING_PORT
    ensures Ends(tr)
  {
    BeginKeepsInv(c, nodes);
    BeginIsUnanswered(c, nodes);
    BeginSends(c, nodes);
    DroppedEnds(c, tr, sched, 0);
  }

  // ----- When every run ends

  /** If no known route that the request can reach breaks off, every run ends if and only
      if each of them leads to the destination, or the payload is for the routing port,
      where its first receiver drops it. */
  lemma AllEndIffAnswersLead(c: Config, nodes: map<Ip, Node>)
    requires Asks(c, nodes) && NoLongTrail(c) && NoneBreaksOff(c)
    ensures AllEnd(c, nodes) <==> AnswersLead(c) || c.port == ROUTING_PORT
  {
    if AnswersLead(c) || c.port == ROUTING_PORT {
      forall tr: Trace, sched: Schedule | IsTrace(c, tr, sched) && tr(0) == Begin(c, nodes)
        ensures Ends(tr)
      {
        if AnswersLead(c) { var n := EveryDiscoveryEnds(c, nodes, tr, sched); }
        else { RoutingPortEnds(c, nodes, tr, sched); }
      }
    } else {
      var p :| Trail(c, p) && p[|p| - 1] in c.cache && !HasLead(c, p[|p| - 1]);
      var v := p[|p| - 1];
      forall n: nat
        ensures KnowsOn(c, v, n)
      {
        LeadsOrCircles(c, v, n);
      }
      var tr, sched := CanGoOnForEver(c, nodes, p);
    }
  }
}
