/** Hop counts along forward routes when no route was known before: they may stay equal,
    but then each route was written before the one that points to it. */
module HopsAndAges {
  import opened Packets
  import opened RoutingTable
  import opened NodeSpec
  import opened Network
  import opened Discovery
  import opened Flood
  import opened Routes

  /** `w` is nearer the destination than `v`: fewer hops, or as many and written earlier. */
  predicate Nearer(c: Config, s: State, w: Ip, v: Ip) {
    w == c.dest
    || (Routed(c, s, w)
        && (Ahead(c, s, w) < Ahead(c, s, v) || (Ahead(c, s, w) == Ahead(c, s, v) && Stamp(s, w) < Stamp(s, v))))
  }

  /** The number the destination answers with. */
  predicate RepliesWith(n: Node, reply: U32) { n.seqNum == reply || (n.seqNum == 0 && reply == 1) }

  ghost predicate AgeOk(c: Config, s: State, v: Ip) {
    && v in s.nodes && Stamp(s, v) <= s.clock
    && (v == c.dest ==> RepliesWith(s.nodes[v], c.reply))
    && (v != c.dest && Routed(c, s, v) ==>
          && SeqOf(s.nodes[v].table, c.dest) == c.reply && Ahead(c, s, v) + Back(c, s, v) < 255
          && Nearer(c, s, AheadHop(c, s, v), v))
  }

  ghost predicate AgeMsgOk(c: Config, s: State, m: Msg) {
    m.packet.RrepPacket? ==>
      && m.packet == Reply(c, m.packet.rrep.hopCount)
      && m.packet.rrep.hopCount + Back(c, s, m.to) < 255
      && (m.from == c.dest || (Routed(c, s, m.from) && Ahead(c, s, m.from) <= m.packet.rrep.hopCount))
  }

  ghost predicate AgeInv(c: Config, s: State) {
    && RouteInv(c, s) && c.cache == map[] && c.reply > 0
    && (forall v {:trigger AgeOk(c, s, v)} :: v in c.topo ==> AgeOk(c, s, v))
    && (forall m {:trigger AgeMsgOk(c, s, m)} :: m in s.wire ==> AgeMsgOk(c, s, m))
  }

  /** Forward routes shorten, or stay as they are. */
  ghost predicate Ages(c: Config, s: State, s': State) {
    && s.clock <= s'.clock
    && forall v :: v != c.dest && Routed(c, s, v) ==>
         && Routed(c, s', v)
         && (Ahead(c, s', v) < Ahead(c, s, v) || (Ahead(c, s', v) == Ahead(c, s, v) && Stamp(s', v) == Stamp(s, v)))
  }

  lemma AgeInOrder(c: Config, s: State, v: Ip)
    requires AgeInv(c, s) && v in c.topo
    ensures AgeOk(c, s, v)
  {
  }

  lemma AgeMsgInOrder(c: Config, s: State, m: Msg)
    requires AgeInv(c, s) && m in s.wire
    ensures AgeMsgOk(c, s, m)
  {
  }

  lemma OthersAge(c: Config, s: State, s': State, v: Ip)
    requires Grows(c, s, s') && Ages(c, s, s') && AgeOk(c, s, v) && RouteOk(c, s, v) && c.cache == map[]
    requires v in s'.nodes && s'.nodes[v] == s.nodes[v] && Stamp(s', v) == Stamp(s, v)
    ensures AgeOk(c, s', v)
  {
  }

  lemma MsgAges(c: Config, s: State, s': State, m: Msg)
    requires Grows(c, s, s') && Ages(c, s, s') && AgeMsgOk(c, s, m) && MsgOk(c, s, m) && RouteMsgOk(c, s, m)
    ensures AgeMsgOk(c, s', m)
  {
  }

  /** A step keeps the invariant if its actor and whatever it sent are in order. */
  lemma AgesStay(c: Config, s: State, i: nat)
    requires AgeInv(c, s) && Enabled(c, s, i)
    requires var s' := Deliver(c, s, i);
             && RouteInv(c, s') && Grows(c, s, s') && Ages(c, s, s') && AgeOk(c, s', s.wire[i].to)
             && forall m :: m in Emit(c, s.wire[i].to, Reaction(c, s, i).out) ==> AgeMsgOk(c, s', m)
    ensures AgeInv(c, Deliver(c, s, i))
  {
    var v, s' := s.wire[i].to, Deliver(c, s, i);
    forall u | u in c.topo
      ensures AgeOk(c, s', u)
    {
      if u != v {
        AgeInOrder(c, s, u);
        RouteInOrder(c, s, u);
        OthersAge(c, s, s', u);
      }
    }
    forall m | m in s'.wire
      ensures AgeMsgOk(c, s', m)
    {
      if m in Without(s.wire, i) {
        InWithout(s.wire, i, m);
        AgeMsgInOrder(c, s, m);
        RouteMsgInOrder(c, s, m);
        MsgAges(c, s, s', m);
      }
    }
  }

  lemma NoReplyIsOk(c: Config, s: State, ms: seq<Msg>)
    requires forall m :: m in ms ==> !m.packet.RrepPacket?
    ensures forall m :: m in ms ==> AgeMsgOk(c, s, m)
  {
  }

  lemma SameTablesAge(c: Config, s: State, s': State)
    requires s'.nodes == s.nodes && s'.stamp == s.stamp && s.clock <= s'.clock
    ensures Ages(c, s, s')
  {
  }

  lemma DuplicateAges(c: Config, s: State, i: nat)
    requires GoodConfig(c) && AgeInv(c, s) && RequestNext(c, s, i) && !News(c, s, i)
    ensures AgeInv(c, Deliver(c, s, i))
  {
    var v, s' := s.wire[i].to, Deliver(c, s, i);
    DuplicateKeepsInv(c, s, i);
    DuplicateKeepsRoutes(c, s, i);
    DuplicateIsDropped(s.nodes[v], s.wire[i].packet.rreq, s.wire[i].from);
    EmitNothing(c, v);
    SameTablesAge(c, s, s');
    AgeInOrder(c, s, v);
    RouteInOrder(c, s, v);
    OthersAge(c, s, s', v);
    AgesStay(c, s, i);
  }

  /** Learning from a request touches no forward route. */
  lemma NewsAges(c: Config, s: State, i: nat)
    requires GoodConfig(c) && RequestNext(c, s, i) && News(c, s, i)
    ensures Ages(c, s, Deliver(c, s, i))
    ensures Route(Deliver(c, s, i).nodes[s.wire[i].to].table, c.dest) == Route(s.nodes[s.wire[i].to].table, c.dest)
  {
    NewsGrows(c, s, i);
    NewsIsLearned(c, s, i);
  }

  lemma NewsKeepsAge(c: Config, s: State, i: nat)
    requires GoodConfig(c) && AgeInv(c, s) && RequestNext(c, s, i) && News(c, s, i)
    ensures AgeOk(c, Deliver(c, s, i), s.wire[i].to)
  {
    var v, s' := s.wire[i].to, Deliver(c, s, i);
    NewsAges(c, s, i);
    NewsGrows(c, s, i);
    AgeInOrder(c, s, v);
    RouteInOrder(c, s, v);
    NewsKeepsNumber(c, s, i);
    if v != c.dest && Routed(c, s, v) { NearerStays(c, s, s', AheadHop(c, s, v), v); }
  }

  lemma NearerStays(c: Config, s: State, s': State, w: Ip, v: Ip)
    requires Nearer(c, s, w, v) && Ages(c, s, s') && Ahead(c, s', v) == Ahead(c, s, v) && Stamp(s', v) == Stamp(s, v)
    ensures Nearer(c, s', w, v)
  {
  }

  /** The destination's number moves at most from 0 to 1, before its first answer. */
  lemma NewsKeepsNumber(c: Config, s: State, i: nat)
    requires GoodConfig(c) && RequestNext(c, s, i) && News(c, s, i)
    ensures var n, n' := s.nodes[s.wire[i].to], Reaction(c, s, i).node;
            && (n.ip == c.dest && c.reply > 0 && RepliesWith(n, c.reply) ==> n'.seqNum == c.reply)
  {
    NewsIsAccepted(c, s, i);
  }

  lemma AnswerAges(c: Config, s: State, i: nat)
    requires GoodConfig(c) && AgeInv(c, s) && RequestNext(c, s, i) && News(c, s, i) && Answers(c, s.nodes[s.wire[i].to])
    ensures AgeInv(c, Deliver(c, s, i))
  {
    NewsAges(c, s, i);
    NewsKeepsAge(c, s, i);
    NewsGrows(c, s, i);
    AnswerKeepsRoutes(c, s, i);
    AnswerMsgOk(c, s, i);
    AgesStay(c, s, i);
  }

  lemma AnswerMsgOk(c: Config, s: State, i: nat)
    requires GoodConfig(c) && AgeInv(c, s) && RequestNext(c, s, i) && News(c, s, i) && Answers(c, s.nodes[s.wire[i].to])
    ensures forall m :: m in Emit(c, s.wire[i].to, Reaction(c, s, i).out) ==> AgeMsgOk(c, Deliver(c, s, i), m)
  {
    var v, s' := s.wire[i].to, Deliver(c, s, i);
    AnswerEmits(c, s, i);
    AnswerIsReply(c, s, i);
    NewsAges(c, s, i);
    NewsKeepsAge(c, s, i);
    NodeInOrder(c, s, v);
    assert Back(c, s', v) < 256;
  }

  /** The number in an answer is the destination's. */
  lemma AnswerIsReply(c: Config, s: State, i: nat)
    requires GoodConfig(c) && AgeInv(c, s) && RequestNext(c, s, i) && News(c, s, i) && Answers(c, s.nodes[s.wire[i].to])
    ensures var v, p := s.wire[i].to, Answer(c, s.nodes[s.wire[i].to], Reaction(c, s, i).node);
            RrepPacket(p) == Reply(c, if v == c.dest then 0 else Ahead(c, s, v))
  {
    NewsKeepsNumber(c, s, i);
    AgeInOrder(c, s, s.wire[i].to);
    NodeInOrder(c, s, s.wire[i].to);
  }

  lemma ForwardAges(c: Config, s: State, i: nat)
    requires GoodConfig(c) && AgeInv(c, s) && RequestNext(c, s, i) && News(c, s, i)
             && !Answers(c, s.nodes[s.wire[i].to])
    ensures AgeInv(c, Deliver(c, s, i))
  {
    NewsAges(c, s, i);
    NewsKeepsAge(c, s, i);
    NewsGrows(c, s, i);
    ForwardKeepsRoutes(c, s, i);
    ForwardEmits(c, s, i);
    forall m | m in Emit(c, s.wire[i].to, Reaction(c, s, i).out)
      ensures !m.packet.RrepPacket?
    {
      EmittedBy(c, s.wire[i].to, Reaction(c, s, i).out[0], m);
    }
    NoReplyIsOk(c, Deliver(c, s, i), Emit(c, s.wire[i].to, Reaction(c, s, i).out));
    AgesStay(c, s, i);
  }

  /** Hearing a reply with the right number: the shorter of both routes stays. */
  lemma HeardHops(c: Config, n: Node, p: Rrep, source: Ip)
    requires RrepPacket(p) == Reply(c, p.hopCount) && (Active(n.table, c.dest) ==> SeqOf(n.table, c.dest) == c.reply)
    ensures var t' := UpdateFromRrep(n.table, p, source);
            && Active(t', c.dest) && SeqOf(t', c.dest) == c.reply
            && (if Active(n.table, c.dest) && HopsOf(n.table, c.dest) <= p.hopCount
                then Route(t', c.dest) == Route(n.table, c.dest)
                else NextHop(t', c.dest) == source && HopsOf(t', c.dest) == p.hopCount)
  {
  }

  /** What a reply makes of its addressee's forward route. */
  lemma ReplyHeardHops(c: Config, s: State, i: nat)
    requires GoodConfig(c) && AgeInv(c, s) && ReplyNext(c, s, i)
    ensures var m, t, t' := s.wire[i], s.nodes[s.wire[i].to].table, Reaction(c, s, i).node.table;
            && SeqOf(t', c.dest) == c.reply
            && (if Active(t, c.dest) && HopsOf(t, c.dest) <= m.packet.rrep.hopCount
                then Route(t', c.dest) == Route(t, c.dest)
                else NextHop(t', c.dest) == m.from && HopsOf(t', c.dest) == m.packet.rrep.hopCount)
  {
    var m := s.wire[i];
    ReplyIsHeard(c, s, i);
    AgeInOrder(c, s, m.to);
    AgeMsgInOrder(c, s, m);
    HeardHops(c, s.nodes[m.to], m.packet.rrep, m.from);
    if m.to == c.orig { ArrivalReaction(c, s, i); } else { RelayReaction(c, s, i); }
  }

  lemma ReplyAges(c: Config, s: State, i: nat)
    requires GoodConfig(c) && AgeInv(c, s) && ReplyNext(c, s, i)
    ensures Ages(c, s, Deliver(c, s, i)) && Ahead(c, Deliver(c, s, i), s.wire[i].to) <= s.wire[i].packet.rrep.hopCount
  {
    ReplyGrows(c, s, i);
    ReplyHeardHops(c, s, i);
  }

  lemma ReplyKeepsAge(c: Config, s: State, i: nat)
    requires GoodConfig(c) && AgeInv(c, s) && ReplyNext(c, s, i)
    ensures AgeOk(c, Deliver(c, s, i), s.wire[i].to)
  {
    var m, s' := s.wire[i], Deliver(c, s, i);
    ReplyAges(c, s, i);
    ReplyHeardHops(c, s, i);
    ReplyGrows(c, s, i);
    AgeInOrder(c, s, m.to);
    AgeMsgInOrder(c, s, m);
    if Routed(c, s, m.to) && Ahead(c, s, m.to) <= m.packet.rrep.hopCount {
      NearerStays(c, s, s', AheadHop(c, s, m.to), m.to);
    } else {
      SenderIsNearer(c, s, i);
    }
  }

  /** A reply that sets its addressee's route comes from a nearer node. */
  lemma SenderIsNearer(c: Config, s: State, i: nat)
    requires GoodConfig(c) && AgeInv(c, s) && ReplyNext(c, s, i)
    requires !(Routed(c, s, s.wire[i].to) && Ahead(c, s, s.wire[i].to) <= s.wire[i].packet.rrep.hopCount)
    ensures Nearer(c, Deliver(c, s, i), s.wire[i].from, s.wire[i].to)
  {
    var m, s' := s.wire[i], Deliver(c, s, i);
    ReplyGrows(c, s, i);
    ReplyHeardHops(c, s, i);
    MsgInOrder(c, s, m);
    AgeInOrder(c, s, m.from);
    AgeMsgInOrder(c, s, m);
    OtherIsAsIs(c, s, i, m.from);
  }

  lemma OtherIsAsIs(c: Config, s: State, i: nat, u: Ip)
    requires Enabled(c, s, i) && u != s.wire[i].to
    ensures var s' := Deliver(c, s, i);
            (Routed(c, s', u) <==> Routed(c, s, u)) && Ahead(c, s', u) == Ahead(c, s, u) && Stamp(s', u) == Stamp(s, u)
  {
  }

  lemma RelayAges(c: Config, s: State, i: nat)
    requires GoodConfig(c) && AgeInv(c, s) && ReplyNext(c, s, i) && s.wire[i].to != c.orig
    ensures AgeInv(c, Deliver(c, s, i))
  {
    var s' := Deliver(c, s, i);
    assert Ages(c, s, s') by { ReplyAges(c, s, i); }
    assert Grows(c, s, s') by { ReplyGrows(c, s, i); }
    assert RouteInv(c, s') by { RelayKeepsRoutes(c, s, i); }
    ReplyKeepsAge(c, s, i);
    RelayMsgOk(c, s, i);
    AgesStay(c, s, i);
  }

  lemma RelayMsgOk(c: Config, s: State, i: nat)
    requires GoodConfig(c) && AgeInv(c, s) && ReplyNext(c, s, i) && s.wire[i].to != c.orig
    ensures forall m :: m in Emit(c, s.wire[i].to, Reaction(c, s, i).out) ==> AgeMsgOk(c, Deliver(c, s, i), m)
  {
    ReplyAges(c, s, i);
    ReplyGrows(c, s, i);
    RelayEmits(c, s, i);
    AgeMsgInOrder(c, s, s.wire[i]);
  }

  lemma ArrivalAges(c: Config, s: State, i: nat)
    requires GoodConfig(c) && AgeInv(c, s) && ReplyNext(c, s, i) && s.wire[i].to == c.orig
    ensures AgeInv(c, Deliver(c, s, i))
  {
    ReplyAges(c, s, i);
    ReplyKeepsAge(c, s, i);
    ReplyGrows(c, s, i);
    ArrivalKeepsRoutes(c, s, i);
    ArrivalSendsNoReply(c, s, i);
    NoReplyIsOk(c, Deliver(c, s, i), Emit(c, c.orig, Reaction(c, s, i).out));
    AgesStay(c, s, i);
  }

  lemma ArrivalSendsNoReply(c: Config, s: State, i: nat)
    requires GoodConfig(c) && RouteInv(c, s) && ReplyNext(c, s, i) && s.wire[i].to == c.orig
    ensures forall m :: m in Emit(c, c.orig, Reaction(c, s, i).out) ==> !m.packet.RrepPacket?
  {
    ArrivalOut(c, s, i);
    forall m | m in Emit(c, c.orig, Reaction(c, s, i).out)
      ensures !m.packet.RrepPacket?
    {
      if Reaction(c, s, i).out == [] { EmitNothing(c, c.orig); }
      else { EmittedBy(c, c.orig, Reaction(c, s, i).out[0], m); }
    }
  }

  lemma DataAges(c: Config, s: State, i: nat)
    requires GoodConfig(c) && AgeInv(c, s) && DataNext(c, s, i)
    ensures AgeInv(c, Deliver(c, s, i))
  {
    var v, s' := s.wire[i].to, Deliver(c, s, i);
    RouteMsgInOrder(c, s, s.wire[i]);
    DataKeepsRoutes(c, s, i);
    DataKeepsNodes(c, s, i);
    SameTablesAge(c, s, s');
    AgeInOrder(c, s, v);
    RouteInOrder(c, s, v);
    OthersAge(c, s, s', v);
    DataSendsNoReply(c, s, i);
    AgesStay(c, s, i);
  }

  lemma DataSendsNoReply(c: Config, s: State, i: nat)
    requires GoodConfig(c) && AgeInv(c, s) && DataNext(c, s, i)
    ensures forall m :: m in Emit(c, s.wire[i].to, Reaction(c, s, i).out) ==> AgeMsgOk(c, Deliver(c, s, i), m)
  {
    DataEmits(c, s, i);
    NoReplyIsOk(c, Deliver(c, s, i), Emit(c, s.wire[i].to, Reaction(c, s, i).out));
  }

  lemma DeliverAges(c: Config, s: State, i: nat)
    requires GoodConfig(c) && AgeInv(c, s) && Enabled(c, s, i)
    ensures AgeInv(c, Deliver(c, s, i))
  {
    WireIsEnabled(c, s, i);
    RouteMsgInOrder(c, s, s.wire[i]);
    match s.wire[i].packet
    case RreqPacket(_) =>
      if !News(c, s, i) { DuplicateAges(c, s, i); }
      else if Answers(c, s.nodes[s.wire[i].to]) { AnswerAges(c, s, i); }
      else { ForwardAges(c, s, i); }
    case RrepPacket(_) =>
      if s.wire[i].to == c.orig { ArrivalAges(c, s, i); } else { RelayAges(c, s, i); }
    case DataPacket(_, _) => DataAges(c, s, i);
    case RerrPacket(_) =>
  }

  lemma LoseAges(c: Config, s: State, i: nat)
    requires AgeInv(c, s) && i < |s.wire|
    ensures AgeInv(c, Lose(s, i))
  {
    var s' := Lose(s, i);
    LoseKeepsRoutes(c, s, i);
    LoseKeepsInv(c, s, i);
    SameTablesAge(c, s, s');
    forall v | v in c.topo
      ensures AgeOk(c, s', v)
    {
      AgeInOrder(c, s, v);
      RouteInOrder(c, s, v);
      OthersAge(c, s, s', v);
    }
    forall m | m in s'.wire
      ensures AgeMsgOk(c, s', m)
    {
      InWithout(s.wire, i, m);
      AgeMsgInOrder(c, s, m);
      RouteMsgInOrder(c, s, m);
      MsgAges(c, s, s', m);
    }
  }

  lemma StepAges(c: Config, tr: Trace, sched: Schedule, t: nat)
    requires GoodConfig(c) && IsTrace(c, tr, sched) && AgeInv(c, tr(t))
    ensures AgeInv(c, tr(t + 1))
  {
    assert StepsAt(c, tr, sched, t);
    if tr(t).wire != [] {
      var i := sched(t).which % |tr(t).wire|;
      if sched(t).lost || !Enabled(c, tr(t), i) { LoseAges(c, tr(t), i); } else { DeliverAges(c, tr(t), i); }
    }
  }

  lemma {:induction false} RunAges(c: Config, tr: Trace, sched: Schedule, t: nat)
    requires GoodConfig(c) && IsTrace(c, tr, sched) && AgeInv(c, tr(0))
    ensures AgeInv(c, tr(t))
  {
    if t > 0 {
      RunAges(c, tr, sched, t - 1);
      StepAges(c, tr, sched, t - 1);
    }
  }

  /** Nobody knew a route before, and `reply` is the number the destination answers with. */
  ghost predicate NothingKnown(c: Config, nodes: map<Ip, Node>) {
    c.cache == map[] && c.reply > 0 && (c.dest in nodes ==> RepliesWith(nodes[c.dest], c.reply))
  }

  lemma BeginAges(c: Config, nodes: map<Ip, Node>)
    requires Asks(c, nodes) && NothingKnown(c, nodes)
    ensures AgeInv(c, Begin(c, nodes))
  {
    var s := Begin(c, nodes);
    BeginKeepsRoutes(c, nodes);
    BeginSends(c, nodes);
    forall v | v in c.topo
      ensures AgeOk(c, s, v)
    {
      BeginAgeOk(c, nodes, v);
    }
    forall m | m in s.wire
      ensures !m.packet.RrepPacket?
    {
    }
    NoReplyIsOk(c, s, s.wire);
  }

  lemma BeginAgeOk(c: Config, nodes: map<Ip, Node>, v: Ip)
    requires Asks(c, nodes) && NothingKnown(c, nodes) && v in c.topo
    ensures AgeOk(c, Begin(c, nodes), v)
  {
    BeginSends(c, nodes);
    assert v !in c.cache;
  }

  /** At every moment of every discovery in which no route was known before: along every
      forward next hop the pair of hop count and time of writing strictly falls. */
  lemma HopsAndAgesDescend(c: Config, nodes: map<Ip, Node>, tr: Trace, sched: Schedule, t: nat, v: Ip)
    requires Discovers(c, nodes, tr, sched) && NothingKnown(c, nodes)
    requires v in c.topo && v != c.dest && Routed(c, tr(t), v)
    ensures Nearer(c, tr(t), AheadHop(c, tr(t), v), v)
  {
    BeginAges(c, nodes);
    RunAges(c, tr, sched, t);
    AgeInOrder(c, tr(t), v);
  }
}
