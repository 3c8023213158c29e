/** The flood of a discovery's request and its replies, whatever routes to the destination
    the nodes knew before: every step keeps the invariant. */
module Flood {
  import opened Packets
  import opened RoutingTable
  import opened NodeSpec
  import opened Network
  import opened Discovery
  import opened Sets

  // ----- Trails

  /** A node that is not yet within `|p| - 1` hops extends a trail that climbs. */
  lemma TrailExtends(c: Config, s: State, p: seq<Ip>, v: Ip)
    requires Trail(c, p) && Climbs(c, s, p) && Relays(c, p[|p| - 1]) && IsLink(c, p[|p| - 1], v)
    requires !(Stored(c, s, v) && Back(c, s, v) < |p|)
    ensures Trail(c, p + [v])
  {
    var q := p + [v];
    forall i | 0 <= i < |p|
      ensures p[i] != v
    {
      assert Stored(c, s, p[i]) && Back(c, s, p[i]) <= i;
    }
    forall i | 0 <= i < |q| - 1
      ensures IsLink(c, q[i], q[i + 1])
    {
      if i < |p| - 1 { assert IsLink(c, p[i], p[i + 1]); }
    }
    forall i | 0 < i < |q| - 1
      ensures Relays(c, q[i])
    {
      assert i < |p| - 1 ==> Relays(c, p[i]);
    }
  }

  lemma NoRepeatsFit<T>(xs: seq<T>, s: set<T>)
    requires NoRepeats(xs) && forall x :: x in xs ==> x in s
    ensures |xs| <= |s|
  {
    if xs != [] {
      var last := xs[|xs| - 1];
      NoRepeatsFit(xs[..|xs| - 1], s - {last});
    }
  }

  lemma TrailFits(c: Config, p: seq<Ip>)
    requires GoodNet(c) && Trail(c, p)
    ensures |p| <= |c.topo|
  {
    forall x | x in p
      ensures x in c.topo.Keys
    {
      var i :| 0 <= i < |p| && p[i] == x;
      if i > 0 { assert IsLink(c, p[i - 1], p[i]); }
    }
    NoRepeatsFit(p, c.topo.Keys);
  }

  // ----- One node's reaction to the request

  /** What learning from the request does to the two routes of a node. */
  ghost predicate Learned(c: Config, n: Node, n': Node, hops: nat, source: Ip) {
    && SameSite(n', n) && n'.pending == n.pending
    && Route(n'.table, c.dest) == Route(n.table, c.dest)
    && SeqOf(n'.table, c.orig) == c.seqNum
    && (if SeqOf(n.table, c.orig) == c.seqNum && HopsOf(n.table, c.orig) <= hops + 1
        then NextHop(n'.table, c.orig) == NextHop(n.table, c.orig)
          && HopsOf(n'.table, c.orig) == HopsOf(n.table, c.orig)
        else NextHop(n'.table, c.orig) == source && HopsOf(n'.table, c.orig) == hops + 1)
  }

  lemma LearnEffect(c: Config, n: Node, q: Rreq, source: Ip)
    requires GoodNet(c) && RreqPacket(q) == Request(c, q.hopCount) && q.hopCount < 255
    requires SeqOf(n.table, c.orig) <= c.seqNum
    ensures var n' := LearnReverse(RememberId(n, q), q, source);
            Learned(c, n, n', q.hopCount, source) && n'.seqNum == n.seqNum
  {
  }

  predicate Answers(c: Config, n: Node) { n.ip == c.dest || Active(n.table, c.dest) }

  /** What a node answers: 0 hops and its own number if it is the destination, else what
      its table says. */
  function Answer(c: Config, n: Node, n': Node): Rrep {
    if n.ip == c.dest then Rrep(0, c.dest, n'.seqNum, c.orig)
    else Rrep(HopsOf(n.table, c.dest), c.dest, SeqOf(n.table, c.dest), c.orig)
  }

  /** A request that is no duplicate is learned from, and answered or passed on. */
  lemma RequestEffect(c: Config, n: Node, q: Rreq, source: Ip)
    requires GoodNet(c) && RreqPacket(q) == Request(c, q.hopCount) && q.hopCount < 255
    requires !IsDuplicate(n, q) && SeqOf(n.table, c.orig) <= c.seqNum
    requires n.ip != c.dest && Active(n.table, c.dest) ==> NextHop(n.table, c.dest) != NO_HOP
    ensures var r := Receive(n, RreqPacket(q), source);
            && Learned(c, n, r.node, q.hopCount, source)
            && (if Answers(c, n) then r.out == SendRrep(r.node, Answer(c, n, r.node))
                else r.out == [Send(BROADCAST, Request(c, q.hopCount + 1))])
  {
    LearnEffect(c, n, q, source);
  }

  lemma DuplicateIsDropped(n: Node, q: Rreq, source: Ip)
    requires IsDuplicate(n, q)
    ensures Receive(n, RreqPacket(q), source) == Result(n, [])
  {
  }

  // ----- One node's reaction to anything else

  /** The reverse route stays as it is, and a route to the destination stays open. */
  ghost predicate Untouched(c: Config, n: Node, n': Node, source: Ip) {
    && SameSite(n', n)
    && NextHop(n'.table, c.orig) == NextHop(n.table, c.orig)
    && SeqOf(n'.table, c.orig) == SeqOf(n.table, c.orig) && HopsOf(n'.table, c.orig) == HopsOf(n.table, c.orig)
    && SeenFrom(n', c.orig) == SeenFrom(n, c.orig)
    && (Active(n.table, c.dest) ==> Active(n'.table, c.dest))
    && (Active(n'.table, c.dest) ==>
          || (Active(n.table, c.dest) && NextHop(n'.table, c.dest) == NextHop(n.table, c.dest))
          || NextHop(n'.table, c.dest) == source)
  }

  /** A packet about the same destination that is no part of this discovery. */
  predicate Foreign(c: Config, o: Output) {
    o.Send? ==>
      match o.packet
      case RreqPacket(q) => q.origIp != c.orig && q.origIp != c.dest && q.destIp == c.dest
      case RrepPacket(p) => p.origIp != c.orig && p.origIp != c.dest && p.destIp == c.dest
      case DataPacket(_, f) => FrameDest(f) == c.dest
      case RerrPacket(_) => false
  }

  /** At most one packet, and that is foreign. */
  predicate SendsForeign(c: Config, out: seq<Output>) { out == [] || (|out| == 1 && Foreign(c, out[0])) }

  /** What another discovery's request does to a node, but for its counters. */
  lemma OtherLearns(c: Config, n: Node, q: Rreq, source: Ip)
    requires q.origIp != c.orig && q.origIp != c.dest
    ensures Untouched(c, n, LearnReverse(RememberId(n, q), q, source), source)
  {
  }

  lemma OtherRequestEffect(c: Config, n: Node, q: Rreq, source: Ip)
    requires q.origIp != c.orig && q.origIp != c.dest && q.destIp == c.dest
    ensures var r := Receive(n, RreqPacket(q), source);
            Untouched(c, n, r.node, source) && SendsForeign(c, r.out)
  {
    OtherLearns(c, n, q, source);
    var n1 := RememberId(n, q);
    if !IsDuplicate(n, q) && ShouldGenerateRrep(n1, q) {
      var (n2, p) := CreateRrep(n1, q, source);
      assert n2.table == LearnReverse(n1, q, source).table && n2.seen == n1.seen;
      assert Receive(n, RreqPacket(q), source) == Result(n2, SendRrep(n2, p));
    }
  }

  /** Hearing a reply opens the route, over the reply's link unless it was open before. */
  lemma HearEffect(c: Config, n: Node, p: Rrep, source: Ip)
    requires GoodNet(c) && p.destIp == c.dest
    ensures var n' := n.(table := UpdateFromRrep(n.table, p, source));
            Untouched(c, n, n', source) && Active(n'.table, c.dest)
  {
  }

  lemma RelayEffect(c: Config, n: Node, p: Rrep, source: Ip)
    requires n.ip != p.origIp
    ensures var n1 := n.(table := UpdateFromRrep(n.table, p, source));
            Receive(n, RrepPacket(p), source) == Result(n1, SendRrep(n1, p.(hopCount := Inc8(p.hopCount))))
  {
    SecondUpdateNeverFires(n, p, source);
  }

  function Drained(n: Node, dest: Ip): seq<Output> {
    if HeldFor(n, dest) == [] then []
    else
      var b := HeldFor(n, dest)[0];
      [Send(NextHop(n.table, dest), DataPacket(b.port, MakeFrame(dest, n.ip, b.payload)))]
  }

  /** Over a link that exists, a node drains its one held packet onto that link. */
  lemma DrainOverLink(n: Node, dest: Ip)
    requires Active(n.table, dest) && dest != BROADCAST && n.ip != BROADCAST && NextHop(n.table, dest) in n.neighbors
    ensures Drain(n, dest) == Result(n.(pending := n.pending - {dest}), Drained(n, dest))
  {
    if dest in n.pending && n.pending[dest] != [] { DrainOne(n, dest); }
  }

  /** At its originator a reply drains the packet held for the destination. */
  lemma ArrivalEffect(c: Config, n: Node, p: Rrep, source: Ip)
    requires GoodNet(c) && p.destIp == c.dest && n.ip == p.origIp && n.ip != BROADCAST && source in n.neighbors
    requires Active(n.table, c.dest) ==> NextHop(n.table, c.dest) in n.neighbors
    ensures var n1 := n.(table := UpdateFromRrep(n.table, p, source));
            Receive(n, RrepPacket(p), source) == Result(n1.(pending := n.pending - {c.dest}), Drained(n1, c.dest))
  {
    HearEffect(c, n, p, source);
    DrainOverLink(n.(table := UpdateFromRrep(n.table, p, source)), c.dest);
  }

  lemma DrainedIsForeign(c: Config, n: Node)
    ensures SendsForeign(c, Drained(n, c.dest))
  {
    if HeldFor(n, c.dest) != [] {
      var b := HeldFor(n, c.dest)[0];
      FrameRoundTrip(c.dest, n.ip, b.payload);
    }
  }

  /** A data packet is handed over or dropped at the destination, passed on over an open
      route, or held by a node that then asks for a route itself. */
  lemma DataEffect(c: Config, n: Node, port: int, f: Frame, source: Ip)
    requires GoodNet(c) && FrameDest(f) == c.dest && n.ip != BROADCAST
    requires n.ip != c.dest && Active(n.table, c.dest) ==> NextHop(n.table, c.dest) in n.neighbors
    requires n.ip == c.orig ==> Active(n.table, c.dest)
    ensures var r := Receive(n, DataPacket(port, f), source);
            r.node.table == n.table && r.node.seen == n.seen && SameSite(r.node, n) && SendsForeign(c, r.out)
  {
    FrameRoundTrip(c.dest, if FrameOrig(f) == BROADCAST then n.ip else FrameOrig(f), FramePayload(f));
  }

  // ----- Messages a step adds

  lemma EmitNothing(c: Config, from: Ip)
    requires from in c.topo
    ensures Emit(c, from, []) == []
  {
  }

  lemma InEmit(c: Config, from: Ip, o: Output)
    requires from in c.topo
    ensures Emit(c, from, [o]) == EmitOne(c, from, o) && Hands(from, [o]) == if o.Hand? then [(from, o)] else []
  {
    assert EmitOne(c, from, o) + Emit(c, from, []) == EmitOne(c, from, o);
    assert Hands(from, []) == [];
  }

  /** Whatever a single output puts on the wire has its packet and its sender. */
  lemma EmittedBy(c: Config, from: Ip, o: Output, m: Msg)
    requires from in c.topo && m in Emit(c, from, [o])
    ensures o.Send? && m.from == from && m.to in c.topo[from] && m.packet == o.packet
            && (o.to == BROADCAST || m.to == o.to)
  {
    InEmit(c, from, o);
    if o.Send? && o.to == BROADCAST {
      var i :| 0 <= i < |Spread(from, c.topo[from], o.packet)| && Spread(from, c.topo[from], o.packet)[i] == m;
    }
  }

  lemma InWithout(ms: seq<Msg>, i: nat, m: Msg)
    requires i < |ms| && m in Without(ms, i)
    ensures m in ms
  {
  }

  // ----- What growing keeps

  lemma NodeGrows(c: Config, s: State, s': State, v: Ip)
    requires Grows(c, s, s') && v in c.topo && NodeOk(c, s, v)
    requires v in s'.nodes && s'.nodes[v] == s.nodes[v]
    ensures NodeOk(c, s', v)
  {
  }

  lemma ClimbGrows(c: Config, s: State, s': State, p: seq<Ip>)
    requires Grows(c, s, s') && Climbs(c, s, p)
    ensures Climbs(c, s', p)
  {
    forall k {:trigger p[k]} | 0 <= k < |p|
      ensures Stored(c, s', p[k]) && Back(c, s', p[k]) <= k
    {
      assert Stored(c, s, p[k]);
    }
  }

  lemma RequestGrows(c: Config, s: State, s': State, from: Ip, hops: nat)
    requires Grows(c, s, s') && RequestOk(c, s, from, hops)
    ensures RequestOk(c, s', from, hops)
  {
    var p :| Trail(c, p) && |p| == hops + 1 && p[hops] == from && Climbs(c, s, p);
    ClimbGrows(c, s, s', p);
  }

  lemma MsgGrows(c: Config, s: State, s': State, m: Msg)
    requires Grows(c, s, s') && MsgOk(c, s, m)
    ensures MsgOk(c, s', m)
  {
    match m.packet
    case RreqPacket(q) => if q.origIp == c.orig { RequestGrows(c, s, s', m.from, q.hopCount); }
    case RrepPacket(_) =>
    case DataPacket(_, _) =>
    case RerrPacket(_) =>
  }

  lemma NodeInOrder(c: Config, s: State, v: Ip)
    requires Inv(c, s) && v in c.topo
    ensures NodeOk(c, s, v)
  {
  }

  lemma MsgInOrder(c: Config, s: State, m: Msg)
    requires Inv(c, s) && m in s.wire
    ensures MsgOk(c, s, m)
  {
  }

  /** Routes only grew, `v` itself is in order, and so is everything it sent. */
  ghost predicate Fine(c: Config, s: State, s': State, v: Ip, out: seq<Output>)
    requires v in c.topo
  {
    && Grows(c, s, s') && NodeOk(c, s', v)
    && forall m {:trigger MsgOk(c, s', m)} :: m in Emit(c, v, out) ==> MsgOk(c, s', m)
  }

  lemma OthersStay(c: Config, s: State, s': State, v: Ip, u: Ip)
    requires Inv(c, s) && Grows(c, s, s') && u in c.topo && u != v
    requires s'.nodes.Keys == s.nodes.Keys && forall w :: w in s.nodes && w != v ==> s'.nodes[w] == s.nodes[w]
    ensures NodeOk(c, s', u)
  {
    NodeInOrder(c, s, u);
    NodeGrows(c, s, s', u);
  }

  /** A step that is fine keeps the invariant. */
  lemma FineKeepsInv(c: Config, s: State, i: nat)
    requires Inv(c, s) && Enabled(c, s, i)
    requires Fine(c, s, Deliver(c, s, i), s.wire[i].to, Reaction(c, s, i).out)
    ensures Inv(c, Deliver(c, s, i))
  {
    var v, s' := s.wire[i].to, Deliver(c, s, i);
    forall u | u in c.topo
      ensures NodeOk(c, s', u)
    {
      if u != v { OthersStay(c, s, s', v, u); }
    }
    forall m | m in s'.wire
      ensures MsgOk(c, s', m)
    {
      if m in Without(s.wire, i) {
        InWithout(s.wire, i, m);
        MsgInOrder(c, s, m);
        MsgGrows(c, s, s', m);
      }
    }
  }

  // ----- Requests

  /** The request reaches `v` from its neighbour `from`, and `v` is not that near yet. */
  ghost predicate Accepts(c: Config, s: State, v: Ip, from: Ip, hops: nat) {
    && IsLink(c, from, v) && IsLink(c, v, from)
    && v != c.orig && NodeOk(c, s, v) && RequestOk(c, s, from, hops)
    && !(Stored(c, s, v) && Back(c, s, v) <= hops)
  }

  /** An accepted request goes on a trail: no node is visited twice. */
  lemma AcceptExtends(c: Config, s: State, v: Ip, from: Ip, hops: nat) returns (p: seq<Ip>)
    requires Accepts(c, s, v, from, hops)
    ensures Trail(c, p + [v]) && |p| == hops + 1 && Climbs(c, s, p) && p[hops] == from
  {
    p :| Trail(c, p) && |p| == hops + 1 && p[hops] == from && Climbs(c, s, p);
    TrailExtends(c, s, p, v);
  }

  lemma AcceptGrows(c: Config, s: State, v: Ip, r: Result, rest: seq<Msg>, from: Ip, hops: nat)
    requires Accepts(c, s, v, from, hops) && Learned(c, s.nodes[v], r.node, hops, from)
    ensures var s' := Apply(c, s, v, r, rest);
            && Grows(c, s, s') && s'.level == s.level && s'.stamp == s.stamp
            && Stored(c, s', v) && Back(c, s', v) <= hops + 1
  {
  }

  lemma AcceptKeepsNode(c: Config, s: State, v: Ip, r: Result, rest: seq<Msg>, from: Ip, hops: nat)
    requires Accepts(c, s, v, from, hops) && Learned(c, s.nodes[v], r.node, hops, from)
    ensures NodeOk(c, Apply(c, s, v, r, rest), v)
  {
    var s' := Apply(c, s, v, r, rest);
    AcceptGrows(c, s, v, r, rest, from, hops);
    var p := AcceptExtends(c, s, v, from, hops);
    assert p[hops] in p && Stored(c, s, from) && Back(c, s, from) <= hops;
    assert (p + [v])[hops + 1] == v;
    assert SiteOk(c, s', v);
    if Stored(c, s, v) && Back(c, s, v) <= hops + 1 {
      assert Back(c, s', v) == Back(c, s, v) && BackHop(c, s', v) == BackHop(c, s, v) != v;
    } else {
      assert HasTrail(c, v, hops + 1);
    }
    assert BackOk(c, s', v);
  }

  /** The request as passed on by `v` has travelled one link more. */
  lemma ForwardedIsOk(c: Config, s: State, v: Ip, r: Result, rest: seq<Msg>, from: Ip, hops: nat)
    requires Accepts(c, s, v, from, hops) && Learned(c, s.nodes[v], r.node, hops, from) && Relays(c, v)
    ensures RequestOk(c, Apply(c, s, v, r, rest), v, hops + 1)
  {
    var s' := Apply(c, s, v, r, rest);
    AcceptGrows(c, s, v, r, rest, from, hops);
    var p := AcceptExtends(c, s, v, from, hops);
    ClimbGrows(c, s, s', p);
    var q := p + [v];
    assert Climbs(c, s', q);
    assert Trail(c, q) && |q| == hops + 2 && q[hops + 1] == v;
  }

  ghost predicate RequestNext(c: Config, s: State, i: nat) {
    Inv(c, s) && Enabled(c, s, i) && s.wire[i].packet.RreqPacket? && s.wire[i].packet.rreq.origIp == c.orig
  }

  /** The request's addressee has not seen it, or not over so short a path. */
  ghost predicate News(c: Config, s: State, i: nat)
    requires Enabled(c, s, i) && s.wire[i].packet.RreqPacket?
  {
    !IsDuplicate(s.nodes[s.wire[i].to], s.wire[i].packet.rreq)
  }

  lemma NewsIsAccepted(c: Config, s: State, i: nat)
    requires GoodNet(c) && RequestNext(c, s, i) && News(c, s, i)
    ensures var m := s.wire[i];
            && Accepts(c, s, m.to, m.from, m.packet.rreq.hopCount)
            && m.packet == Request(c, m.packet.rreq.hopCount)
  {
    var m := s.wire[i];
    MsgInOrder(c, s, m);
    NodeInOrder(c, s, m.to);
  }

  /** On a network without long trails no accepted count can wrap. */
  lemma NewsIsNear(c: Config, s: State, i: nat)
    requires GoodConfig(c) && RequestNext(c, s, i) && News(c, s, i)
    ensures s.wire[i].packet.rreq.hopCount < 255 && s.wire[i].packet.rreq.hopCount + 2 <= |c.topo|
  {
    NewsIsAccepted(c, s, i);
    var m := s.wire[i];
    var p := AcceptExtends(c, s, m.to, m.from, m.packet.rreq.hopCount);
    TrailFits(c, p + [m.to]);
  }

  lemma NewsIsLearned(c: Config, s: State, i: nat)
    requires GoodConfig(c) && RequestNext(c, s, i) && News(c, s, i)
    ensures var m, r := s.wire[i], Reaction(c, s, i);
            && Learned(c, s.nodes[m.to], r.node, m.packet.rreq.hopCount, m.from)
            && (if Answers(c, s.nodes[m.to]) then r.out == SendRrep(r.node, Answer(c, s.nodes[m.to], r.node))
                else m.packet.rreq.hopCount < 255 && r.out == [Send(BROADCAST, Request(c, m.packet.rreq.hopCount + 1))])
  {
    var m := s.wire[i];
    NewsIsAccepted(c, s, i);
    NewsIsNear(c, s, i);
    assert NodeOk(c, s, m.to) && IsLink(c, m.from, m.to);
    if m.to != c.dest && Routed(c, s, m.to) { assert IsLink(c, m.to, AheadHop(c, s, m.to)); }
    RequestEffect(c, s.nodes[m.to], m.packet.rreq, m.from);
  }

  lemma NewsGrows(c: Config, s: State, i: nat)
    requires GoodConfig(c) && RequestNext(c, s, i) && News(c, s, i)
    ensures var v, s' := s.wire[i].to, Deliver(c, s, i);
            && Grows(c, s, s') && NodeOk(c, s', v) && s'.level == s.level && s'.stamp == s.stamp
            && v != c.orig && Stored(c, s', v) && Back(c, s', v) <= s.wire[i].packet.rreq.hopCount + 1
  {
    var m := s.wire[i];
    NewsIsAccepted(c, s, i);
    NewsIsLearned(c, s, i);
    AcceptGrows(c, s, m.to, Reaction(c, s, i), Without(s.wire, i), m.from, m.packet.rreq.hopCount);
    AcceptKeepsNode(c, s, m.to, Reaction(c, s, i), Without(s.wire, i), m.from, m.packet.rreq.hopCount);
  }

  /** Sending a reply from a node with a reverse route puts it on the wire, towards a
      neighbour strictly closer to the originator. */
  lemma ReplyGoesBack(c: Config, s: State, v: Ip, p: Rrep)
    requires GoodNet(c) && v in c.topo && v != c.orig && Stored(c, s, v) && NodeOk(c, s, v) && p.origIp == c.orig
    ensures var u := BackHop(c, s, v);
            && SendRrep(s.nodes[v], p) == [Send(u, RrepPacket(p))]
            && Emit(c, v, SendRrep(s.nodes[v], p)) == [Msg(u, v, RrepPacket(p))]
            && u in c.topo[v] && ReplyOk(c, s, u) && Back(c, s, u) < Back(c, s, v)
  {
    InEmit(c, v, Send(BackHop(c, s, v), RrepPacket(p)));
    assert IsLink(c, v, BackHop(c, s, v));
  }

  /** An answer goes to the reverse next hop. */
  lemma AnswerEmits(c: Config, s: State, i: nat)
    requires GoodConfig(c) && RequestNext(c, s, i) && News(c, s, i) && Answers(c, s.nodes[s.wire[i].to])
    ensures var v, s', r := s.wire[i].to, Deliver(c, s, i), Reaction(c, s, i);
            && Emit(c, v, r.out) == [Msg(BackHop(c, s', v), v, RrepPacket(Answer(c, s.nodes[v], r.node)))]
            && BackHop(c, s', v) in c.topo[v] && ReplyOk(c, s', BackHop(c, s', v))
            && Back(c, s', BackHop(c, s', v)) < Back(c, s', v)
            && r.out == [Send(BackHop(c, s', v), RrepPacket(Answer(c, s.nodes[v], r.node)))]
  {
    NewsIsLearned(c, s, i);
    NewsGrows(c, s, i);
    ReplyGoesBack(c, Deliver(c, s, i), s.wire[i].to, Answer(c, s.nodes[s.wire[i].to], Reaction(c, s, i).node));
  }

  /** A node without an answer passes the request on to all its neighbours. */
  lemma ForwardEmits(c: Config, s: State, i: nat)
    requires GoodConfig(c) && RequestNext(c, s, i) && News(c, s, i) && !Answers(c, s.nodes[s.wire[i].to])
    ensures var v, h := s.wire[i].to, s.wire[i].packet.rreq.hopCount;
            && h < 255 && Reaction(c, s, i).out == [Send(BROADCAST, Request(c, h + 1))]
            && Emit(c, v, Reaction(c, s, i).out) == Spread(v, c.topo[v], Request(c, h + 1))
  {
    NewsIsLearned(c, s, i);
    InEmit(c, s.wire[i].to, Send(BROADCAST, Request(c, s.wire[i].packet.rreq.hopCount + 1)));
  }

  lemma AnswerKeepsInv(c: Config, s: State, i: nat)
    requires GoodConfig(c) && RequestNext(c, s, i) && News(c, s, i) && Answers(c, s.nodes[s.wire[i].to])
    ensures Inv(c, Deliver(c, s, i))
  {
    NewsGrows(c, s, i);
    AnswerEmits(c, s, i);
    FineKeepsInv(c, s, i);
  }

  lemma ForwardKeepsInv(c: Config, s: State, i: nat)
    requires GoodConfig(c) && RequestNext(c, s, i) && News(c, s, i) && !Answers(c, s.nodes[s.wire[i].to])
    ensures Inv(c, Deliver(c, s, i))
  {
    var m, s' := s.wire[i], Deliver(c, s, i);
    NewsIsAccepted(c, s, i);
    NewsIsLearned(c, s, i);
    NewsGrows(c, s, i);
    ForwardEmits(c, s, i);
    ForwardedIsOk(c, s, m.to, Reaction(c, s, i), Without(s.wire, i), m.from, m.packet.rreq.hopCount);
    forall f | f in Emit(c, m.to, Reaction(c, s, i).out)
      ensures MsgOk(c, s', f)
    {
      EmittedBy(c, m.to, Reaction(c, s, i).out[0], f);
    }
    FineKeepsInv(c, s, i);
  }

  lemma DuplicateKeepsInv(c: Config, s: State, i: nat)
    requires RequestNext(c, s, i) && !News(c, s, i)
    ensures var s' := Deliver(c, s, i);
            && Inv(c, s') && Grows(c, s, s') && s'.nodes == s.nodes && s'.level == s.level && s'.stamp == s.stamp
            && s'.wire == Without(s.wire, i) && s'.handed == s.handed
  {
    DuplicateIsDropped(s.nodes[s.wire[i].to], s.wire[i].packet.rreq, s.wire[i].from);
    EmitNothing(c, s.wire[i].to);
    assert s.nodes[s.wire[i].to := s.nodes[s.wire[i].to]] == s.nodes;
    NodeInOrder(c, s, s.wire[i].to);
    NodeGrows(c, s, Deliver(c, s, i), s.wire[i].to);
    FineKeepsInv(c, s, i);
  }

  // ----- Replies

  lemma UntouchedGrows(c: Config, s: State, v: Ip, r: Result, rest: seq<Msg>, source: Ip)
    requires v in c.topo && NodeOk(c, s, v) && Untouched(c, s.nodes[v], r.node, source)
    ensures Grows(c, s, Apply(c, s, v, r, rest))
  {
  }

  lemma UntouchedKeepsNode(c: Config, s: State, v: Ip, r: Result, rest: seq<Msg>, source: Ip)
    requires v in c.topo && NodeOk(c, s, v) && Untouched(c, s.nodes[v], r.node, source) && source in c.topo[v]
    ensures var s' := Apply(c, s, v, r, rest);
            NodeOk(c, s', v) && BackHop(c, s', v) == BackHop(c, s, v) && Back(c, s', v) == Back(c, s, v)
  {
    var s' := Apply(c, s, v, r, rest);
    UntouchedGrows(c, s, v, r, rest, source);
    assert SiteOk(c, s', v);
    assert BackOk(c, s', v);
  }

  /** Foreign packets may be sent once the originator has its route. */
  lemma ForeignIsOk(c: Config, s: State, v: Ip, out: seq<Output>, m: Msg)
    requires GoodNet(c) && v in c.topo && SendsForeign(c, out) && Routed(c, s, c.orig) && m in Emit(c, v, out)
    ensures MsgOk(c, s, m) && !IsOwn(c, m)
  {
    if out == [] { EmitNothing(c, v); }
    else {
      assert out == [out[0]];
      EmittedBy(c, v, out[0], m);
    }
  }

  ghost predicate ForeignNext(c: Config, s: State, i: nat) {
    Inv(c, s) && Enabled(c, s, i) && !IsOwn(c, s.wire[i])
  }

  /** Reacting to anything that is not the discovery's own leaves the reverse route alone. */
  lemma ForeignEffect(c: Config, s: State, i: nat)
    requires GoodNet(c) && ForeignNext(c, s, i)
    ensures var m, r := s.wire[i], Reaction(c, s, i);
            && Untouched(c, s.nodes[m.to], r.node, m.from) && SendsForeign(c, r.out)
            && m.from in c.topo[m.to] && m.to in c.topo
            && Routed(c, s, c.orig)
  {
    var m := s.wire[i];
    MsgInOrder(c, s, m);
    assert IsLink(c, m.from, m.to);
    NodeInOrder(c, s, m.to);
    var n := s.nodes[m.to];
    match m.packet
    case RreqPacket(q) => OtherRequestEffect(c, n, q, m.from);
    case RrepPacket(p) => ForeignReplyEffect(c, n, p, m.from);
    case DataPacket(port, f) => DataEffect(c, n, port, f, m.from);
    case RerrPacket(_) =>
  }

  lemma ForeignReplyEffect(c: Config, n: Node, p: Rrep, source: Ip)
    requires GoodNet(c) && p.destIp == c.dest && p.origIp != c.orig && p.origIp != c.dest
    requires n.ip != BROADCAST && source in n.neighbors
    requires n.ip != c.dest && Active(n.table, c.dest) ==> NextHop(n.table, c.dest) in n.neighbors
    ensures var r := Receive(n, RrepPacket(p), source);
            Untouched(c, n, r.node, source) && SendsForeign(c, r.out)
  {
    HearEffect(c, n, p, source);
    if n.ip == p.origIp {
      ArrivalEffect(c, n, p, source);
      DrainedIsForeign(c, n.(table := UpdateFromRrep(n.table, p, source)));
    } else {
      RelayEffect(c, n, p, source);
    }
  }

  lemma ForeignKeepsInv(c: Config, s: State, i: nat)
    requires GoodNet(c) && ForeignNext(c, s, i)
    ensures Inv(c, Deliver(c, s, i)) && Grows(c, s, Deliver(c, s, i))
    ensures forall m :: m in Emit(c, s.wire[i].to, Reaction(c, s, i).out) ==> !IsOwn(c, m)
  {
    var m, s' := s.wire[i], Deliver(c, s, i);
    ForeignEffect(c, s, i);
    NodeInOrder(c, s, m.to);
    UntouchedGrows(c, s, m.to, Reaction(c, s, i), Without(s.wire, i), m.from);
    UntouchedKeepsNode(c, s, m.to, Reaction(c, s, i), Without(s.wire, i), m.from);
    forall f | f in Emit(c, m.to, Reaction(c, s, i).out)
      ensures MsgOk(c, s', f) && !IsOwn(c, f)
    {
      ForeignIsOk(c, s', m.to, Reaction(c, s, i).out, f);
    }
    FineKeepsInv(c, s, i);
  }

  ghost predicate ReplyNext(c: Config, s: State, i: nat) {
    Inv(c, s) && Enabled(c, s, i) && s.wire[i].packet.RrepPacket? && s.wire[i].packet.rrep.origIp == c.orig
  }

  /** A reply opens the route of its addressee, and leaves its reverse route alone. */
  lemma ReplyIsHeard(c: Config, s: State, i: nat)
    requires GoodNet(c) && ReplyNext(c, s, i)
    ensures var m, n := s.wire[i], s.nodes[s.wire[i].to];
            var n1 := n.(table := UpdateFromRrep(n.table, m.packet.rrep, m.from));
            && m.packet.rrep.destIp == c.dest && ReplyOk(c, s, m.to) && m.from in c.topo[m.to] && NodeOk(c, s, m.to)
            && Untouched(c, n, n1, m.from) && Active(n1.table, c.dest)
  {
    var m := s.wire[i];
    MsgInOrder(c, s, m);
    assert IsLink(c, m.from, m.to);
    NodeInOrder(c, s, m.to);
    HearEffect(c, s.nodes[m.to], m.packet.rrep, m.from);
  }

  lemma RelayReaction(c: Config, s: State, i: nat)
    requires GoodNet(c) && ReplyNext(c, s, i) && s.wire[i].to != c.orig
    ensures var m, n, r := s.wire[i], s.nodes[s.wire[i].to], Reaction(c, s, i);
            && r.node == n.(table := UpdateFromRrep(n.table, m.packet.rrep, m.from))
            && r.out == SendRrep(r.node, m.packet.rrep.(hopCount := Inc8(m.packet.rrep.hopCount)))
  {
    MsgInOrder(c, s, s.wire[i]);
    NodeInOrder(c, s, s.wire[i].to);
    RelayEffect(c, s.nodes[s.wire[i].to], s.wire[i].packet.rrep, s.wire[i].from);
  }

  lemma ArrivalReaction(c: Config, s: State, i: nat)
    requires GoodNet(c) && ReplyNext(c, s, i) && s.wire[i].to == c.orig
    ensures var m, n, r := s.wire[i], s.nodes[s.wire[i].to], Reaction(c, s, i);
            var n1 := n.(table := UpdateFromRrep(n.table, m.packet.rrep, m.from));
            && r == Result(n1.(pending := n.pending - {c.dest}), Drained(n1, c.dest))
            && SendsForeign(c, r.out)
  {
    var m := s.wire[i];
    var n := s.nodes[m.to];
    ReplyIsHeard(c, s, i);
    ArrivalEffect(c, n, m.packet.rrep, m.from);
    DrainedIsForeign(c, n.(table := UpdateFromRrep(n.table, m.packet.rrep, m.from)));
  }

  /** Delivering a reply opens a route and shortens nothing. */
  lemma ReplyGrows(c: Config, s: State, i: nat)
    requires GoodNet(c) && ReplyNext(c, s, i)
    ensures var v, s' := s.wire[i].to, Deliver(c, s, i);
            && Grows(c, s, s') && NodeOk(c, s', v) && Routed(c, s', v) && ReplyOk(c, s, v)
            && BackHop(c, s', v) == BackHop(c, s, v) && Back(c, s', v) == Back(c, s, v)
  {
    var m, r := s.wire[i], Reaction(c, s, i);
    ReplyIsHeard(c, s, i);
    if m.to == c.orig { ArrivalReaction(c, s, i); } else { RelayReaction(c, s, i); }
    UntouchedGrows(c, s, m.to, r, Without(s.wire, i), m.from);
    UntouchedKeepsNode(c, s, m.to, r, Without(s.wire, i), m.from);
  }

  /** Away from the originator, a reply is passed on to a neighbour that stores a
      strictly smaller distance. */
  lemma RelayEmits(c: Config, s: State, i: nat)
    requires GoodNet(c) && ReplyNext(c, s, i) && s.wire[i].to != c.orig
    ensures var v, u, s' := s.wire[i].to, BackHop(c, s, s.wire[i].to), Deliver(c, s, i);
            var p := s.wire[i].packet.rrep;
            && Reaction(c, s, i).out == [Send(u, RrepPacket(p.(hopCount := Inc8(p.hopCount))))]
            && Emit(c, v, Reaction(c, s, i).out) == [Msg(u, v, RrepPacket(p.(hopCount := Inc8(p.hopCount))))]
            && u in c.topo[v] && ReplyOk(c, s', u) && Back(c, s', u) < Back(c, s, v)
  {
    ReplyGrows(c, s, i);
    RelayReaction(c, s, i);
    var p := s.wire[i].packet.rrep;
    ReplyGoesBack(c, Deliver(c, s, i), s.wire[i].to, p.(hopCount := Inc8(p.hopCount)));
  }

  lemma RelayKeepsInv(c: Config, s: State, i: nat)
    requires GoodNet(c) && ReplyNext(c, s, i) && s.wire[i].to != c.orig
    ensures Inv(c, Deliver(c, s, i))
  {
    ReplyGrows(c, s, i);
    RelayEmits(c, s, i);
    MsgInOrder(c, s, s.wire[i]);
    FineKeepsInv(c, s, i);
  }

  lemma ArrivalKeepsInv(c: Config, s: State, i: nat)
    requires GoodNet(c) && ReplyNext(c, s, i) && s.wire[i].to == c.orig
    ensures Inv(c, Deliver(c, s, i))
    ensures forall m :: m in Emit(c, s.wire[i].to, Reaction(c, s, i).out) ==> !IsOwn(c, m)
  {
    ReplyGrows(c, s, i);
    ArrivalReaction(c, s, i);
    forall f | f in Emit(c, c.orig, Reaction(c, s, i).out)
      ensures MsgOk(c, Deliver(c, s, i), f) && !IsOwn(c, f)
    {
      ForeignIsOk(c, Deliver(c, s, i), c.orig, Reaction(c, s, i).out, f);
    }
    FineKeepsInv(c, s, i);
  }

  // ----- Every step

  lemma WireIsEnabled(c: Config, s: State, i: nat)
    requires GoodNet(c) && Inv(c, s) && i < |s.wire|
    ensures Enabled(c, s, i) && (IsOwn(c, s.wire[i]) ==> RequestNext(c, s, i) || ReplyNext(c, s, i))
  {
    MsgInOrder(c, s, s.wire[i]);
    assert IsLink(c, s.wire[i].from, s.wire[i].to);
  }

  /** Any message in flight can be delivered next, and delivering it keeps the invariant
      and loses no route. */
  lemma DeliverKeepsInv(c: Config, s: State, i: nat)
    requires GoodConfig(c) && Inv(c, s) && i < |s.wire|
    ensures Enabled(c, s, i) && Inv(c, Deliver(c, s, i)) && Grows(c, s, Deliver(c, s, i))
  {
    WireIsEnabled(c, s, i);
    if !IsOwn(c, s.wire[i]) {
      ForeignKeepsInv(c, s, i);
    } else if s.wire[i].packet.RrepPacket? {
      ReplyGrows(c, s, i);
      if s.wire[i].to == c.orig { ArrivalKeepsInv(c, s, i); } else { RelayKeepsInv(c, s, i); }
    } else if !News(c, s, i) {
      DuplicateKeepsInv(c, s, i);
    } else {
      NewsGrows(c, s, i);
      if Answers(c, s.nodes[s.wire[i].to]) { AnswerKeepsInv(c, s, i); } else { ForwardKeepsInv(c, s, i); }
    }
  }

  lemma SameTablesGrow(c: Config, s: State, s': State)
    requires s'.nodes == s.nodes && s'.level == s.level
    ensures Grows(c, s, s')
  {
  }

  lemma LoseKeepsInv(c: Config, s: State, i: nat)
    requires Inv(c, s) && i < |s.wire|
    ensures Inv(c, Lose(s, i)) && Grows(c, s, Lose(s, i))
  {
    var s' := Lose(s, i);
    SameTablesGrow(c, s, s');
    forall v | v in c.topo
      ensures NodeOk(c, s', v)
    {
      NodeInOrder(c, s, v);
      NodeGrows(c, s, s', v);
    }
    forall m | m in s'.wire
      ensures MsgOk(c, s', m)
    {
      InWithout(s.wire, i, m);
      MsgInOrder(c, s, m);
      MsgGrows(c, s, s', m);
    }
  }

  lemma NextKeepsInv(c: Config, s: State, ch: Choice)
    requires GoodConfig(c) && Inv(c, s)
    ensures Inv(c, Next(c, s, ch)) && Grows(c, s, Next(c, s, ch))
  {
    if s.wire == [] {
      SameTablesGrow(c, s, s);
    } else {
      var i := ch.which % |s.wire|;
      if ch.lost || !Enabled(c, s, i) { LoseKeepsInv(c, s, i); } else { DeliverKeepsInv(c, s, i); }
    }
  }

  // ----- Runs

  /** The start: the request is on its way to every neighbour of the originator. */
  lemma BeginSends(c: Config, nodes: map<Ip, Node>)
    requires Asks(c, nodes)
    ensures var s := Begin(c, nodes);
            && s.wire == Spread(c.orig, c.topo[c.orig], Request(c, 0)) && s.handed == [] && s.level == map[]
            && HeldFor(s.nodes[c.orig], c.dest) == [Buffered(c.port, c.payload)]
            && s.nodes == nodes[c.orig := s.nodes[c.orig]]
            && s.nodes[c.orig] ==
               nodes[c.orig].(seqNum := c.seqNum, rreqId := c.rreqId, pending := s.nodes[c.orig].pending)
  {
    assert StartsWell(c, nodes[c.orig], c.orig);
    InEmit(c, c.orig, Send(BROADCAST, Request(c, 0)));
  }

  lemma BeginNodeOk(c: Config, nodes: map<Ip, Node>, v: Ip)
    requires Asks(c, nodes) && v in c.topo
    ensures NodeOk(c, Begin(c, nodes), v)
  {
    BeginSends(c, nodes);
    assert StartsWell(c, nodes[v], v);
  }

  lemma BeginMsgOk(c: Config, nodes: map<Ip, Node>, m: Msg)
    requires Asks(c, nodes) && m in Begin(c, nodes).wire
    ensures MsgOk(c, Begin(c, nodes), m)
  {
    var s := Begin(c, nodes);
    BeginSends(c, nodes);
    var i :| 0 <= i < |s.wire| && s.wire[i] == m;
    BeginTrail(c, s);
  }

  /** The originator alone is the trail its own request has come along. */
  lemma BeginTrail(c: Config, s: State)
    requires Relays(c, c.orig) && Back(c, s, c.orig) == 0
    ensures RequestOk(c, s, c.orig, 0)
  {
    var p := [c.orig];
    assert Trail(c, p) && |p| == 1 && p[0] == c.orig;
    assert Climbs(c, s, p);
  }

  lemma BeginKeepsInv(c: Config, nodes: map<Ip, Node>)
    requires Asks(c, nodes)
    ensures Inv(c, Begin(c, nodes))
  {
    BeginSends(c, nodes);
    forall v | v in c.topo
      ensures NodeOk(c, Begin(c, nodes), v)
    {
      BeginNodeOk(c, nodes, v);
    }
    forall m | m in Begin(c, nodes).wire
      ensures MsgOk(c, Begin(c, nodes), m)
    {
      BeginMsgOk(c, nodes, m);
    }
  }

  lemma StepKeepsInv(c: Config, tr: Trace, sched: Schedule, t: nat)
    requires GoodConfig(c) && IsTrace(c, tr, sched) && Inv(c, tr(t))
    ensures Inv(c, tr(t + 1)) && Grows(c, tr(t), tr(t + 1))
  {
    assert StepsAt(c, tr, sched, t);
    NextKeepsInv(c, tr(t), sched(t));
  }

  /** The invariant holds in every state of every run. */
  lemma {:induction false} RunKeepsInv(c: Config, tr: Trace, sched: Schedule, t: nat)
    requires GoodConfig(c) && IsTrace(c, tr, sched) && Inv(c, tr(0))
    ensures Inv(c, tr(t))
  {
    if t > 0 {
      RunKeepsInv(c, tr, sched, t - 1);
      StepKeepsInv(c, tr, sched, t - 1);
    }
  }

  /** A run of a discovery on a network where no hop count can wrap. */
  ghost predicate Discovers(c: Config, nodes: map<Ip, Node>, tr: Trace, sched: Schedule) {
    Asks(c, nodes) && NoLongTrail(c) && IsTrace(c, tr, sched) && tr(0) == Begin(c, nodes)
  }

  lemma DiscoveryKeepsInv(c: Config, nodes: map<Ip, Node>, tr: Trace, sched: Schedule, t: nat)
    requires Discovers(c, nodes, tr, sched)
    ensures Inv(c, tr(t))
  {
    BeginKeepsInv(c, nodes);
    RunKeepsInv(c, tr, sched, t);
  }

  /** At every moment of every discovery, whatever routes were known before, a node that
      has heard the request points back to a neighbour that has heard it too and stores
      strictly fewer hops. */
  lemma BackHopsDescend(c: Config, nodes: map<Ip, Node>, tr: Trace, sched: Schedule, t: nat, v: Ip)
    requires Discovers(c, nodes, tr, sched) && v in c.topo && v != c.orig && Stored(c, tr(t), v)
    ensures BackHop(c, tr(t), v) in c.topo[v] && Stored(c, tr(t), BackHop(c, tr(t), v))
    ensures Back(c, tr(t), BackHop(c, tr(t), v)) < Back(c, tr(t), v)
  {
    DiscoveryKeepsInv(c, nodes, tr, sched, t);
    NodeInOrder(c, tr(t), v);
  }
}
