/** Routes under any number of concurrent discoveries, with loss, duplication, reordering,
    link changes and route errors: when next hops descend, and how they can loop. */
module ConcurrentRoutes {
  import opened Packets
  import opened RoutingTable
  import opened NodeSpec
  import opened Network

  // ----- Runs in which messages carry their real sender

  ghost predicate InFlight(wire: seq<Msg>, from: Ip, p: Packet) {
    exists m :: m in wire && m.from == from && m.packet == p
  }

  ghost predicate HonestStep(s: Net, v: Ip, input: Input, s': Net) {
    && v in s.nodes
    && (input.Incoming? ==> InFlight(s.wire, input.source, input.packet))
    && s'.nodes == s.nodes[v := React(s.nodes[v], input).node]
    && forall m :: m in s'.wire ==> m in s.wire || (m.from == v && Sent(React(s.nodes[v], input).out, m.packet))
  }

  ghost predicate IsHonestRun(states: seq<Net>, moves: seq<Move>) {
    && |states| == |moves| + 1
    && forall i {:trigger moves[i]} :: 0 <= i < |moves| ==>
         HonestStep(states[i], moves[i].actor, moves[i].input, states[i + 1])
  }

  // ----- The order

  /** A newer number, or the same number and fewer hops. */
  predicate Better(n: int, h: int, n': int, h': int) { n > n' || (n == n' && h < h') }

  /** The entry for `x` is at least as good as the number and hop count given. */
  predicate Holds(t: Table, x: Ip, n: int, h: int) {
    x in t && (Better(SeqOf(t, x), HopsOf(t, x), n, h) || (SeqOf(t, x) == n && HopsOf(t, x) == h))
  }

  predicate SameNumbers(t: Table, t': Table, x: Ip) {
    (x in t <==> x in t') && SeqOf(t', x) == SeqOf(t, x) && HopsOf(t', x) == HopsOf(t, x)
  }

  /** What a message says about `x` its sender `v` knows at least as well itself. */
  predicate PacketFits(v: Ip, t: Table, x: Ip, p: Packet) {
    v == x
    || match p
       case RreqPacket(q) => q.origIp == x ==> Holds(t, x, q.origSeq, q.hopCount)
       case RrepPacket(r) => r.destIp == x ==> Holds(t, x, r.destSeq, r.hopCount)
       case RerrPacket(_) => true
       case DataPacket(_, _) => true
  }

  // ----- The guards

  /** The request does not replace a route to `x` by an older, shorter one, and neither of
      its numbers has wrapped. */
  predicate RequestGuard(n: Node, q: Rreq, x: Ip) {
    q.origIp == x ==>
      && q.hopCount < 255 && q.origSeq > 0
      && (IsDuplicate(n, q) || !(q.origSeq < SeqOf(n.table, x) && q.hopCount + 1 < HopsOf(n.table, x)))
  }

  /** The reply does not replace a route to `x`, active or not, by one that is no better,
      and its hop count does not wrap. */
  predicate ReplyGuard(n: Node, p: Rrep, x: Ip) {
    p.destIp == x ==>
      && p.hopCount < 255
      && (RrepImproves(n.table, p) && x in n.table ==>
            Better(p.destSeq, p.hopCount, SeqOf(n.table, x), HopsOf(n.table, x)))
  }

  predicate Guard(n: Node, input: Input, x: Ip) {
    match input
    case Incoming(RreqPacket(q), _) => RequestGuard(n, q, x)
    case Incoming(RrepPacket(p), _) => ReplyGuard(n, p, x)
    case _ => true
  }

  // ----- One node

  /** What one input may do to a node's entry for `x`: nothing to its numbers and next hop,
      or a one-hop route, or numbers strictly better and the sender as next hop. */
  ghost predicate EntryStep(t: Table, t': Table, x: Ip, input: Input) {
    || (SameNumbers(t, t', x) && NextHop(t', x) == NextHop(t, x))
    || (x in t' && NextHop(t', x) == x && (SameNumbers(t, t', x) || x !in t))
    || (input.Incoming? && Learnt(t', x, input.packet) && NextHop(t', x) == input.source
        && (x in t ==> Better(SeqOf(t', x), HopsOf(t', x), SeqOf(t, x), HopsOf(t, x))))
  }

  /** The entry for `x` is what this packet says. */
  predicate Learnt(t: Table, x: Ip, p: Packet) {
    x in t
    && match p
       case RreqPacket(q) => q.origIp == x && SeqOf(t, x) == q.origSeq && HopsOf(t, x) == q.hopCount + 1
       case RrepPacket(r) => r.destIp == x && SeqOf(t, x) == r.destSeq && HopsOf(t, x) == r.hopCount
       case RerrPacket(_) => false
       case DataPacket(_, _) => false
  }

  ghost predicate OutputsFit(n: Node, x: Ip, out: seq<Output>) {
    forall i :: 0 <= i < |out| && out[i].Send? ==> PacketFits(n.ip, n.table, x, out[i].packet)
  }

  ghost predicate ReactFits(n: Node, x: Ip, input: Input, r: Result) {
    r.node.ip == n.ip && EntryStep(n.table, r.node.table, x, input) && OutputsFit(r.node, x, r.out)
  }

  lemma LearnFits(n: Node, q: Rreq, source: Ip, x: Ip)
    requires RequestGuard(n, q, x) && !IsDuplicate(n, q)
    ensures var n' := LearnReverse(RememberId(n, q), q, source);
            && EntryStep(n.table, n'.table, x, Incoming(RreqPacket(q), source))
            && (q.origIp == x ==> q.hopCount < 255 && Holds(n'.table, x, q.origSeq, q.hopCount + 1))
  {
  }

  lemma RequestFits(n: Node, q: Rreq, source: Ip, x: Ip)
    requires RequestGuard(n, q, x)
    ensures ReactFits(n, x, Incoming(RreqPacket(q), source), HandleRreq(n, q, source))
  {
    if !IsDuplicate(n, q) {
      LearnFits(n, q, source, x);
      var n1 := RememberId(n, q);
      if ShouldGenerateRrep(n1, q) {
        var (n2, p) := CreateRrep(n1, q, source);
        assert n2.table == LearnReverse(n1, q, source).table;
        assert HandleRreq(n, q, source) == Result(n2, SendRrep(n2, p));
      }
    }
  }

  lemma DiscoverFits(n: Node, dest: Ip, x: Ip)
    ensures OutputsFit(Discover(n, dest).node, x, Discover(n, dest).out)
    ensures Discover(n, dest).node.table == n.table && Discover(n, dest).node.ip == n.ip
  {
  }

  lemma SendFits(n: Node, port: int, payload: seq<U8>, dest: Ip, origin: Ip, x: Ip)
    ensures var r := SendPacket(n, port, payload, dest, origin);
            && OutputsFit(r.node, x, r.out) && r.node.ip == n.ip
            && SameNumbers(n.table, r.node.table, x) && NextHop(r.node.table, x) == NextHop(n.table, x)
  {
    if dest != BROADCAST && !Active(n.table, dest) {
      DiscoverFits(Hold(n, dest, Buffered(port, payload)), dest, x);
    } else {
      DiscoverFits(n, dest, x);
    }
  }

  lemma HearFits(n: Node, p: Rrep, source: Ip, x: Ip)
    requires ReplyGuard(n, p, x)
    ensures var t' := UpdateFromRrep(n.table, p, source);
            && EntryStep(n.table, t', x, Incoming(RrepPacket(p), source))
            && (p.destIp == x ==> p.hopCount < 255 && Holds(t', x, p.destSeq, p.hopCount + 1))
  {
  }

  lemma ReplyFits(n: Node, p: Rrep, source: Ip, x: Ip)
    requires ReplyGuard(n, p, x)
    ensures ReactFits(n, x, Incoming(RrepPacket(p), source), HandleRrep(n, p, source))
  {
    var n1 := n.(table := UpdateFromRrep(n.table, p, source));
    HearFits(n, p, source, x);
    if n.ip != p.origIp {
      SecondUpdateNeverFires(n, p, source);
    } else if p.destIp in n1.pending && n1.pending[p.destIp] != [] {
      DrainOne(n1, p.destIp);
      var b := n1.pending[p.destIp][0];
      SendFits(n1.(pending := n1.pending[p.destIp := []]), b.port, b.payload, p.destIp, BROADCAST, x);
    }
  }

  lemma ErrorFits(n: Node, e: Rerr, source: Ip, x: Ip)
    ensures ReactFits(n, x, Incoming(RerrPacket(e), source), HandleRerr(n, e))
  {
    DiscoverFits(n.(table := Deactivate(n.table, e.unreachableIp)), e.unreachableIp, x);
  }

  lemma InputFits(n: Node, input: Input, x: Ip)
    requires Guard(n, input, x)
    ensures ReactFits(n, x, input, React(n, input))
  {
    match input
    case Originate(port, payload, dest, origin) => SendFits(n, port, payload, dest, origin, x);
    case LinkUp(_) =>
    case LinksReset =>
    case Incoming(packet, source) =>
      match packet {
        case RreqPacket(q) => RequestFits(n, q, source, x);
        case RrepPacket(p) => ReplyFits(n, p, source, x);
        case RerrPacket(e) => ErrorFits(n, e, source, x);
        case DataPacket(port, f) => SendFits(n, port, FramePayload(f), FrameDest(f), FrameOrig(f), x);
      }
  }

  // ----- The network

  /** When each node's numbers for `x` were last written. */
  type EntryAges = Ip -> nat

  /** `w` has better numbers for `x` than `v`, or, where ties are allowed, the same ones
      and had them first. */
  predicate Fresher(s: Net, age: EntryAges, x: Ip, ties: bool, w: Ip, v: Ip) {
    && w in s.nodes && v in s.nodes && x in s.nodes[w].table && x in s.nodes[v].table
    && var tw, tv := s.nodes[w].table, s.nodes[v].table;
       || Better(SeqOf(tw, x), HopsOf(tw, x), SeqOf(tv, x), HopsOf(tv, x))
       || (ties && SeqOf(tw, x) == SeqOf(tv, x) && HopsOf(tw, x) == HopsOf(tv, x) && age(w) < age(v))
  }

  /** Where `v` has an entry for `x`, its next hop is `x` itself or nearer to it. */
  predicate Descends(s: Net, age: EntryAges, x: Ip, ties: bool, v: Ip) {
    v in s.nodes && v != x && x in s.nodes[v].table ==>
      NextHop(s.nodes[v].table, x) == x || Fresher(s, age, x, ties, NextHop(s.nodes[v].table, x), v)
  }

  predicate MsgFits(s: Net, x: Ip, m: Msg) {
    m.from in s.nodes && PacketFits(m.from, s.nodes[m.from].table, x, m.packet)
  }

  ghost predicate InOrder(s: Net, age: EntryAges, clock: nat, x: Ip, ties: bool) {
    && (forall v {:trigger s.nodes[v]} :: v in s.nodes ==> s.nodes[v].ip == v)
    && (forall v {:trigger age(v)} :: age(v) <= clock)
    && (forall v {:trigger Descends(s, age, x, ties, v)} :: Descends(s, age, x, ties, v))
    && (forall m {:trigger MsgFits(s, x, m)} :: m in s.wire ==> MsgFits(s, x, m))
  }

  /** EntryAges after a step of `v`: its own is the present if its numbers changed. */
  function AgesAfter(s: Net, s': Net, x: Ip, v: Ip, age: EntryAges, clock: nat): EntryAges {
    (u: Ip) => if u == v && v in s.nodes && v in s'.nodes && !SameNumbers(s.nodes[v].table, s'.nodes[v].table, x)
               then clock + 1 else age(u)
  }

  /** Entries stay or get better, and an entry that stays keeps its age. */
  ghost predicate Improves(s: Net, s': Net, age: EntryAges, age': EntryAges, x: Ip) {
    s'.nodes.Keys == s.nodes.Keys
    && forall u {:trigger s'.nodes[u]} :: u in s.nodes && x in s.nodes[u].table ==>
         && x in s'.nodes[u].table
         && var t, t' := s.nodes[u].table, s'.nodes[u].table;
            || (SameNumbers(t, t', x) && age'(u) == age(u))
            || Better(SeqOf(t', x), HopsOf(t', x), SeqOf(t, x), HopsOf(t, x))
  }

  lemma StepImproves(s: Net, v: Ip, input: Input, s': Net, age: EntryAges, clock: nat, x: Ip)
    requires HonestStep(s, v, input, s') && EntryStep(s.nodes[v].table, s'.nodes[v].table, x, input)
    ensures Improves(s, s', age, AgesAfter(s, s', x, v, age, clock), x)
  {
  }

  lemma FresherStays(s: Net, s': Net, age: EntryAges, age': EntryAges, x: Ip, ties: bool, w: Ip, v: Ip)
    requires Improves(s, s', age, age', x) && Fresher(s, age, x, ties, w, v)
    requires v in s'.nodes && SameNumbers(s.nodes[v].table, s'.nodes[v].table, x) && age'(v) == age(v)
    ensures Fresher(s', age', x, ties, w, v)
  {
  }

  lemma MsgStays(s: Net, s': Net, age: EntryAges, age': EntryAges, x: Ip, m: Msg)
    requires Improves(s, s', age, age', x) && MsgFits(s, x, m)
    ensures MsgFits(s', x, m)
  {
  }

  /** The node that learnt a route from a message is further than the message's sender. */
  lemma LearntIsFurther(s: Net, v: Ip, input: Input, s': Net, age: EntryAges, clock: nat, x: Ip, ties: bool)
    requires HonestStep(s, v, input, s') && InOrder(s, age, clock, x, ties) && input.Incoming? && v != x
    requires !ties ==> !(input.packet.RrepPacket? && input.packet.rrep.destIp == x)
    requires Learnt(s'.nodes[v].table, x, input.packet)
    requires x in s.nodes[v].table ==>
               Better(SeqOf(s'.nodes[v].table, x), HopsOf(s'.nodes[v].table, x),
                      SeqOf(s.nodes[v].table, x), HopsOf(s.nodes[v].table, x))
    ensures input.source == x || Fresher(s', AgesAfter(s, s', x, v, age, clock), x, ties, input.source, v)
  {
    var m :| m in s.wire && m.from == input.source && m.packet == input.packet;
    assert MsgFits(s, x, m);
    assert age(input.source) <= clock;
  }

  lemma ActorDescends(s: Net, v: Ip, input: Input, s': Net, age: EntryAges, clock: nat, x: Ip, ties: bool)
    requires HonestStep(s, v, input, s') && InOrder(s, age, clock, x, ties)
    requires !ties ==> !(input.Incoming? && input.packet.RrepPacket? && input.packet.rrep.destIp == x)
    requires EntryStep(s.nodes[v].table, s'.nodes[v].table, x, input)
    ensures Descends(s', AgesAfter(s, s', x, v, age, clock), x, ties, v)
  {
    var age' := AgesAfter(s, s', x, v, age, clock);
    var t, t' := s.nodes[v].table, s'.nodes[v].table;
    StepImproves(s, v, input, s', age, clock, x);
    if v != x && x in t' && NextHop(t', x) != x {
      if SameNumbers(t, t', x) && NextHop(t', x) == NextHop(t, x) {
        assert Descends(s, age, x, ties, v);
        FresherStays(s, s', age, age', x, ties, NextHop(t, x), v);
      } else {
        LearntIsFurther(s, v, input, s', age, clock, x, ties);
      }
    }
  }

  lemma OthersDescend(s: Net, v: Ip, input: Input, s': Net, age: EntryAges, clock: nat, x: Ip, ties: bool, u: Ip)
    requires HonestStep(s, v, input, s') && InOrder(s, age, clock, x, ties) && u != v
    requires EntryStep(s.nodes[v].table, s'.nodes[v].table, x, input)
    ensures Descends(s', AgesAfter(s, s', x, v, age, clock), x, ties, u)
  {
    var age' := AgesAfter(s, s', x, v, age, clock);
    StepImproves(s, v, input, s', age, clock, x);
    assert Descends(s, age, x, ties, u);
    if u in s.nodes && u != x && x in s.nodes[u].table && NextHop(s.nodes[u].table, x) != x {
      FresherStays(s, s', age, age', x, ties, NextHop(s.nodes[u].table, x), u);
    }
  }

  /** A guarded step keeps every next hop descending and every message true. */
  lemma StepKeepsOrder(s: Net, v: Ip, input: Input, s': Net, age: EntryAges, clock: nat, x: Ip, ties: bool)
    requires HonestStep(s, v, input, s') && InOrder(s, age, clock, x, ties) && Guard(s.nodes[v], input, x)
    requires !ties ==> !(input.Incoming? && input.packet.RrepPacket? && input.packet.rrep.destIp == x)
    ensures InOrder(s', AgesAfter(s, s', x, v, age, clock), clock + 1, x, ties)
  {
    var age' := AgesAfter(s, s', x, v, age, clock);
    assert s.nodes[v].ip == v;
    InputFits(s.nodes[v], input, x);
    StepImproves(s, v, input, s', age, clock, x);
    forall u
      ensures Descends(s', age', x, ties, u)
    {
      if u == v { ActorDescends(s, v, input, s', age, clock, x, ties); }
      else { OthersDescend(s, v, input, s', age, clock, x, ties, u); }
    }
    forall m | m in s'.wire
      ensures MsgFits(s', x, m)
    {
      if m in s.wire { MsgStays(s, s', age, age', x, m); }
    }
    forall u
      ensures age'(u) <= clock + 1
    {
      assert age(u) <= clock;
    }
  }

  // ----- Runs

  /** The ages at step `k` of a run. */
  function AgesAt(states: seq<Net>, moves: seq<Move>, x: Ip, k: nat): EntryAges
    requires k < |states| && |states| == |moves| + 1
  {
    if k == 0 then (u: Ip) => 0
    else AgesAfter(states[k - 1], states[k], x, moves[k - 1].actor, AgesAt(states, moves, x, k - 1), k - 1)
  }

  /** A run in which no guard for `x` fails; where ties are ruled out, nobody is told of a
      route to `x` by a reply. */
  ghost predicate Guarded(states: seq<Net>, moves: seq<Move>, x: Ip, ties: bool) {
    && IsHonestRun(states, moves)
    && (forall v {:trigger states[0].nodes[v]} :: v in states[0].nodes ==>
          states[0].nodes[v].ip == v && x !in states[0].nodes[v].table)
    && states[0].wire == []
    && forall i {:trigger moves[i]} :: 0 <= i < |moves| ==>
         && moves[i].actor in states[i].nodes && Guard(states[i].nodes[moves[i].actor], moves[i].input, x)
         && (!ties ==>
               !(&& moves[i].input.Incoming? && moves[i].input.packet.RrepPacket?
                 && moves[i].input.packet.rrep.destIp == x))
  }

  lemma {:induction false} RunKeepsOrder(states: seq<Net>, moves: seq<Move>, x: Ip, ties: bool, k: nat)
    requires Guarded(states, moves, x, ties) && k < |states|
    ensures InOrder(states[k], AgesAt(states, moves, x, k), k, x, ties)
  {
    if k > 0 {
      RunKeepsOrder(states, moves, x, ties, k - 1);
      var mv := moves[k - 1];
      StepKeepsOrder(states[k - 1], mv.actor, mv.input, states[k], AgesAt(states, moves, x, k - 1), k - 1, x, ties);
    }
  }

  /** In every run of any number of discoveries, with loss, duplication, reordering, link
      changes and route errors, as long as no step replaces a route to `x` by one that is
      no better: each next hop towards `x` is `x` or strictly better in number, hop count
      and age. */
  lemma RoutesDescend(states: seq<Net>, moves: seq<Move>, x: Ip, k: nat, v: Ip)
    requires Guarded(states, moves, x, true) && k < |states|
    ensures Descends(states[k], AgesAt(states, moves, x, k), x, true, v)
  {
    RunKeepsOrder(states, moves, x, true, k);
  }

  /** If besides nobody hears of `x` by a reply, as when `x` only asks, next hops back to
      `x` are strictly better in number and hop count alone. */
  lemma ReverseRoutesDescend(states: seq<Net>, moves: seq<Move>, x: Ip, k: nat, v: Ip)
    requires Guarded(states, moves, x, false) && k < |states| && v in states[k].nodes && v != x
             && x in states[k].nodes[v].table
    ensures var t, w := states[k].nodes[v].table, NextHop(states[k].nodes[v].table, x);
            w == x || (w in states[k].nodes && x in states[k].nodes[w].table
                       && Better(SeqOf(states[k].nodes[w].table, x), HopsOf(states[k].nodes[w].table, x),
                                 SeqOf(t, x), HopsOf(t, x)))
  {
    RunKeepsOrder(states, moves, x, false, k);
    assert Descends(states[k], AgesAt(states, moves, x, k), x, false, v);
  }

  /** A chain of next hops towards `x`, over any entries, active or not. */
  ghost predicate HopsAlong(s: Net, x: Ip, r: seq<Ip>) {
    r != [] && forall i {:trigger r[i]} :: 0 <= i < |r| - 1 ==> Points(s, x, r[i], r[i + 1])
  }

  predicate Points(s: Net, x: Ip, v: Ip, w: Ip) {
    v in s.nodes && v != x && x in s.nodes[v].table && NextHop(s.nodes[v].table, x) == w
  }

  lemma {:induction false} ChainDescends(s: Net, age: EntryAges, clock: nat, x: Ip, r: seq<Ip>)
    requires InOrder(s, age, clock, x, true) && HopsAlong(s, x, r) && |r| > 1
    ensures r[|r| - 1] == x || Fresher(s, age, x, true, r[|r| - 1], r[0])
  {
    var last := |r| - 2;
    assert Points(s, x, r[last], r[last + 1]) && Descends(s, age, x, true, r[last]);
    if |r| > 2 {
      var q := r[..|r| - 1];
      forall i {:trigger q[i]} | 0 <= i < |q| - 1
        ensures Points(s, x, q[i], q[i + 1])
      {
        assert q[i] == r[i] && q[i + 1] == r[i + 1];
      }
      ChainDescends(s, age, clock, x, q);
    }
  }

  /** So in such runs next hops never run in a circle. */
  lemma RoutesNeverLoop(states: seq<Net>, moves: seq<Move>, x: Ip, k: nat, r: seq<Ip>)
    requires Guarded(states, moves, x, true) && k < |states| && HopsAlong(states[k], x, r) && |r| > 1
    ensures r[|r| - 1] != r[0]
  {
    RunKeepsOrder(states, moves, x, true, k);
    ChainDescends(states[k], AgesAt(states, moves, x, k), k, x, r);
    assert Points(states[k], x, r[0], r[1]);
  }
}
