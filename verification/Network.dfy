/** Any number of AODV nodes, under any loss, duplication, reordering, link changes
    and concurrent discoveries: what every run keeps. */
module Network {
  import opened Packets
  import opened RoutingTable
  import opened NodeSpec
  import RreqIds

  // ----- One node's inputs

  datatype Input =
    | Incoming(packet: Packet, source: Ip)
    | Originate(port: int, payload: seq<U8>, dest: Ip, origin: Ip)
    | LinkUp(neighbor: Ip)
    | LinksReset

  function React(n: Node, input: Input): Result {
    match input
    case Incoming(packet, source) => Receive(n, packet, source)
    case Originate(port, payload, dest, origin) => SendPacket(n, port, payload, dest, origin)
    case LinkUp(x) => Result(AddLink(n, x), [])
    case LinksReset => Result(ResetLinks(n), [])
  }

  function RunNode(n: Node, inputs: seq<Input>): Node {
    if inputs == [] then n else React(RunNode(n, inputs[..|inputs| - 1]), inputs[|inputs| - 1]).node
  }

  /** The ids of the requests from `orig` that a run accepted, in order, with repetitions. */
  function AcceptedIds(n: Node, inputs: seq<Input>, orig: Ip): seq<int> {
    if inputs == [] then []
    else
      var before, last := inputs[..|inputs| - 1], inputs[|inputs| - 1];
      AcceptedIds(n, before, orig)
      + if last.Incoming? && last.packet.RreqPacket? && last.packet.rreq.origIp == orig
           && !IsDuplicate(RunNode(n, before), last.packet.rreq)
        then [last.packet.rreq.rreqId] else []
  }

  lemma ReceiveRemembers(n: Node, packet: Packet, source: Ip)
    ensures Receive(n, packet, source).node.seen
         == if packet.RreqPacket? && !IsDuplicate(n, packet.rreq) then RememberId(n, packet.rreq).seen else n.seen
  {
    match packet
    case RreqPacket(q) => assert Receive(n, packet, source) == HandleRreq(n, q, source);
    case RrepPacket(p) => assert Receive(n, packet, source) == HandleRrep(n, p, source);
    case RerrPacket(e) => assert Receive(n, packet, source) == HandleRerr(n, e);
    case DataPacket(port, f) => assert Receive(n, packet, source) == HandleData(n, port, f, source);
  }

  lemma OnlyAcceptedRequestsAreRemembered(n: Node, input: Input, orig: Ip)
    ensures var n' := React(n, input).node;
            SeenFrom(n', orig) ==
            if && input.Incoming? && input.packet.RreqPacket? && input.packet.rreq.origIp == orig
               && !IsDuplicate(n, input.packet.rreq)
            then RreqIds.Remember(SeenFrom(n, orig), input.packet.rreq.rreqId)
            else SeenFrom(n, orig)
  {
    if input.Incoming? {
      ReceiveRemembers(n, input.packet, input.source);
    } else {
      assert React(n, input).node.seen == n.seen;
    }
  }

  /** In every run of a node, whatever it receives and sends, the ids it remembers
      for an originator are the 100 largest it ever accepted from it. */
  lemma {:induction false} SeenIsLargestAccepted(n: Node, inputs: seq<Input>, orig: Ip)
    requires n.seen == map[]
    ensures SeenFrom(RunNode(n, inputs), orig) == RreqIds.Remembered(AcceptedIds(n, inputs, orig))
    ensures RreqIds.Largest(SeenFrom(RunNode(n, inputs), orig), RreqIds.Ids(AcceptedIds(n, inputs, orig)), 100)
  {
    RreqIds.RememberedIsLargest(AcceptedIds(n, inputs, orig));
    if inputs != [] {
      var before, last := inputs[..|inputs| - 1], inputs[|inputs| - 1];
      SeenIsLargestAccepted(n, before, orig);
      OnlyAcceptedRequestsAreRemembered(RunNode(n, before), last, orig);
      var accepted := AcceptedIds(n, inputs, orig);
      if accepted != AcceptedIds(n, before, orig) {
        assert accepted[..|accepted| - 1] == AcceptedIds(n, before, orig);
      }
    }
  }

  // ----- The whole network

  datatype Msg = Msg(to: Ip, from: Ip, packet: Packet)

  datatype Net = Net(nodes: map<Ip, Node>, wire: seq<Msg>)

  /** Node `v` takes an input. A delivered packet must be in flight, but may stay in
      flight; afterwards the wire holds any selection, in any order and number, of
      what was in flight and what `v` sent, addressed to anyone. */
  ghost predicate Step(s: Net, v: Ip, input: Input, s': Net) {
    && v in s.nodes
    && (input.Incoming? ==> exists m :: m in s.wire && m.packet == input.packet)
    && s'.nodes == s.nodes[v := React(s.nodes[v], input).node]
    && forall m :: m in s'.wire ==> m in s.wire || Sent(React(s.nodes[v], input).out, m.packet)
  }

  ghost predicate Sent(out: seq<Output>, p: Packet) {
    exists i :: 0 <= i < |out| && out[i].Send? && out[i].packet == p
  }

  // ----- Sequence numbers

  /** Each node's own sequence number. */
  type Own = map<Ip, U32>

  function OwnOf(s: Net): Own { map v | v in s.nodes :: s.nodes[v].seqNum }

  predicate NumberBounded(own: Own, x: Ip, n: U32) { x in own ==> n <= own[x] }

  predicate PacketBounded(own: Own, p: Packet) {
    match p
    case RreqPacket(q) => NumberBounded(own, q.origIp, q.origSeq) && q.destSeq == 0
    case RrepPacket(p) => NumberBounded(own, p.destIp, p.destSeq)
    case RerrPacket(e) => NumberBounded(own, e.unreachableIp, e.unreachableSeq)
    case DataPacket(_, _) => true
  }

  ghost predicate TableBounded(own: Own, t: Table) { forall x :: x in own ==> SeqOf(t, x) <= own[x] }

  ghost predicate OutputBounded(own: Own, out: seq<Output>) {
    forall i :: 0 <= i < |out| && out[i].Send? ==> PacketBounded(own, out[i].packet)
  }

  /** Every number anybody holds or carries for a node is at most that node's own. */
  ghost predicate Bounded(s: Net) {
    && (forall v :: v in s.nodes ==> s.nodes[v].ip == v && TableBounded(OwnOf(s), s.nodes[v].table))
    && (forall m :: m in s.wire ==> PacketBounded(OwnOf(s), m.packet))
  }

  /** A pending queue holds at most one packet, so draining it sends once. */
  lemma DrainOne(n: Node, dest: Ip)
    requires Active(n.table, dest) || dest == BROADCAST
    requires dest in n.pending && n.pending[dest] != []
    ensures var n1 := n.(pending := n.pending[dest := []]);
            var r := SendPacket(n1, n.pending[dest][0].port, n.pending[dest][0].payload, dest, BROADCAST);
            Drain(n, dest) == Result(r.node.(pending := n.pending - {dest}), r.out)
  {
    var n1 := n.(pending := n.pending[dest := []]);
    assert n.pending[dest][1..] == [];
    var r := SendPacket(n1, n.pending[dest][0].port, n.pending[dest][0].payload, dest, BROADCAST);
    assert Drain(r.node, dest) == Result(r.node.(pending := r.node.pending - {dest}), []);
    assert r.out + [] == r.out;
    assert n1.pending - {dest} == n.pending - {dest};
  }

  // ----- When a node issues a number

  predicate SendIssues(n: Node, dest: Ip, origin: Ip) {
    dest != BROADCAST
    && (!Active(n.table, dest) || (!LinkExists(n, NextHop(n.table, dest)) && origin in {BROADCAST, n.ip}))
  }

  /** Does this input make the node take its next sequence number? It does for a request
      of its own, and for an answer to a request that carries its present number. */
  predicate IssuesNumber(n: Node, input: Input) {
    match input
    case Originate(_, _, dest, origin) => SendIssues(n, dest, origin)
    case LinkUp(_) => false
    case LinksReset => false
    case Incoming(packet, source) =>
      match packet {
        case RreqPacket(q) => !IsDuplicate(n, q) && q.destIp == n.ip && q.destSeq == n.seqNum
        case RrepPacket(p) =>
          && p.origIp == n.ip && HeldFor(n, p.destIp) != []
          && SendIssues(n.(table := UpdateFromRrep(n.table, p, source)), p.destIp, BROADCAST)
        case RerrPacket(e) => e.origIp == n.ip
        case DataPacket(port, f) =>
          port != ROUTING_PORT && FrameDest(f) !in {n.ip, BROADCAST} && SendIssues(n, FrameDest(f), FrameOrig(f))
      }
  }

  lemma SendMoves(n: Node, port: int, payload: seq<U8>, dest: Ip, origin: Ip)
    ensures SendPacket(n, port, payload, dest, origin).node.seqNum
         == if SendIssues(n, dest, origin) then Inc32(n.seqNum) else n.seqNum
  {
  }

  lemma ReplyMoves(n: Node, p: Rrep, source: Ip)
    ensures HandleRrep(n, p, source).node.seqNum
         == if IssuesNumber(n, Incoming(RrepPacket(p), source)) then Inc32(n.seqNum) else n.seqNum
  {
    var n1 := n.(table := UpdateFromRrep(n.table, p, source));
    if n.ip == p.origIp && HeldFor(n, p.destIp) != [] {
      DrainOne(n1, p.destIp);
      var b := n1.pending[p.destIp][0];
      SendMoves(n1.(pending := n1.pending[p.destIp := []]), b.port, b.payload, p.destIp, BROADCAST);
    }
  }

  lemma RequestMoves(n: Node, q: Rreq, source: Ip)
    ensures HandleRreq(n, q, source).node.seqNum
         == if IssuesNumber(n, Incoming(RreqPacket(q), source)) then Inc32(n.seqNum) else n.seqNum
  {
  }

  lemma ReceiveMoves(n: Node, packet: Packet, source: Ip)
    ensures Receive(n, packet, source).node.seqNum
         == if IssuesNumber(n, Incoming(packet, source)) then Inc32(n.seqNum) else n.seqNum
  {
    match packet
    case RreqPacket(q) => RequestMoves(n, q, source);
    case RrepPacket(p) => ReplyMoves(n, p, source);
    case RerrPacket(_) =>
    case DataPacket(port, f) => SendMoves(n, port, FramePayload(f), FrameDest(f), FrameOrig(f));
  }

  lemma NumberMoves(n: Node, input: Input)
    ensures React(n, input).node.seqNum == if IssuesNumber(n, input) then Inc32(n.seqNum) else n.seqNum
  {
    match input
    case Originate(port, payload, dest, origin) => SendMoves(n, port, payload, dest, origin);
    case LinkUp(_) =>
    case LinksReset =>
    case Incoming(packet, source) => ReceiveMoves(n, packet, source);
  }

  /** A node's number moves by one exactly when it issues one; so it falls exactly when it
      issues one at the largest number there is. */
  lemma NumberFallsExactly(n: Node, input: Input)
    ensures React(n, input).node.seqNum != n.seqNum <==> IssuesNumber(n, input)
    ensures React(n, input).node.seqNum < n.seqNum <==> IssuesNumber(n, input) && n.seqNum == MAX_U32
  {
    NumberMoves(n, input);
  }

  // ----- What a step keeps

  /** What one step of one node keeps, seen from the numbers everybody owns, unless the
      node's own number falls. */
  ghost predicate KeepsBound(n: Node, own: Own, r: Result) {
    n.seqNum <= r.node.seqNum ==>
      var own' := own[n.ip := r.node.seqNum];
      TableBounded(own', r.node.table) && OutputBounded(own', r.out)
  }

  ghost predicate Ready(n: Node, own: Own) {
    n.ip in own && own[n.ip] == n.seqNum && TableBounded(own, n.table)
  }

  lemma DiscoverKeepsBound(n: Node, dest: Ip, own: Own)
    requires Ready(n, own)
    ensures KeepsBound(n, own, Discover(n, dest))
  {
  }

  lemma RepairKeepsBound(n: Node, dest: Ip, orig: Ip, own: Own)
    requires Ready(n, own)
    ensures KeepsBound(n, own, RepairLink(n, dest, orig))
  {
    DiscoverKeepsBound(n, dest, own);
  }

  lemma SendKeepsBound(n: Node, port: int, payload: seq<U8>, dest: Ip, origin: Ip, own: Own)
    requires Ready(n, own)
    ensures KeepsBound(n, own, SendPacket(n, port, payload, dest, origin))
  {
    if dest != BROADCAST && !Active(n.table, dest) {
      DiscoverKeepsBound(Hold(n, dest, Buffered(port, payload)), dest, own);
    } else {
      RepairKeepsBound(n, dest, n.ip, own);
      RepairKeepsBound(n, dest, origin, own);
    }
  }

  lemma RreqKeepsBound(n: Node, q: Rreq, source: Ip, own: Own)
    requires Ready(n, own) && PacketBounded(own, RreqPacket(q))
    ensures KeepsBound(n, own, HandleRreq(n, q, source))
  {
    var n1 := RememberId(n, q);
    assert TableBounded(own, LearnReverse(n1, q, source).table);
  }

  lemma RrepKeepsBound(n: Node, p: Rrep, source: Ip, own: Own)
    requires Ready(n, own) && PacketBounded(own, RrepPacket(p))
    ensures KeepsBound(n, own, HandleRrep(n, p, source))
  {
    var n1 := n.(table := UpdateFromRrep(n.table, p, source));
    assert TableBounded(own, n1.table);
    if n.ip != p.origIp {
      SecondUpdateNeverFires(n, p, source);
    } else if p.destIp in n1.pending && n1.pending[p.destIp] != [] {
      DrainOne(n1, p.destIp);
      var b := n1.pending[p.destIp][0];
      SendKeepsBound(n1.(pending := n1.pending[p.destIp := []]), b.port, b.payload, p.destIp, BROADCAST, own);
    }
  }

  lemma RerrKeepsBound(n: Node, e: Rerr, own: Own)
    requires Ready(n, own) && PacketBounded(own, RerrPacket(e))
    ensures KeepsBound(n, own, HandleRerr(n, e))
  {
    assert TableBounded(own, Deactivate(n.table, e.unreachableIp));
    DiscoverKeepsBound(n.(table := Deactivate(n.table, e.unreachableIp)), e.unreachableIp, own);
  }

  lemma ReactKeepsBound(n: Node, input: Input, own: Own)
    requires Ready(n, own)
    requires input.Incoming? ==> PacketBounded(own, input.packet)
    ensures KeepsBound(n, own, React(n, input)) && React(n, input).node.ip == n.ip
  {
    match input
    case Originate(port, payload, dest, origin) => SendKeepsBound(n, port, payload, dest, origin, own);
    case LinkUp(_) =>
    case LinksReset =>
    case Incoming(packet, source) =>
      match packet {
        case RreqPacket(q) => RreqKeepsBound(n, q, source, own);
        case RrepPacket(p) => RrepKeepsBound(n, p, source, own);
        case RerrPacket(e) => RerrKeepsBound(n, e, own);
        case DataPacket(port, f) =>
          SendKeepsBound(n, port, FramePayload(f), FrameDest(f), FrameOrig(f), own);
      }
  }

  lemma RaisingKeepsPacketBounded(own: Own, own': Own, p: Packet)
    requires own.Keys == own'.Keys && (forall x :: x in own ==> own[x] <= own'[x]) && PacketBounded(own, p)
    ensures PacketBounded(own', p)
  {
  }

  lemma RaisingKeepsTableBounded(own: Own, own': Own, t: Table)
    requires own.Keys == own'.Keys && (forall x :: x in own ==> own[x] <= own'[x]) && TableBounded(own, t)
    ensures TableBounded(own', t)
  {
  }

  /** The node does not issue a number while it is at the largest one. */
  predicate NoWrap(n: Node, input: Input) { IssuesNumber(n, input) ==> n.seqNum < MAX_U32 }

  lemma StepKeepsBound(s: Net, v: Ip, input: Input, s': Net)
    requires Bounded(s) && Step(s, v, input, s') && NoWrap(s.nodes[v], input)
    ensures Bounded(s')
    ensures s'.nodes.Keys == s.nodes.Keys && forall x :: x in s.nodes ==> s.nodes[x].seqNum <= s'.nodes[x].seqNum
  {
    NumberFallsExactly(s.nodes[v], input);
    ReactKeepsBound(s.nodes[v], input, OwnOf(s));
    UpdateKeepsBound(s, v, React(s.nodes[v], input), s');
  }

  lemma UpdateKeepsBound(s: Net, v: Ip, r: Result, s': Net)
    requires Bounded(s) && v in s.nodes && r.node.ip == v && KeepsBound(s.nodes[v], OwnOf(s), r)
    requires s.nodes[v].seqNum <= r.node.seqNum
    requires s'.nodes == s.nodes[v := r.node]
    requires forall m :: m in s'.wire ==> m in s.wire || Sent(r.out, m.packet)
    ensures Bounded(s')
    ensures s'.nodes.Keys == s.nodes.Keys && forall x :: x in s.nodes ==> s.nodes[x].seqNum <= s'.nodes[x].seqNum
  {
    var own, own' := OwnOf(s), OwnOf(s');
    OwnAfter(s, v, r.node, s');
    forall w | w in s'.nodes
      ensures s'.nodes[w].ip == w && TableBounded(own', s'.nodes[w].table)
    {
      if w != v { RaisingKeepsTableBounded(own, own', s.nodes[w].table); }
    }
    forall m | m in s'.wire
      ensures PacketBounded(own', m.packet)
    {
      if m in s.wire { RaisingKeepsPacketBounded(own, own', m.packet); }
      else { SentIsBounded(own', r.out, m.packet); }
    }
  }

  lemma OwnAfter(s: Net, v: Ip, n: Node, s': Net)
    requires v in s.nodes && s'.nodes == s.nodes[v := n] && s.nodes[v].seqNum <= n.seqNum && s.nodes[v].ip == v
    ensures OwnOf(s') == OwnOf(s)[s.nodes[v].ip := n.seqNum] && OwnOf(s').Keys == OwnOf(s).Keys
    ensures forall x :: x in OwnOf(s) ==> OwnOf(s)[x] <= OwnOf(s')[x]
  {
  }

  lemma SentIsBounded(own: Own, out: seq<Output>, p: Packet)
    requires OutputBounded(own, out) && Sent(out, p)
    ensures PacketBounded(own, p)
  {
    var i :| 0 <= i < |out| && out[i].Send? && out[i].packet == p;
  }

  datatype Move = Move(actor: Ip, input: Input)

  /** A run: states linked by moves, none of which wraps a number. */
  ghost predicate IsRun(states: seq<Net>, moves: seq<Move>) {
    && |states| == |moves| + 1
    && forall i :: 0 <= i < |moves| ==>
         Step(states[i], moves[i].actor, moves[i].input, states[i + 1])
         && NoWrap(states[i].nodes[moves[i].actor], moves[i].input)
  }

  /** In every run that does not wrap a number, no table entry and no message ever
      carries a number for a node above that node's own, and no own number falls. */
  lemma {:induction false} NumbersStayBounded(states: seq<Net>, moves: seq<Move>, i: nat, j: nat)
    requires IsRun(states, moves) && Bounded(states[0]) && i <= j < |states|
    ensures Bounded(states[j]) && states[j].nodes.Keys == states[0].nodes.Keys == states[i].nodes.Keys
    ensures forall x :: x in states[i].nodes ==> states[i].nodes[x].seqNum <= states[j].nodes[x].seqNum
  {
    if j > 0 {
      var k := j - 1;
      NumbersStayBounded(states, moves, if i < j then i else 0, k);
      if i == j { NumbersStayBounded(states, moves, 0, k); }
      assert Step(states[k], moves[k].actor, moves[k].input, states[k + 1]);
      StepKeepsBound(states[k], moves[k].actor, moves[k].input, states[j]);
    }
  }

  /** The guard is needed: a node at 2^32 - 1 that asks for a route restarts at 0,
      below the number its neighbour remembers. */
  lemma WrapBreaksTheBound() returns (s: Net, input: Input, s': Net)
    ensures Bounded(s) && Step(s, 1, input, s') && s.nodes[1].seqNum == MAX_U32 && !Bounded(s')
  {
    var a := Node(1, MAX_U32, 0, map[], map[], map[], [2], {});
    var b := Node(2, 0, 0, map[1 := Entry(1, MAX_U32, 1, 1, true)], map[], map[], [1], {});
    s := Net(map[1 := a, 2 := b], []);
    input := Originate(80, [], 9, BROADCAST);
    s' := Net(s.nodes[1 := React(a, input).node], []);
    assert s'.nodes[1].seqNum == 0;
    assert 1 in OwnOf(s') && SeqOf(s'.nodes[2].table, 1) == MAX_U32;
    assert !TableBounded(OwnOf(s'), s'.nodes[2].table);
  }
}
