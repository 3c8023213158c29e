/** One AODV node as a value: what each handler of aodv/aodv.cc makes of the node's
    state and which packets it sends. The class in Aodv.dfy is proved against these. */
module NodeSpec {
  import opened Packets
  import opened RoutingTable
  import Queue = CircularQueue
  import RreqIds

  /** PACKET_BUFFER_SIZE. */
  const PACKET_BUFFER_SIZE := 1

  datatype Buffered = Buffered(port: int, payload: seq<U8>)

  /** What one pending queue can hold. */
  type Pending = q: seq<Buffered> | |q| <= PACKET_BUFFER_SIZE

  datatype Node = Node(
    ip: Ip,
    seqNum: U32,
    rreqId: U32,
    table: Table,
    seen: map<Ip, set<int>>,
    pending: map<Ip, Pending>,
    neighbors: seq<Ip>,
    ports: set<int>)

  /** What a handler does besides changing its node: hand a packet to the socket,
      or a payload to a registered port. */
  datatype Output = Send(to: Ip, packet: Packet) | Hand(port: int, payload: seq<U8>, source: Ip)

  datatype Result = Result(node: Node, out: seq<Output>)

  /** The parts of a node no handler touches. */
  predicate SameSite(n: Node, m: Node) { n.ip == m.ip && n.neighbors == m.neighbors && n.ports == m.ports }

  // ----- Links (adhoc/routing_protocol.cc)

  predicate LinkExists(n: Node, dest: Ip) { dest == BROADCAST || dest in n.neighbors }

  function AddLink(n: Node, x: Ip): Node {
    if x in n.neighbors then n
    else n.(neighbors := n.neighbors + [x], table := UpdateEntry(n.table, x, x))
  }

  function ResetLinks(n: Node): Node { n.(neighbors := []) }

  // ----- Route requests

  function SeenFrom(n: Node, orig: Ip): set<int> { if orig in n.seen then n.seen[orig] else {} }

  function CreateRreq(n: Node, dest: Ip): (Node, Rreq) {
    var n' := n.(rreqId := Inc32(n.rreqId), seqNum := Inc32(n.seqNum));
    (n', Rreq(0, n'.rreqId, dest, 0, n.ip, n'.seqNum))
  }

  /** `createRREQ` followed by `_broadcastRREQBuffer`. */
  function Discover(n: Node, dest: Ip): (r: Result)
    ensures SameSite(r.node, n) && r.node.seen == n.seen
  {
    var (n', q) := CreateRreq(n, dest);
    Result(n', [Send(BROADCAST, RreqPacket(q))])
  }

  predicate IsDuplicate(n: Node, q: Rreq) {
    || q.origIp == n.ip
    || ((q.origSeq == SeqOf(n.table, q.origIp) || q.rreqId in SeenFrom(n, q.origIp))
        && q.hopCount >= HopsOf(n.table, q.origIp))
  }

  function RememberId(n: Node, q: Rreq): Node {
    n.(seen := n.seen[q.origIp := RreqIds.Remember(SeenFrom(n, q.origIp), q.rreqId)])
  }

  predicate ShouldGenerateRrep(n: Node, q: Rreq) {
    q.destIp == n.ip || (NextHop(n.table, q.destIp) != NO_HOP && Active(n.table, q.destIp))
  }

  /** The reverse route, from the request with its hop count incremented. */
  function LearnReverse(n: Node, q: Rreq, source: Ip): Node {
    n.(table := UpdateFromRreq(n.table, q.(hopCount := Inc8(q.hopCount)), source))
  }

  function CreateRrep(n: Node, q: Rreq, source: Ip): (Node, Rrep) {
    var n1 := LearnReverse(n, q, source);
    if q.destIp == n.ip then
      var n2 := if n1.seqNum == q.destSeq then n1.(seqNum := Inc32(n1.seqNum)) else n1;
      (n2, Rrep(0, q.destIp, n2.seqNum, q.origIp))
    else
      (n1, Rrep(HopsOf(n1.table, q.destIp), q.destIp, SeqOf(n1.table, q.destIp), q.origIp))
  }

  /** Unicast a reply along the reverse route, or drop it when the link is gone. */
  function SendRrep(n: Node, p: Rrep): seq<Output> {
    var hop := NextHop(n.table, p.origIp);
    if LinkExists(n, hop) then [Send(hop, RrepPacket(p))] else []
  }

  function HandleRreq(n: Node, q: Rreq, source: Ip): (r: Result)
    ensures SameSite(r.node, n)
    ensures r.node.seen == if IsDuplicate(n, q) then n.seen else RememberId(n, q).seen
  {
    if IsDuplicate(n, q) then Result(n, [])
    else
      var n1 := RememberId(n, q);
      if ShouldGenerateRrep(n1, q) then
        var (n2, p) := CreateRrep(n1, q, source);
        Result(n2, SendRrep(n2, p))
      else
        Result(LearnReverse(n1, q, source), [Send(BROADCAST, RreqPacket(q.(hopCount := Inc8(q.hopCount))))])
  }

  // ----- Data packets

  /** Queue a payload until a route opens. */
  function Hold(n: Node, dest: Ip, b: Buffered): Node {
    var q: Pending := if dest in n.pending then n.pending[dest] else [];
    n.(pending := n.pending[dest := Queue.Pushed(q, PACKET_BUFFER_SIZE, b)])
  }

  /** `repairLink`, whose local repair always fails: the originator asks for a new
      route, anyone else gives the route up and reports to the originator. */
  function RepairLink(n: Node, dest: Ip, orig: Ip): (r: Result)
    ensures SameSite(r.node, n) && r.node.seen == n.seen
  {
    if orig == n.ip then Discover(n, dest)
    else
      var e := Rerr(dest, SeqOf(n.table, dest), orig);
      var n' := n.(table := Deactivate(n.table, dest));
      Result(n', [Send(NextHop(n'.table, orig), RerrPacket(e))])
  }

  /** The last part of `sendPacket`: frame the payload and pass it to the next hop. */
  function Transmit(n: Node, port: int, payload: seq<U8>, dest: Ip, orig: Ip, hop: Ip): (r: Result)
    ensures SameSite(r.node, n) && r.node.seen == n.seen
  {
    if LinkExists(n, hop) then Result(n, [Send(hop, DataPacket(port, MakeFrame(dest, orig, payload)))])
    else RepairLink(n, dest, orig)
  }

  /** `sendPacket`; `origin` is BROADCAST (that is, -1) when this node originates. */
  function SendPacket(n: Node, port: int, payload: seq<U8>, dest: Ip, origin: Ip): (r: Result)
    ensures SameSite(r.node, n) && r.node.seen == n.seen
  {
    if dest == BROADCAST then Transmit(n, port, payload, dest, origin, BROADCAST)
    else if !Active(n.table, dest) then Discover(Hold(n, dest, Buffered(port, payload)), dest)
    else
      Transmit(n, port, payload, dest, if origin == BROADCAST then n.ip else origin, NextHop(n.table, dest))
  }

  // ----- Route replies

  /** Send every packet held for a destination that has become reachable. */
  function Drain(n: Node, dest: Ip): (r: Result)
    requires Active(n.table, dest) || dest == BROADCAST
    ensures r.node.pending == n.pending - {dest} && r.node.table == n.table
    ensures SameSite(r.node, n) && r.node.seen == n.seen
    decreases if dest in n.pending then |n.pending[dest]| else 0
  {
    if dest !in n.pending || n.pending[dest] == [] then Result(n.(pending := n.pending - {dest}), [])
    else
      var b := n.pending[dest][0];
      var r := SendPacket(n.(pending := n.pending[dest := n.pending[dest][1..]]), b.port, b.payload, dest, BROADCAST);
      var rest := Drain(r.node, dest);
      Result(rest.node, r.out + rest.out)
  }

  function CreateForwardRrep(n: Node, p: Rrep, source: Ip): (Node, Rrep) {
    var f := p.(hopCount := Inc8(p.hopCount));
    if p.destSeq > SeqOf(n.table, p.destIp) || p.hopCount < HopsOf(n.table, p.destIp) then
      (n.(table := UpdateFromRrep(n.table, f, source)), f)
    else (n, f)
  }

  function HandleRrep(n: Node, p: Rrep, source: Ip): (r: Result)
    ensures SameSite(r.node, n) && r.node.seen == n.seen
  {
    var n1 := n.(table := UpdateFromRrep(n.table, p, source));
    if n.ip == p.origIp then Drain(n1, p.destIp)
    else
      var (n2, f) := CreateForwardRrep(n1, p, source);
      Result(n2, SendRrep(n2, f))
  }

  // ----- Route errors

  function HandleRerr(n: Node, e: Rerr): (r: Result)
    ensures SameSite(r.node, n) && r.node.seen == n.seen
  {
    var n1 := n.(table := Deactivate(n.table, e.unreachableIp));
    if e.origIp == n.ip then Discover(n1, e.unreachableIp)
    else if Active(n1.table, e.origIp) then Result(n1, [Send(NextHop(n1.table, e.origIp), RerrPacket(e))])
    else Result(n1, [])
  }

  // ----- Dispatch

  function HandleData(n: Node, port: int, f: Frame, source: Ip): (r: Result)
    ensures SameSite(r.node, n) && r.node.seen == n.seen
  {
    if port == ROUTING_PORT then Result(n, [])  // type byte 0 is no AODV message
    else if FrameDest(f) == n.ip || FrameDest(f) == BROADCAST then
      Result(n, if port in n.ports then [Hand(port, FramePayload(f), source)] else [])
    else SendPacket(n, port, FramePayload(f), FrameDest(f), FrameOrig(f))
  }

  function Receive(n: Node, packet: Packet, source: Ip): (r: Result)
    ensures SameSite(r.node, n)
  {
    match packet
    case RreqPacket(q) => HandleRreq(n, q, source)
    case RrepPacket(p) => HandleRrep(n, p, source)
    case RerrPacket(e) => HandleRerr(n, e)
    case DataPacket(port, f) => HandleData(n, port, f, source)
  }

  // ----- Facts about single steps

  /** A new neighbour is reached at once over its own link: whatever way led there before,
      the next hop is the neighbour itself and the route active, though the numbers of an
      old entry stay. A known neighbour changes nothing, not even a route given up. */
  lemma NewNeighborIsReached(n: Node, x: Ip, port: int, payload: seq<U8>)
    requires x != BROADCAST
    ensures var m := AddLink(n, x);
            && (x in n.neighbors ==> m == n)
            && (x !in n.neighbors ==>
                  && m == n.(neighbors := n.neighbors + [x], table := m.table) && m.table.Keys == n.table.Keys + {x}
                  && m.table[x] == (if x in n.table then n.table[x].(nextHop := x, active := true)
                                    else Entry(x, 0, 0, 0, true))
                  && (forall y :: y in n.table && y != x ==> m.table[y] == n.table[y])
                  && SendPacket(m, port, payload, x, BROADCAST)
                     == Result(m, [Send(x, DataPacket(port, MakeFrame(x, n.ip, payload)))]))
  {
  }

  /** After the table update of `_handleRREP`, the second update in
      `createForwardRREP` can never fire (aodv/aodv_rrep.cc:75-79). */
  lemma SecondUpdateNeverFires(n: Node, p: Rrep, source: Ip)
    ensures var n1 := n.(table := UpdateFromRrep(n.table, p, source));
            CreateForwardRrep(n1, p, source) == (n1, p.(hopCount := Inc8(p.hopCount)))
  {
  }

  /** A copy that comes again over an equally long path is accepted again exactly if the
      first one rewrote the reverse route, whose stored count is one higher than the one it
      is compared with, or the stored route is longer anyway, or is about another number
      while the id just remembered has been evicted at once. */
  lemma EqualCopyIsAcceptedAgain(n: Node, q: Rreq, source: Ip)
    requires !IsDuplicate(n, q) && q.hopCount < 255
    ensures !IsDuplicate(HandleRreq(n, q, source).node, q) <==>
            || RreqImproves(n.table, q.(hopCount := q.hopCount + 1))
            || q.hopCount < HopsOf(n.table, q.origIp)
            || (q.origSeq != SeqOf(n.table, q.origIp) && q.rreqId !in RreqIds.Remember(SeenFrom(n, q.origIp), q.rreqId))
  {
    var n1 := LearnReverse(RememberId(n, q), q, source);
    AcceptedLearns(n, q, source);
    assert SeenFrom(n1, q.origIp) == RreqIds.Remember(SeenFrom(n, q.origIp), q.rreqId);
  }

  /** Answered or passed on, an accepted request is learned from in the same way. */
  lemma AcceptedLearns(n: Node, q: Rreq, source: Ip)
    requires !IsDuplicate(n, q)
    ensures var n1, n2 := LearnReverse(RememberId(n, q), q, source), HandleRreq(n, q, source).node;
            n2.table == n1.table && n2.seen == n1.seen && n2.ip == n1.ip
  {
  }

  function HeldFor(n: Node, dest: Ip): Pending { if dest in n.pending then n.pending[dest] else [] }

  /** Draining sends exactly one packet per payload held: over a link that exists the
      payloads themselves, framed, in order; else a new request each. */
  lemma {:induction false} DrainSendsAll(n: Node, dest: Ip)
    requires Active(n.table, dest) && dest != BROADCAST && n.ip != BROADCAST
    ensures |Drain(n, dest).out| == |HeldFor(n, dest)|
    ensures LinkExists(n, NextHop(n.table, dest)) ==>
              forall i :: 0 <= i < |HeldFor(n, dest)| ==>
                Drain(n, dest).out[i] == Send(NextHop(n.table, dest),
                  DataPacket(HeldFor(n, dest)[i].port, MakeFrame(dest, n.ip, HeldFor(n, dest)[i].payload)))
    decreases |HeldFor(n, dest)|
  {
    var held := HeldFor(n, dest);
    if held != [] {
      var r := SendPacket(n.(pending := n.pending[dest := held[1..]]), held[0].port, held[0].payload, dest, BROADCAST);
      DrainSendsAll(r.node, dest);
    }
  }
}
