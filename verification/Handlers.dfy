/** What one delivered request or reply changes and sends, field by field, for every node and
    message (aodv/aodv.cc:268-388): an account of these handlers that stands on the stored
    entries and the message alone, beside the functions of NodeSpec.dfy. */
module Handlers {
  import opened Packets
  import opened RoutingTable
  import opened NodeSpec
  import opened RouteErrors
  import RreqIds

  /** The entry stored for a node, all zero and inactive if there is none. */
  function EntryFor(t: Table, x: Ip): Entry { if x in t then t[x] else Entry(0, 0, 0, 0, false) }

  /** One hop more, in eight bits. */
  function OneHopMore(hops: U8): U8 { if hops == 255 then 0 else hops + 1 }

  /** Only the entry for `x` is written, if any is. */
  ghost predicate Written(t: Table, t': Table, x: Ip, e: Entry, written: bool) {
    && t'.Keys == t.Keys + (if written then {x} else {})
    && (written ==> t'[x] == e)
    && forall y :: y in t && (y != x || !written) ==> t'[y] == t[y]
  }

  // ----- Requests

  /** A request is dropped if it is the node's own, or no shorter than the stored way back
      and either carries the stored number or an id the node remembers. */
  predicate Dropped(n: Node, q: Rreq) {
    var known := EntryFor(n.table, q.origIp);
    || q.origIp == n.ip
    || (q.hopCount >= known.hops && (q.origSeq == known.seqNum || (q.origIp in n.seen && q.rreqId in n.seen[q.origIp])))
  }

  /** The way back becomes one over the sender if the request carries a newer number than
      the one stored, or the way is shorter counted from this node. */
  ghost predicate WayBackLearnt(n: Node, m: Node, q: Rreq, source: Ip) {
    var known, hops := EntryFor(n.table, q.origIp), OneHopMore(q.hopCount);
    Written(n.table, m.table, q.origIp, Entry(source, q.origSeq, hops, q.rreqId, true),
            q.origSeq > known.seqNum || hops < known.hops)
  }

  /** Only the request's id joins those remembered of its originator. */
  ghost predicate IdRemembered(n: Node, m: Node, q: Rreq) {
    m.seen == n.seen[q.origIp := RreqIds.Remember(if q.origIp in n.seen then n.seen[q.origIp] else {}, q.rreqId)]
  }

  /** A reply leaves towards the originator if the next hop on the way back is in reach. */
  predicate LeavesBack(m: Node, p: Rrep, out: seq<Output>) {
    var hop := EntryFor(m.table, p.origIp).nextHop;
    out == if hop == 0xFFFF_FFFF || hop in m.neighbors then [Send(hop, RrepPacket(p))] else []
  }

  lemma UpdateWrites(t: Table, q: Rreq, source: Ip)
    ensures Written(t, UpdateFromRreq(t, q, source), q.origIp, Entry(source, q.origSeq, q.hopCount, q.rreqId, true),
                    q.origSeq > EntryFor(t, q.origIp).seqNum || q.hopCount < EntryFor(t, q.origIp).hops)
  {
  }

  /** Any other request teaches the way back and its id, and nothing else. */
  lemma RequestTeaches(n: Node, q: Rreq, source: Ip)
    requires !Dropped(n, q)
    ensures var m := Receive(n, RreqPacket(q), source).node;
            && WayBackLearnt(n, m, q, source) && IdRemembered(n, m, q)
            && m.pending == n.pending && m.rreqId == n.rreqId
  {
    AcceptedLearns(n, q, source);
    var q1 := q.(hopCount := OneHopMore(q.hopCount));
    assert LearnReverse(RememberId(n, q), q, source).table == UpdateFromRreq(n.table, q1, source);
    UpdateWrites(n.table, q1, source);
  }

  /** A dropped request does nothing. The destination answers another with its own number,
      one higher if the request asked for just that, and whoever has an active route there
      with the stored one. */
  lemma RequestHeard(n: Node, q: Rreq, source: Ip)
    ensures var r := Receive(n, RreqPacket(q), source);
            var m, before, known := r.node, EntryFor(n.table, q.destIp), EntryFor(r.node.table, q.destIp);
            && (Dropped(n, q) ==> r == Result(n, []))
            && (!Dropped(n, q) ==>
                  && (q.destIp == n.ip ==>
                        && m.seqNum == (if q.destSeq == n.seqNum then Successor(n.seqNum) else n.seqNum)
                        && LeavesBack(m, Rrep(0, n.ip, m.seqNum, q.origIp), r.out))
                  && (q.destIp != n.ip ==> m.seqNum == n.seqNum)
                  && (q.destIp != n.ip && before.active && before.nextHop != 0 ==>
                        LeavesBack(m, Rrep(known.hops, q.destIp, known.seqNum, q.origIp), r.out)))
  {
  }

  /** In the remaining case it is broadcast once, one hop longer and otherwise as it came. A
      route whose next hop is 0 does not count. */
  lemma RequestPassedOn(n: Node, q: Rreq, source: Ip)
    requires !Dropped(n, q) && q.destIp != n.ip
    requires var known := EntryFor(n.table, q.destIp); !known.active || known.nextHop == 0
    ensures Receive(n, RreqPacket(q), source).out
         == [Send(0xFFFF_FFFF, RreqPacket(Rreq(OneHopMore(q.hopCount), q.rreqId, q.destIp, q.destSeq, q.origIp,
                                               q.origSeq)))]
  {
  }

  // ----- Replies

  /** The route becomes one over the sender if the reply carries a newer number or fewer hops
      than those stored, or there is no active route. */
  ghost predicate RouteLearnt(n: Node, m: Node, p: Rrep, source: Ip) {
    var known := EntryFor(n.table, p.destIp);
    Written(n.table, m.table, p.destIp, Entry(source, p.destSeq, p.hopCount, known.lastRreqId, true),
            p.destSeq > known.seqNum || p.hopCount < known.hops || !known.active)
  }

  /** A reply teaches the route and, if it was for another node, goes on one hop longer. */
  lemma ReplyHeard(n: Node, p: Rrep, source: Ip)
    ensures var r := Receive(n, RrepPacket(p), source);
            && RouteLearnt(n, r.node, p, source)
            && (p.origIp != n.ip ==>
                  && r.node == n.(table := r.node.table)
                  && LeavesBack(r.node, Rrep(OneHopMore(p.hopCount), p.destIp, p.destSeq, p.origIp), r.out))
  {
    SecondUpdateNeverFires(n, p, source);
  }

  /** At its originator it empties what is held for the destination: the payload leaves over
      the route now known, or, its link gone, is lost while the node asks again. */
  lemma ReplyArrives(n: Node, p: Rrep, source: Ip)
    requires p.origIp == n.ip && p.destIp != BROADCAST && n.ip != BROADCAST
    ensures var r, held := Receive(n, RrepPacket(p), source), HeldFor(n, p.destIp);
            && r.node.pending == n.pending - {p.destIp} && r.node.seen == n.seen
            && (held == [] ==> r.out == [] && SameCounters(n, r.node))
            && (held != [] && Reached(r.node, p.destIp) ==>
                  && SameCounters(n, r.node)
                  && r.out == [Send(r.node.table[p.destIp].nextHop,
                                    DataPacket(held[0].port, MakeFrame(p.destIp, n.ip, held[0].payload)))])
            && (held != [] && !Reached(r.node, p.destIp) ==> AsksAnew(n, r.node, r.out, p.destIp))
  {
    var n1, dest := n.(table := UpdateFromRrep(n.table, p, source)), p.destIp;
    assert Receive(n, RrepPacket(p), source) == Drain(n1, dest);
    if Reached(n1, dest) { DrainSendsAll(n1, dest); DrainKeepsCounters(n1, dest); } else { DrainAsksAgain(n1, dest); }
  }

  /** Over a live link draining asks nobody. */
  lemma DrainKeepsCounters(n: Node, dest: Ip)
    requires Reached(n, dest) && dest != BROADCAST
    ensures SameCounters(n, Drain(n, dest).node)
  {
    var held := HeldFor(n, dest);
    if held != [] {
      var n1 := n.(pending := n.pending[dest := held[1..]]);
      WhoAsks(n1, held[0].port, held[0].payload, dest, BROADCAST);
      assert held[1..] == [];
    }
  }
}
