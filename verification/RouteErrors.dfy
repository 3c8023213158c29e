/** What a node without a usable route does, and the way a route error takes back to the
    originator (aodv/aodv.cc:59-205, 405-422). Requests, reports and tables are given field
    by field, so that nothing here rests on how NodeSpec.dfy computes them. */
module RouteErrors {
  import opened Packets
  import opened RoutingTable
  import opened NodeSpec
  import Queue = CircularQueue

  // ----- What is sent

  /** The next value of a 32-bit counter. */
  function Successor(x: U32): U32 { if x == 0xFFFF_FFFF then 0 else x + 1 }

  /** From `n` to `m`, a route request for `dest` under a new number and id, and nothing
      else, is broadcast. */
  ghost predicate AsksAnew(n: Node, m: Node, out: seq<Output>, dest: Ip) {
    && m.seqNum == Successor(n.seqNum) && m.rreqId == Successor(n.rreqId)
    && out == [Send(0xFFFF_FFFF, RreqPacket(Rreq(0, m.rreqId, dest, 0, n.ip, m.seqNum)))]
  }

  /** From `n` to `m` the two counters stay. */
  predicate SameCounters(n: Node, m: Node) { n.seqNum == m.seqNum && n.rreqId == m.rreqId }

  /** Only the entry for `dest`, if there is one, differs, in being inactive. */
  ghost predicate GivenUp(t: Table, t': Table, dest: Ip) {
    && t'.Keys == t.Keys
    && (dest in t' ==> !t'[dest].active && t'[dest].nextHop == t[dest].nextHop && t'[dest].seqNum == t[dest].seqNum
                       && t'[dest].hops == t[dest].hops && t'[dest].lastRreqId == t[dest].lastRreqId)
    && forall x :: x in t && x != dest ==> t'[x] == t[x]
  }

  /** An active route to `dest`. */
  predicate HasRoute(n: Node, dest: Ip) { dest in n.table && n.table[dest].active }

  /** An active route to `dest` whose next hop is in reach. */
  predicate Reached(n: Node, dest: Ip) {
    HasRoute(n, dest) && (n.table[dest].nextHop == 0xFFFF_FFFF || n.table[dest].nextHop in n.neighbors)
  }

  predicate IsRequest(o: Output) { o.Send? && o.packet.RreqPacket? }

  predicate IsError(o: Output) { o.Send? && o.packet.RerrPacket? }

  /** Every payload a node is given makes it send exactly one packet. It is a request
      exactly if there is no active route, or the next hop is out of reach and the payload
      is the node's own; the request is for the payload's destination. */
  lemma WhoAsks(n: Node, port: int, payload: seq<U8>, dest: Ip, origin: Ip)
    ensures var r := SendPacket(n, port, payload, dest, origin);
            && |r.out| == 1
            && (IsRequest(r.out[0]) <==> dest != BROADCAST && !Reached(n, dest)
                                         && (!HasRoute(n, dest) || origin == BROADCAST || origin == n.ip))
            && (IsRequest(r.out[0]) ==> AsksAnew(n, r.node, r.out, dest) && r.node.table == n.table)
            && (!IsRequest(r.out[0]) ==> SameCounters(n, r.node))
  {
  }

  /** Only without a route is the payload kept, in place of whatever was held for the
      destination. A node that asks again because a link is gone loses it. */
  lemma WhoKeeps(n: Node, port: int, payload: seq<U8>, dest: Ip, origin: Ip)
    ensures SendPacket(n, port, payload, dest, origin).node.pending
         == if dest == BROADCAST || HasRoute(n, dest) then n.pending
            else n.pending[dest := [Buffered(port, payload)]]
  {
    var q := HeldFor(n, dest);
    assert Queue.Pushed(q, 1, Buffered(port, payload)) == [Buffered(port, payload)];
  }

  /** A relay whose next hop is out of reach gives the route up and sends the error to its
      next hop for the originator, 0 if it has none, in reach or not. In all other cases
      the table stays. */
  lemma WhoReports(n: Node, port: int, payload: seq<U8>, dest: Ip, origin: Ip)
    ensures var r := SendPacket(n, port, payload, dest, origin);
            && |r.out| == 1
            && (IsError(r.out[0]) <==> dest != BROADCAST && HasRoute(n, dest) && !Reached(n, dest)
                                       && origin != BROADCAST && origin != n.ip)
            && (IsError(r.out[0]) ==>
                  && r.out == [Send(if origin in n.table then n.table[origin].nextHop else 0,
                                    RerrPacket(Rerr(dest, n.table[dest].seqNum, origin)))]
                  && GivenUp(n.table, r.node.table, dest))
            && (!IsError(r.out[0]) ==> r.node.table == n.table)
  {
  }

  /** Otherwise the payload itself leaves: everywhere if it is addressed to everyone, else
      to the next hop, with the node's own address as originator unless it only relays. */
  lemma WhoSends(n: Node, port: int, payload: seq<U8>, dest: Ip, origin: Ip)
    ensures var r := SendPacket(n, port, payload, dest, origin);
            && |r.out| == 1
            && (r.out[0].Send? && r.out[0].packet.DataPacket? <==> dest == BROADCAST || Reached(n, dest))
            && (dest == BROADCAST ==>
                  r == Result(n, [Send(0xFFFF_FFFF, DataPacket(port, MakeFrame(dest, origin, payload)))]))
            && (dest != BROADCAST && Reached(n, dest) ==>
                  var orig := if origin == BROADCAST then n.ip else origin;
                  r == Result(n, [Send(n.table[dest].nextHop, DataPacket(port, MakeFrame(dest, orig, payload)))]))
  {
  }

  /** A reply that opens a route over a neighbour already gone: a payload held for it is
      lost, and the destination asked for again under new numbers. */
  lemma DrainAsksAgain(n: Node, dest: Ip)
    requires HasRoute(n, dest) && !Reached(n, dest) && dest != BROADCAST
    ensures var r := Drain(n, dest);
            && (HeldFor(n, dest) == [] ==> r.out == [] && SameCounters(n, r.node))
            && (HeldFor(n, dest) != [] ==> AsksAnew(n, r.node, r.out, dest))
            && dest !in r.node.pending
            && (forall d :: d in n.pending && d != dest ==> d in r.node.pending && r.node.pending[d] == n.pending[d])
  {
    var held := HeldFor(n, dest);
    if held != [] {
      assert held[1..] == [];
      var r := SendPacket(n.(pending := n.pending[dest := held[1..]]), held[0].port, held[0].payload, dest, BROADCAST);
      assert Drain(r.node, dest).out == [];
    }
  }

  // ----- The way back

  /** `v` has an active route to `orig` whose next hop is `w`. */
  ghost predicate PointsBack(nodes: map<Ip, Node>, v: Ip, w: Ip, orig: Ip) {
    v in nodes && nodes[v].ip == v && v != orig && HasRoute(nodes[v], orig) && nodes[v].table[orig].nextHop == w
  }

  /** A chain of active next hops to the originator. Nobody asks for links here: an error
      is sent without a look at the neighbours. */
  ghost predicate IsWayBack(nodes: map<Ip, Node>, chain: seq<Ip>, orig: Ip) {
    && chain != [] && chain[|chain| - 1] == orig && orig in nodes && nodes[orig].ip == orig
    && forall i, j :: 0 <= i && j == i + 1 < |chain| ==> PointsBack(nodes, chain[i], chain[j], orig)
  }

  /** Who received the error, and what each of them sent. */
  datatype Passage = Passage(nodes: map<Ip, Node>, sent: seq<(Ip, seq<Output>)>)

  /** An error is delivered to `at`, the error that sends to the next node, and so on, for
      at most `n` deliveries. */
  function Pass(nodes: map<Ip, Node>, at: Ip, e: Rerr, from: Ip, n: nat): Passage
    decreases n
  {
    if n == 0 || at !in nodes then Passage(nodes, [])
    else
      var r := Receive(nodes[at], RerrPacket(e), from);
      var nodes' := nodes[at := r.node];
      if |r.out| == 1 && IsError(r.out[0]) then
        var rest := Pass(nodes', r.out[0].to, r.out[0].packet.rerr, at, n - 1);
        rest.(sent := [(at, r.out)] + rest.sent)
      else Passage(nodes', [(at, r.out)])
  }

  /** One delivery. Whoever hears of the break gives the route up; the originator asks
      again; anyone else passes the error on as it is to the next hop of an active route to
      the originator, or, having none, keeps quiet. An error about the originator itself
      ends the route it would travel on. */
  lemma ErrorHeard(n: Node, e: Rerr, from: Ip)
    ensures var r := Receive(n, RerrPacket(e), from);
            && GivenUp(n.table, r.node.table, e.unreachableIp)
            && r.node.pending == n.pending && r.node.seen == n.seen
            && (e.origIp == n.ip ==> AsksAnew(n, r.node, r.out, e.unreachableIp))
            && (e.origIp != n.ip ==> SameCounters(n, r.node))
            && (e.origIp != n.ip && e.origIp != e.unreachableIp && HasRoute(n, e.origIp) ==>
                  r.out == [Send(n.table[e.origIp].nextHop, RerrPacket(e))])
            && (e.origIp != n.ip && (e.origIp == e.unreachableIp || !HasRoute(n, e.origIp)) ==> r.out == [])
  {
  }

  /** Giving up another route leaves a chain to the originator as it is. */
  lemma WayBackStays(nodes: map<Ip, Node>, chain: seq<Ip>, orig: Ip, v: Ip, m: Node)
    requires IsWayBack(nodes, chain, orig) && |chain| > 1 && v == chain[0] && v in nodes && m.ip == v
    requires forall x :: x == orig && x in nodes[v].table ==> x in m.table && m.table[x] == nodes[v].table[x]
    ensures IsWayBack(nodes[v := m], chain[1..], orig)
  {
    assert PointsBack(nodes, chain[0], chain[1], orig);
    var tail := chain[1..];
    forall i, j | 0 <= i && j == i + 1 < |tail|
      ensures PointsBack(nodes[v := m], tail[i], tail[j], orig)
    {
      assert PointsBack(nodes, chain[i + 1], chain[j + 1], orig);
    }
  }

  /** What the passage of an error has done to a node. */
  ghost predicate WasTold(n: Node, m: Node, dest: Ip) {
    && GivenUp(n.table, m.table, dest) && SameSite(n, m)
    && m.pending == n.pending && m.seen == n.seen
  }

  /** What the nodes of a chain have sent: the error each to the next, the last one a request. */
  ghost predicate PassedBack(chain: seq<Ip>, e: Rerr, sent: seq<(Ip, seq<Output>)>) {
    && |sent| == |chain| > 0 && sent[|chain| - 1].0 == e.origIp
    && forall k {:trigger sent[k]} :: 0 <= k < |chain| - 1 ==>
         sent[k] == (chain[k], [Send(chain[k + 1], RerrPacket(e))])
  }

  /** Everyone on the chain has been told, only the originator has counted on, and everyone
      else is as before. */
  ghost predicate AllTold(nodes: map<Ip, Node>, nodes': map<Ip, Node>, chain: seq<Ip>, e: Rerr) {
    && nodes'.Keys == nodes.Keys
    && (forall v :: v in nodes && v in chain ==> WasTold(nodes[v], nodes'[v], e.unreachableIp))
    && (forall v :: v in nodes && v in chain && v != e.origIp ==> SameCounters(nodes[v], nodes'[v]))
    && (forall v :: v in nodes && v !in chain ==> nodes'[v] == nodes[v])
  }

  lemma PassedBackOneMore(chain: seq<Ip>, e: Rerr, sent: seq<(Ip, seq<Output>)>)
    requires |chain| > 1 && PassedBack(chain[1..], e, sent)
    ensures PassedBack(chain, e, [(chain[0], [Send(chain[1], RerrPacket(e))])] + sent)
  {
    var all := [(chain[0], [Send(chain[1], RerrPacket(e))])] + sent;
    forall k {:trigger all[k]} | 0 <= k < |chain| - 1
      ensures all[k] == (chain[k], [Send(chain[k + 1], RerrPacket(e))])
    {
      if k > 0 { assert all[k] == sent[k - 1] && chain[1..][k - 1] == chain[k]; }
    }
  }

  lemma ToldOneMore(nodes: map<Ip, Node>, nodes': map<Ip, Node>, chain: seq<Ip>, e: Rerr, v: Ip, m: Node)
    requires |chain| > 1 && v == chain[0] && v in nodes && v != e.origIp
    requires WasTold(nodes[v], m, e.unreachableIp) && SameCounters(nodes[v], m)
    requires AllTold(nodes[v := m], nodes', chain[1..], e)
    ensures AllTold(nodes, nodes', chain, e)
  {
    assert chain == [v] + chain[1..];
    assert nodes[v := m][v] == m;
    forall w | w in nodes && w in chain
      ensures WasTold(nodes[w], nodes'[w], e.unreachableIp) && (w != e.origIp ==> SameCounters(nodes[w], nodes'[w]))
    {
      assert w == v || w in chain[1..];
    }
  }

  /** An error that has reached the originator along a chain, and what that has changed. */
  ghost predicate Reported(nodes: map<Ip, Node>, chain: seq<Ip>, e: Rerr, p: Passage) {
    && PassedBack(chain, e, p.sent) && AllTold(nodes, p.nodes, chain, e) && e.origIp in nodes
    && AsksAnew(nodes[e.origIp], p.nodes[e.origIp], p.sent[|chain| - 1].1, e.unreachableIp)
  }

  lemma ReportedOneMore(nodes: map<Ip, Node>, chain: seq<Ip>, e: Rerr, v: Ip, m: Node, rest: Passage)
    requires |chain| > 1 && v == chain[0] && v in nodes && v != e.origIp
    requires WasTold(nodes[v], m, e.unreachableIp) && SameCounters(nodes[v], m)
    requires Reported(nodes[v := m], chain[1..], e, rest)
    ensures Reported(nodes, chain, e, rest.(sent := [(v, [Send(chain[1], RerrPacket(e))])] + rest.sent))
  {
    PassedBackOneMore(chain, e, rest.sent);
    ToldOneMore(nodes, rest.nodes, chain, e, v, m);
  }

  /** `Reported` of an error delivered to the first of the chain. */
  ghost predicate Arrives(nodes: map<Ip, Node>, chain: seq<Ip>, e: Rerr, from: Ip, n: nat) {
    chain != [] && Reported(nodes, chain, e, Pass(nodes, chain[0], e, from, n))
  }

  lemma LastIsTold(nodes: map<Ip, Node>, chain: seq<Ip>, e: Rerr, from: Ip, n: nat)
    requires IsWayBack(nodes, chain, e.origIp) && |chain| == 1 && n > 0
    ensures Arrives(nodes, chain, e, from, n)
  {
    ErrorHeard(nodes[e.origIp], e, from);
    assert chain == [e.origIp];
  }

  lemma RelayPasses(nodes: map<Ip, Node>, chain: seq<Ip>, e: Rerr, from: Ip, n: nat) returns (m: Node)
    requires IsWayBack(nodes, chain, e.origIp) && e.unreachableIp != e.origIp && n > 0 && |chain| > 1
    ensures IsWayBack(nodes[chain[0] := m], chain[1..], e.origIp)
    ensures Arrives(nodes[chain[0] := m], chain[1..], e, chain[0], n - 1) ==> Arrives(nodes, chain, e, from, n)
  {
    var v := chain[0];
    assert PointsBack(nodes, chain[0], chain[1], e.origIp);
    ErrorHeard(nodes[v], e, from);
    var r := Receive(nodes[v], RerrPacket(e), from);
    assert r.out == [Send(chain[1], RerrPacket(e))];
    m := r.node;
    WayBackStays(nodes, chain, e.origIp, v, m);
    var rest := Pass(nodes[v := m], chain[1], e, v, n - 1);
    if Reported(nodes[v := m], chain[1..], e, rest) {
      ReportedOneMore(nodes, chain, e, v, m, rest);
    }
  }

  /** Along a chain of active next hops an error is delivered once per node. All but the
      last pass it on, unchanged, each to the next of the chain; the last, the originator,
      broadcasts one request for the unreachable node. */
  lemma {:induction false} ErrorReachesOriginator(nodes: map<Ip, Node>, chain: seq<Ip>, e: Rerr, from: Ip, n: nat)
    requires IsWayBack(nodes, chain, e.origIp) && e.unreachableIp != e.origIp && |chain| <= n
    ensures Arrives(nodes, chain, e, from, n)
    decreases |chain|
  {
    if |chain| == 1 {
      LastIsTold(nodes, chain, e, from, n);
    } else {
      var m := RelayPasses(nodes, chain, e, from, n);
      ErrorReachesOriginator(nodes[chain[0] := m], chain[1..], e, chain[0], n - 1);
    }
  }

  /** Only along such a chain: if the originator hears of the break, active next hops led
      to it from where the error set out. */
  lemma {:induction false} OnlyByAWayBack(nodes: map<Ip, Node>, at: Ip, e: Rerr, from: Ip, n: nat)
    returns (chain: seq<Ip>)
    requires e.unreachableIp != e.origIp && forall v :: v in nodes ==> nodes[v].ip == v
    requires var sent := Pass(nodes, at, e, from, n).sent; sent != [] && sent[|sent| - 1].0 == e.origIp
    ensures IsWayBack(nodes, chain, e.origIp) && chain[0] == at && |chain| <= n
    decreases n
  {
    ErrorHeard(nodes[at], e, from);
    var r := Receive(nodes[at], RerrPacket(e), from);
    if at == e.origIp {
      chain := [at];
    } else {
      var hop := nodes[at].table[e.origIp].nextHop;
      assert r.out == [Send(hop, RerrPacket(e))];
      var tail := OnlyByAWayBack(nodes[at := r.node], hop, e, at, n - 1);
      chain := [at] + tail;
      forall i, j | 0 <= i && j == i + 1 < |chain| ensures PointsBack(nodes, chain[i], chain[j], e.origIp) {
        if i > 0 { assert PointsBack(nodes[at := r.node], tail[i - 1], tail[j - 1], e.origIp); }
      }
    }
  }

  /** A relay that has a way back but cannot pass a payload on, all the way to the new
      request: the payload is lost, and every node from the relay to the originator has
      given up its route to the destination, which the originator asks for again. */
  lemma BreakIsReported(nodes: map<Ip, Node>, chain: seq<Ip>, dest: Ip, port: int, payload: seq<U8>, orig: Ip, from: Ip,
                        n: nat)
    requires IsWayBack(nodes, chain, orig) && 1 < |chain| <= n && orig != BROADCAST && port != ROUTING_PORT
    requires dest != BROADCAST && dest != orig && dest != chain[0]
    requires chain[0] in nodes && HasRoute(nodes[chain[0]], dest) && !Reached(nodes[chain[0]], dest)
    ensures var v, frame := chain[0], MakeFrame(dest, orig, payload);
            var e := Rerr(dest, nodes[v].table[dest].seqNum, orig);
            var r := Receive(nodes[v], DataPacket(port, frame), from);
            var p := Pass(nodes[v := r.node], chain[1], e, v, n);
            && r.out == [Send(chain[1], RerrPacket(e))]
            && Reported(nodes, chain, e, p.(sent := [(v, r.out)] + p.sent))
  {
    var v := chain[0];
    assert PointsBack(nodes, chain[0], chain[1], orig);
    FrameRoundTrip(dest, orig, payload);
    WhoReports(nodes[v], port, payload, dest, orig);
    var m := Receive(nodes[v], DataPacket(port, MakeFrame(dest, orig, payload)), from).node;
    assert m == SendPacket(nodes[v], port, payload, dest, orig).node;
    WayBackStays(nodes, chain, orig, v, m);
    var e := Rerr(dest, nodes[v].table[dest].seqNum, orig);
    ErrorReachesOriginator(nodes[v := m], chain[1..], e, v, n);
    ReportedOneMore(nodes, chain, e, v, m, Pass(nodes[v := m], chain[1], e, v, n));
  }

  // ----- Data that has arrived

  /** A payload is handed to a port exactly if it is addressed to this node or to everyone,
      the port is open and not the routing port, 5969; it is not passed on then, and the
      node stays as it is. On the routing port it is lost. */
  lemma WhoHandsOver(n: Node, port: int, payload: seq<U8>, dest: Ip, orig: Ip, from: Ip)
    ensures var r := Receive(n, DataPacket(port, MakeFrame(dest, orig, payload)), from);
            var here := dest == n.ip || dest == 0xFFFF_FFFF;
            && ((exists o :: o in r.out && o.Hand?) <==> here && port in n.ports && port != 5969)
            && (port == 5969 ==> r == Result(n, []))
            && (port != 5969 && here ==> r == Result(n, if port in n.ports then [Hand(port, payload, from)] else []))
            && (port != 5969 && !here ==> |r.out| == 1 && r.out[0].Send?)
  {
    FrameRoundTrip(dest, orig, payload);
    var r := Receive(n, DataPacket(port, MakeFrame(dest, orig, payload)), from);
    if port != ROUTING_PORT && dest != n.ip && dest != BROADCAST {
      assert r == SendPacket(n, port, payload, dest, orig);
      WhoAsks(n, port, payload, dest, orig);
    } else if port in n.ports && port != ROUTING_PORT {
      assert r.out[0] in r.out;
    }
  }
}
