/** Forwarding a data packet along next hops, in any network (aodv/aodv.cc:59-160, 424-453). */
module DataPath {
  import opened Packets
  import opened RoutingTable
  import opened NodeSpec

  /** `v` has an active route to `dest` whose next hop, over an existing link, is `w`. */
  ghost predicate Hop(nodes: map<Ip, Node>, v: Ip, w: Ip, dest: Ip) {
    && v in nodes && nodes[v].ip == v && v != dest
    && Active(nodes[v].table, dest) && NextHop(nodes[v].table, dest) == w && w in nodes[v].neighbors
  }

  /** A chain of next hops, over existing links, to its last node. */
  ghost predicate IsChain(nodes: map<Ip, Node>, chain: seq<Ip>, dest: Ip) {
    && chain != [] && chain[|chain| - 1] == dest && dest != BROADCAST
    && dest in nodes && nodes[dest].ip == dest
    && forall i {:trigger chain[i]} :: 0 <= i < |chain| - 1 ==> Hop(nodes, chain[i], chain[i + 1], dest)
  }

  /** Everything that happens while a packet given to `at` is handled, what that sends
      is handled at the next node, and so on, for at most `n` deliveries. */
  datatype Journey = Journey(nodes: map<Ip, Node>, handed: seq<(Ip, Output)>, deliveries: nat, lost: bool)

  function Travel(nodes: map<Ip, Node>, at: Ip, p: Packet, from: Ip, n: nat): Journey
    decreases n
  {
    if n == 0 || at !in nodes then Journey(nodes, [], 0, true)
    else
      var r := Receive(nodes[at], p, from);
      var nodes' := nodes[at := r.node];
      if |r.out| != 1 then Journey(nodes', [], 1, true)
      else
        match r.out[0]
        case Hand(_, _, _) => Journey(nodes', [(at, r.out[0])], 1, false)
        case Send(to, q) =>
          var j := Travel(nodes', to, q, at, n - 1);
          j.(deliveries := j.deliveries + 1)
  }

  /** One hop: header stripped, route looked up, header rebuilt with the same originator. */
  lemma RelayKeepsFrame(n: Node, port: int, payload: seq<U8>, dest: Ip, orig: Ip, from: Ip)
    requires dest != BROADCAST && dest != n.ip && orig != BROADCAST && port != ROUTING_PORT
    requires Active(n.table, dest) && NextHop(n.table, dest) in n.neighbors
    ensures var p := DataPacket(port, MakeFrame(dest, orig, payload));
            Receive(n, p, from) == Result(n, [Send(NextHop(n.table, dest), p)])
  {
    FrameRoundTrip(dest, orig, payload);
  }

  lemma TailIsChain(nodes: map<Ip, Node>, chain: seq<Ip>, dest: Ip)
    requires IsChain(nodes, chain, dest) && |chain| > 1
    ensures IsChain(nodes, chain[1..], dest) && chain[1..][0] == chain[1]
  {
    var tail := chain[1..];
    assert forall i {:trigger tail[i]} :: 0 <= i < |tail| ==> tail[i] == chain[i + 1];
  }

  /** Along a chain the packet is handed to the destination's port exactly once, after
      exactly one delivery per node, with payload and originator unchanged and no node
      changed. The source the port sees is the last relay, not the originator. */
  lemma {:induction false} ChainDelivers(nodes: map<Ip, Node>, chain: seq<Ip>, dest: Ip, port: int, payload: seq<U8>,
                                         orig: Ip, from: Ip, n: nat)
    requires IsChain(nodes, chain, dest) && orig != BROADCAST && port != ROUTING_PORT && |chain| <= n
    requires port in nodes[dest].ports
    ensures Travel(nodes, chain[0], DataPacket(port, MakeFrame(dest, orig, payload)), from, n)
         == Journey(nodes, [(dest, Hand(port, payload, if |chain| == 1 then from else chain[|chain| - 2]))],
                    |chain|, false)
  {
    FrameRoundTrip(dest, orig, payload);
    if |chain| > 1 {
      assert Hop(nodes, chain[0], chain[1], dest);
      RelayKeepsFrame(nodes[chain[0]], port, payload, dest, orig, from);
      TailIsChain(nodes, chain, dest);
      ChainDelivers(nodes, chain[1..], dest, port, payload, orig, chain[0], n - 1);
    }
    assert nodes[chain[0] := nodes[chain[0]]] == nodes;
  }

  /** The first node of a chain sends its own payload straight into it. */
  lemma OriginatorEntersChain(nodes: map<Ip, Node>, chain: seq<Ip>, dest: Ip, port: int, payload: seq<U8>)
    requires IsChain(nodes, chain, dest) && |chain| > 1 && chain[0] != BROADCAST
    ensures SendPacket(nodes[chain[0]], port, payload, dest, BROADCAST)
         == Result(nodes[chain[0]], [Send(chain[1], DataPacket(port, MakeFrame(dest, chain[0], payload)))])
  {
    assert Hop(nodes, chain[0], chain[1], dest);
  }
}
