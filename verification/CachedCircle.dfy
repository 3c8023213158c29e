/** A discovery that need not end: node 1 asks for 9, which nobody reaches; its
    neighbour 2 knows a route over 3, and 3 knows one over 2. */
module CachedCircle {
  import opened Packets
  import opened RoutingTable
  import opened NodeSpec
  import opened Discovery
  import opened Flood
  import opened HopWrap
  import opened Endings
  import opened Sets

  function Circle(): Config {
    Config(map[1 := [2], 2 := [1, 3], 3 := [2]], 1, 9, 1, 1, 0, map[2 := 3, 3 := 2], 80, [])
  }

  lemma CircleIsGood()
    ensures GoodNet(Circle())
  {
    var t := Circle().topo;
    assert forall v {:trigger t[v]} :: v in t ==> NoRepeats(t[v]);
  }

  lemma CircleAsks() returns (nodes: map<Ip, Node>)
    ensures Asks(Circle(), nodes)
  {
    CircleIsGood();
    var c := Circle();
    nodes := map[
      1 := Node(1, 0, 0, map[], map[], map[], [2], {}),
      2 := Node(2, 0, 0, map[9 := Entry(3, 0, 0, 0, true)], map[], map[], [1, 3], {}),
      3 := Node(3, 0, 0, map[9 := Entry(2, 0, 0, 0, true)], map[], map[], [2], {})
    ];
    CircleStarts(nodes);
    assert nodes.Keys == {1, 2, 3} == c.topo.Keys;
    assert c.cache.Keys == {2, 3} && c.cache[2] == 3 && c.cache[3] == 2;
  }

  lemma CircleStarts(nodes: map<Ip, Node>)
    requires nodes.Keys == {1, 2, 3} && nodes[1] == Node(1, 0, 0, map[], map[], map[], [2], {})
    requires nodes[2] == Node(2, 0, 0, map[9 := Entry(3, 0, 0, 0, true)], map[], map[], [1, 3], {})
    requires nodes[3] == Node(3, 0, 0, map[9 := Entry(2, 0, 0, 0, true)], map[], map[], [2], {})
    ensures forall v :: v in nodes ==> v in Circle().topo && StartsWell(Circle(), nodes[v], v)
  {
    assert StartsWell(Circle(), nodes[1], 1);
    assert StartsWell(Circle(), nodes[2], 2);
    assert StartsWell(Circle(), nodes[3], 3);
  }

  lemma {:induction false} CircleCircles(n: nat)
    ensures KnowsOn(Circle(), 2, n) && KnowsOn(Circle(), 3, n)
  {
    if n > 0 { CircleCircles(n - 1); }
  }

  lemma CircleIsSmall()
    ensures |Circle().topo| == 3
  {
    var t := Circle().topo;
    assert t.Keys == {1, 2, 3} && |t.Keys| == |t|;
  }

  lemma CircleTrail()
    ensures Trail(Circle(), [1, 2])
  {
    assert IsLink(Circle(), 1, 2);
  }

  /** One of its runs never ends. */
  lemma CircleGoesOnForEver() returns (c: Config, nodes: map<Ip, Node>, tr: Trace, sched: Schedule)
    ensures Discovers(c, nodes, tr, sched) && !Ends(tr)
  {
    c := Circle();
    nodes := CircleAsks();
    CircleIsSmall();
    SmallNetworksNeverWrap(c);
    CircleTrail();
    forall n: nat
      ensures KnowsOn(c, 2, n)
    {
      CircleCircles(n);
    }
    tr, sched := CanGoOnForEver(c, nodes, [1, 2]);
  }
}
