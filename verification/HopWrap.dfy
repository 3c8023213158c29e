/** When an 8-bit hop count can wrap during a discovery, exactly, and what happens then. */
module HopWrap {
  import opened Packets
  import opened RoutingTable
  import opened NodeSpec
  import opened Network
  import opened Discovery
  import opened Flood
  import opened Sets

  /** Message `i` is a copy of the request that has come 256 links and is news to its
      addressee, which will store the count 0 for it. */
  ghost predicate Wraps(c: Config, s: State, i: nat) {
    && Enabled(c, s, i) && s.wire[i].packet.RreqPacket? && s.wire[i].packet == Request(c, 255) && News(c, s, i)
  }

  ghost predicate CanWrap(c: Config, nodes: map<Ip, Node>)
    requires c.orig in nodes && c.orig in c.topo
  {
    exists tr: Trace, sched: Schedule, t: nat, i: nat ::
      IsTrace(c, tr, sched) && tr(0) == Begin(c, nodes) && Wraps(c, tr(t), i)
  }

  lemma NoLongTrailNoWrap(c: Config, nodes: map<Ip, Node>, tr: Trace, sched: Schedule, t: nat, i: nat)
    requires Discovers(c, nodes, tr, sched)
    ensures !Wraps(c, tr(t), i)
  {
    DiscoveryKeepsInv(c, nodes, tr, sched, t);
    if Wraps(c, tr(t), i) { NewsIsNear(c, tr(t), i); }
  }

  // ----- Runs along a path

  /** The state after some steps. */
  function After(c: Config, s: State, chs: seq<Choice>): State {
    if chs == [] then s else Next(c, After(c, s, chs[..|chs| - 1]), chs[|chs| - 1])
  }

  /** Some choices, and the same one for ever after. */
  function ScheduleOf(chs: seq<Choice>, after: Choice): Schedule { (t: nat) => if t < |chs| then chs[t] else after }

  function Run(c: Config, s: State, sched: Schedule, n: nat): State {
    if n == 0 then s else Next(c, Run(c, s, sched, n - 1), sched(n - 1))
  }

  function TraceOf(c: Config, s: State, sched: Schedule): Trace { (t: nat) => Run(c, s, sched, t) }

  lemma RunIsTrace(c: Config, s: State, sched: Schedule)
    ensures IsTrace(c, TraceOf(c, s, sched), sched) && TraceOf(c, s, sched)(0) == s
  {
    forall t: nat
      ensures StepsAt(c, TraceOf(c, s, sched), sched, t)
    {
      assert Run(c, s, sched, t + 1) == Next(c, Run(c, s, sched, t), sched(t));
    }
  }

  lemma {:induction false} RunIsAfter(c: Config, s: State, chs: seq<Choice>, after: Choice, n: nat)
    requires n <= |chs|
    ensures Run(c, s, ScheduleOf(chs, after), n) == After(c, s, chs[..n])
  {
    if n > 0 {
      RunIsAfter(c, s, chs, after, n - 1);
      assert chs[..n][..n - 1] == chs[..n - 1];
    }
  }

  lemma AfterOneMore(c: Config, s: State, chs: seq<Choice>, ch: Choice)
    ensures After(c, s, chs + [ch]) == Next(c, After(c, s, chs), ch)
  {
    assert (chs + [ch])[..|chs|] == chs;
  }

  /** Any choices are the start of a run, after which any choice can be made for ever. */
  lemma RunOf(c: Config, s: State, chs: seq<Choice>, after: Choice) returns (tr: Trace, sched: Schedule, t: nat)
    ensures IsTrace(c, tr, sched) && tr(0) == s && t == |chs| && tr(t) == After(c, s, chs)
    ensures forall k :: t <= k ==> sched(k) == after
  {
    sched, t := ScheduleOf(chs, after), |chs|;
    tr := TraceOf(c, s, sched);
    RunIsTrace(c, s, sched);
    RunIsAfter(c, s, chs, after, t);
    assert chs[..t] == chs;
  }

  lemma ChoiceIs(c: Config, s: State, i: nat)
    requires Enabled(c, s, i)
    ensures Next(c, s, Choice(i, false)) == Deliver(c, s, i)
  {
    Remainder(i, |s.wire|);
  }

  lemma Remainder(i: nat, n: nat)
    requires i < n
    ensures i % n == i
  {
  }

  /** One more step: deliver a message that is in flight. */
  lemma DeliverNext(c: Config, s: State, m: Msg) returns (i: nat)
    requires m in s.wire && m.to in c.topo && m.to in s.nodes
    ensures Enabled(c, s, i) && s.wire[i] == m
  {
    i :| 0 <= i < |s.wire| && s.wire[i] == m;
  }

  /** A node that has heard the request over `hops` links and passes it on. */
  ghost predicate HasHeard(c: Config, n: Node, v: Ip, hops: U8) {
    n.ip == v && !Answers(c, n) && SeqOf(n.table, c.orig) == c.seqNum && HopsOf(n.table, c.orig) == hops
  }

  /** A step that changed only `v`, which now has heard the request from `source` and has
      sent its copies. */
  ghost predicate Passed(c: Config, s: State, s': State, v: Ip, source: Ip, hops: U8) {
    && v in c.topo && v in s.nodes && s'.nodes.Keys == s.nodes.Keys
    && (forall u {:trigger s'.nodes[u]} :: u in s.nodes && u != v ==> s'.nodes[u] == s.nodes[u])
    && HasHeard(c, s'.nodes[v], v, hops) && NextHop(s'.nodes[v].table, c.orig) == source
    && Route(s'.nodes[v].table, c.dest) == Route(s.nodes[v].table, c.dest)
    && forall w :: w in c.topo[v] ==> Msg(w, v, Request(c, hops)) in s'.wire
  }

  lemma CopyPasses(c: Config, s: State, v: Ip, source: Ip, hops: nat) returns (ch: Choice)
    requires GoodNet(c) && hops <= 255 && Msg(v, source, Request(c, hops)) in s.wire
    requires v in c.topo && v in s.nodes && v != c.orig && StartsWell(c, s.nodes[v], v) && !Answers(c, s.nodes[v])
    ensures Passed(c, s, Next(c, s, ch), v, source, Inc8(hops))
  {
    var i := DeliverNext(c, s, Msg(v, source, Request(c, hops)));
    ch := Choice(i, false);
    ChoiceIs(c, s, i);
    FirstCopy(c, s.nodes[v], v, hops, source);
    forall w | w in c.topo[v]
      ensures Msg(w, v, Request(c, Inc8(hops))) in Deliver(c, s, i).wire
    {
      FrontMoves(c, s, i, Request(c, Inc8(hops)), w);
    }
  }

  /** What a relay that has not heard the request does when it arrives. */
  lemma FirstCopy(c: Config, n: Node, v: Ip, hops: nat, source: Ip)
    requires GoodNet(c) && v in c.topo && v != c.orig && StartsWell(c, n, v) && !Answers(c, n) && hops <= 255
    ensures var r := Receive(n, Request(c, hops), source);
            && !IsDuplicate(n, Request(c, hops).rreq)
            && r.out == [Send(BROADCAST, Request(c, Inc8(hops)))]
            && HasHeard(c, r.node, v, Inc8(hops)) && NextHop(r.node.table, c.orig) == source
            && Route(r.node.table, c.dest) == Route(n.table, c.dest)
  {
  }

  /** What a relay that stored 255 hops does with a count that has restarted. */
  lemma RestartedCopy(c: Config, n: Node, source: Ip)
    requires GoodNet(c) && n.ip != c.orig && !Answers(c, n) && SeqOf(n.table, c.orig) == c.seqNum
             && HopsOf(n.table, c.orig) == 255
    ensures NextHop(Receive(n, Request(c, 0), source).node.table, c.orig) == source
  {
  }

  /** The front copy has gone `k` links along `p`; nobody further on has heard anything. */
  ghost predicate OnPath(c: Config, nodes: map<Ip, Node>, p: seq<Ip>, s: State, k: nat)
    requires k <= 255 && k + 1 < |p|
  {
    && s.nodes.Keys == nodes.Keys == c.topo.Keys
    && (forall j {:trigger p[j]} :: k < j < |p| ==> p[j] in nodes && s.nodes[p[j]] == nodes[p[j]])
    && Msg(p[k + 1], p[k], Request(c, k)) in s.wire
    && (k > 0 ==> p[k] in s.nodes && HasHeard(c, s.nodes[p[k]], p[k], k))
  }

  /** No forward route has changed, and the originator still holds the payload. */
  ghost predicate Unopened(c: Config, nodes: map<Ip, Node>, s: State) {
    && c.orig in nodes && c.orig in c.topo && s.nodes.Keys == nodes.Keys
    && s.nodes[c.orig] == Begin(c, nodes).nodes[c.orig]
    && forall u {:trigger s.nodes[u]} :: u in s.nodes ==>
         Route(s.nodes[u].table, c.dest) == Route(nodes[u].table, c.dest)
  }

  lemma BeginIsUnopened(c: Config, nodes: map<Ip, Node>)
    requires Asks(c, nodes)
    ensures Unopened(c, nodes, Begin(c, nodes))
  {
    BeginSends(c, nodes);
  }

  /** Only `v` has changed, but not its forward route. */
  lemma StaysUnopened(c: Config, nodes: map<Ip, Node>, s: State, s': State, v: Ip)
    requires Unopened(c, nodes, s) && v in s.nodes && v != c.orig && s'.nodes.Keys == s.nodes.Keys
    requires forall u {:trigger s'.nodes[u]} :: u in s.nodes && u != v ==> s'.nodes[u] == s.nodes[u]
    requires Route(s'.nodes[v].table, c.dest) == Route(s.nodes[v].table, c.dest)
    ensures Unopened(c, nodes, s')
  {
    forall u {:trigger s'.nodes[u]} | u in s'.nodes
      ensures Route(s'.nodes[u].table, c.dest) == Route(nodes[u].table, c.dest)
    {
      assert Route(s.nodes[u].table, c.dest) == Route(nodes[u].table, c.dest);
    }
  }

  lemma PathNode(c: Config, nodes: map<Ip, Node>, p: seq<Ip>, j: nat)
    requires Asks(c, nodes) && Trail(c, p) && 0 < j < |p|
    ensures p[j] in c.topo && p[j] in nodes && p[j] != c.orig && p[j] in c.topo[p[j - 1]]
            && StartsWell(c, nodes[p[j]], p[j])
    ensures Relays(c, p[j]) ==> !Answers(c, nodes[p[j]])
  {
    assert IsLink(c, p[j - 1], p[j - 1 + 1]);
    assert StartsWell(c, nodes[p[j]], p[j]);
  }

  lemma PathStarts(c: Config, nodes: map<Ip, Node>, p: seq<Ip>)
    requires Asks(c, nodes) && Trail(c, p) && |p| > 1
    ensures OnPath(c, nodes, p, Begin(c, nodes), 0)
  {
    BeginSends(c, nodes);
    PathNode(c, nodes, p, 1);
    InSpread(c.orig, c.topo[c.orig], Request(c, 0), p[1]);
    forall j {:trigger p[j]} | 0 < j < |p|
      ensures p[j] in nodes && p[j] != c.orig
    {
      PathNode(c, nodes, p, j);
    }
  }

  /** Delivering a broadcast of `v` to a relay puts copies to all its neighbours in flight. */
  lemma FrontMoves(c: Config, s: State, i: nat, p: Packet, w: Ip)
    requires Enabled(c, s, i) && Reaction(c, s, i).out == [Send(BROADCAST, p)] && w in c.topo[s.wire[i].to]
    ensures Msg(w, s.wire[i].to, p) in Deliver(c, s, i).wire
    ensures Deliver(c, s, i).nodes == s.nodes[s.wire[i].to := Reaction(c, s, i).node]
  {
    InEmit(c, s.wire[i].to, Send(BROADCAST, p));
    InSpread(s.wire[i].to, c.topo[s.wire[i].to], p, w);
  }

  lemma PathGoesOn(c: Config, nodes: map<Ip, Node>, p: seq<Ip>, s: State, k: nat) returns (ch: Choice)
    requires Asks(c, nodes) && Trail(c, p) && k < 255 && k + 2 < |p| && OnPath(c, nodes, p, s, k)
    requires Unopened(c, nodes, s)
    ensures OnPath(c, nodes, p, Next(c, s, ch), k + 1) && Unopened(c, nodes, Next(c, s, ch))
  {
    PathNode(c, nodes, p, k + 1);
    PathNode(c, nodes, p, k + 2);
    var v := p[k + 1];
    assert Relays(c, v) && s.nodes[v] == nodes[v];
    ch := CopyPasses(c, s, v, p[k], k);
    CountsUp(k);
    StillOnPath(c, nodes, p, s, k, Next(c, s, ch));
    StaysUnopened(c, nodes, s, Next(c, s, ch), v);
  }

  lemma CountsUp(hops: nat)
    requires hops < 255
    ensures Inc8(hops) == hops + 1
  {
  }

  lemma StillOnPath(c: Config, nodes: map<Ip, Node>, p: seq<Ip>, s: State, k: nat, s': State)
    requires NoRepeats(p) && k < 255 && k + 2 < |p| && OnPath(c, nodes, p, s, k)
    requires Passed(c, s, s', p[k + 1], p[k], k + 1) && p[k + 2] in c.topo[p[k + 1]]
    ensures OnPath(c, nodes, p, s', k + 1)
  {
    forall j {:trigger p[j]} | k + 1 < j < |p|
      ensures p[j] in nodes && s'.nodes[p[j]] == nodes[p[j]]
    {
      assert p[j] != p[k + 1] && s.nodes[p[j]] == nodes[p[j]];
    }
  }

  lemma {:induction false} PathChoices(c: Config, nodes: map<Ip, Node>, p: seq<Ip>, k: nat) returns (chs: seq<Choice>)
    requires Asks(c, nodes) && Trail(c, p) && k <= 255 && k + 1 < |p|
    ensures |chs| == k && OnPath(c, nodes, p, After(c, Begin(c, nodes), chs), k)
    ensures Unopened(c, nodes, After(c, Begin(c, nodes), chs))
  {
    if k == 0 {
      chs := [];
      PathStarts(c, nodes, p);
      BeginIsUnopened(c, nodes);
    } else {
      var before := PathChoices(c, nodes, p, k - 1);
      var ch := PathGoesOn(c, nodes, p, After(c, Begin(c, nodes), before), k - 1);
      AfterOneMore(c, Begin(c, nodes), before, ch);
      chs := before + [ch];
    }
  }

  lemma EndWraps(c: Config, nodes: map<Ip, Node>, p: seq<Ip>, s: State) returns (i: nat)
    requires Asks(c, nodes) && Trail(c, p) && |p| > 256 && OnPath(c, nodes, p, s, 255)
    ensures Wraps(c, s, i)
  {
    PathNode(c, nodes, p, 256);
    assert s.nodes[p[256]] == nodes[p[256]];
    i := DeliverNext(c, s, Msg(p[256], p[255], Request(c, 255)));
  }

  /** On a trail of 256 links, delivering the front copy each time wraps its count. */
  lemma LongTrailWraps(c: Config, nodes: map<Ip, Node>, p: seq<Ip>) returns (tr: Trace, sched: Schedule, t: nat, i: nat)
    requires Asks(c, nodes) && Trail(c, p) && |p| > 256
    ensures IsTrace(c, tr, sched) && tr(0) == Begin(c, nodes) && Wraps(c, tr(t), i)
  {
    var chs := PathChoices(c, nodes, p, 255);
    tr, sched, t := RunOf(c, Begin(c, nodes), chs, Choice(0, true));
    i := EndWraps(c, nodes, p, tr(t));
  }

  /** Some schedule wraps a hop count if and only if some simple path of at least 256
      links leads from the originator over nodes that neither are the destination nor
      know a route to it, except perhaps the last. */
  lemma WrapIffLongTrail(c: Config, nodes: map<Ip, Node>)
    requires Asks(c, nodes)
    ensures CanWrap(c, nodes) <==> !NoLongTrail(c)
  {
    if !NoLongTrail(c) {
      var p :| Trail(c, p) && |p| > 256;
      var tr, sched, t, i := LongTrailWraps(c, nodes, p);
    } else if CanWrap(c, nodes) {
      var tr: Trace, sched: Schedule, t: nat, i: nat :|
        IsTrace(c, tr, sched) && tr(0) == Begin(c, nodes) && Wraps(c, tr(t), i);
      NoLongTrailNoWrap(c, nodes, tr, sched, t, i);
    }
  }

  // ----- The loop

  lemma LoopCloses(c: Config, s: State, a: Ip, b: Ip) returns (ch: Choice)
    requires GoodNet(c) && a in c.topo && a in s.nodes && a != b && a != c.orig && HasHeard(c, s.nodes[a], a, 255)
    requires Msg(a, b, Request(c, 0)) in s.wire
    ensures BackHop(c, Next(c, s, ch), a) == b && BackHop(c, Next(c, s, ch), b) == BackHop(c, s, b)
  {
    RestartedCopy(c, s.nodes[a], b);
    var i := DeliverNext(c, s, Msg(a, b, Request(c, 0)));
    ch := Choice(i, false);
    ChoiceIs(c, s, i);
  }

  lemma EndLoops(c: Config, nodes: map<Ip, Node>, p: seq<Ip>, s: State) returns (ch1: Choice, ch2: Choice)
    requires Asks(c, nodes) && Trail(c, p) && |p| > 256 && Relays(c, p[256]) && OnPath(c, nodes, p, s, 255)
    ensures var s' := Next(c, Next(c, s, ch1), ch2);
            BackHop(c, s', p[255]) == p[256] && BackHop(c, s', p[256]) == p[255]
  {
    PathNode(c, nodes, p, 255);
    PathNode(c, nodes, p, 256);
    assert s.nodes[p[256]] == nodes[p[256]] && p[255] != p[256];
    assert IsLink(c, p[255], p[256]);
    ch1 := CopyPasses(c, s, p[256], p[255], 255);
    var s1 := Next(c, s, ch1);
    assert s1.nodes[p[255]] == s.nodes[p[255]];
    ch2 := LoopCloses(c, s1, p[255], p[256]);
  }

  /** If the 256th link leads to a relay too, two more deliveries make the reverse next
      hops of the last two nodes point at each other. */
  lemma LongTrailLoops(c: Config, nodes: map<Ip, Node>, p: seq<Ip>) returns (tr: Trace, sched: Schedule, t: nat)
    requires Asks(c, nodes) && Trail(c, p) && |p| > 256 && Relays(c, p[256])
    ensures IsTrace(c, tr, sched) && tr(0) == Begin(c, nodes)
    ensures BackHop(c, tr(t), p[255]) == p[256] && BackHop(c, tr(t), p[256]) == p[255]
  {
    var s := Begin(c, nodes);
    var chs := PathChoices(c, nodes, p, 255);
    var ch1, ch2 := EndLoops(c, nodes, p, After(c, s, chs));
    var all := chs + [ch1, ch2];
    tr, sched, t := RunOf(c, s, all, Choice(0, true));
    AfterTwo(c, s, chs, ch1, ch2);
  }

  lemma AfterTwo(c: Config, s: State, chs: seq<Choice>, ch1: Choice, ch2: Choice)
    ensures After(c, s, chs + [ch1, ch2]) == Next(c, Next(c, After(c, s, chs), ch1), ch2)
  {
    assert (chs + [ch1, ch2])[..|chs| + 1] == chs + [ch1];
    assert (chs + [ch1])[..|chs|] == chs;
  }

  // ----- Which networks are safe

  /** Up to 256 nodes no count can wrap, whatever the links. */
  lemma SmallNetworksNeverWrap(c: Config)
    requires GoodNet(c) && |c.topo| <= 256
    ensures NoLongTrail(c)
  {
    forall p | Trail(c, p)
      ensures |p| <= 256
    {
      TrailFits(c, p);
    }
  }

  /** Nodes 1 to `n` in a line. */
  function Line(n: nat): Topology
    requires n < 0xFFFF_FFFF
  {
    map i | i in Upto(n) :: (if i > 1 then [i - 1] else []) + (if i < n then [i + 1] else [])
  }

  function Upto(n: nat): (s: set<Ip>)
    requires n < 0xFFFF_FFFF
    ensures forall i :: i in s <==> 1 <= i <= n
  {
    if n == 0 then {} else Upto(n - 1) + {n}
  }

  lemma LineLinks(c: Config, n: nat, v: Ip)
    requires n < 0xFFFF_FFFF && c.topo == Line(n) && 1 <= v < n
    ensures IsLink(c, v, v + 1) && v in c.topo
  {
    assert v in c.topo && c.topo[v][|c.topo[v]| - 1] == v + 1;
  }

  /** From one end of a line of more than 256 relays, a count can wrap. */
  lemma LongLinesWrap(c: Config, n: nat)
    requires 256 < n < 0xFFFF_FFFF && c.topo == Line(n) && c.orig == 1 && c.cache == map[] && c.dest !in c.topo
    ensures !NoLongTrail(c)
  {
    forall v: Ip, w: Ip | 1 <= v < n && w == v + 1
      ensures IsLink(c, v, w) && Relays(c, v)
    {
      LineLinks(c, n, v);
    }
    var p := LineTrail(c, n);
    assert |p| > 256;
  }

  lemma LineTrail(c: Config, n: nat) returns (p: seq<Ip>)
    requires 0 < n < 0xFFFF_FFFF && c.orig == 1
    requires forall v: Ip, w: Ip :: 1 <= v < n && w == v + 1 ==> IsLink(c, v, w) && Relays(c, v)
    ensures Trail(c, p) && |p| == n
  {
    p := seq(n, (i: nat) requires i < n => i + 1);
    forall i {:trigger p[i]} | 0 <= i < |p| - 1
      ensures IsLink(c, p[i], p[i + 1]) && Relays(c, p[i])
    {
      assert p[i] == i + 1 && p[i + 1] == i + 2;
    }
    assert NoRepeats(p);
  }
}
