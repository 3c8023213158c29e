/** One fresh route discovery on a static network with symmetric links: the state, its
    steps, whole runs, and the invariants they keep. */
module Discovery {
  import opened Packets
  import opened RoutingTable
  import opened NodeSpec
  import opened Network
  import opened Sets

  /** Each node's one-hop neighbours. */
  type Topology = map<Ip, seq<Ip>>

  /** A discovery: `orig` asks for `dest` with a sequence number and request id of its
      own, holding one payload for it. `cache` has the next hops of the nodes that knew
      a route before; `reply` is the number `dest` will answer with. */
  datatype Config = Config(topo: Topology, orig: Ip, dest: Ip, seqNum: U32, rreqId: U32, reply: U32,
                           cache: map<Ip, Ip>, port: int, payload: seq<U8>)

  /** A node that passes requests on, rather than answering them. */
  predicate Relays(c: Config, v: Ip) { v != c.dest && v !in c.cache }

  /** A simple path of links from the originator whose inner nodes pass requests on. */
  ghost predicate Trail(c: Config, p: seq<Ip>) {
    && p != [] && p[0] == c.orig && NoRepeats(p)
    && (forall i :: 0 <= i < |p| - 1 ==> IsLink(c, p[i], p[i + 1]))
    && (forall i :: 0 < i < |p| - 1 ==> Relays(c, p[i]))
  }

  predicate IsLink(c: Config, u: Ip, v: Ip) { u in c.topo && v in c.topo[u] }

  ghost predicate GoodNet(c: Config) {
    && c.orig in c.topo && c.dest != c.orig && c.dest != BROADCAST && c.orig !in c.cache
    && c.seqNum > 0
    && NO_HOP !in c.topo && BROADCAST !in c.topo
    && (forall v :: v in c.topo ==> NoRepeats(c.topo[v]))
    && (forall v, w :: IsLink(c, v, w) ==> w in c.topo && v in c.topo[w])
  }

  /** No trail has 256 links, so that no 8-bit hop count can wrap. */
  ghost predicate NoLongTrail(c: Config) { forall p :: Trail(c, p) ==> |p| <= 256 }

  ghost predicate GoodConfig(c: Config) { GoodNet(c) && NoLongTrail(c) }

  function Request(c: Config, hops: U8): Packet { RreqPacket(Rreq(hops, c.rreqId, c.dest, 0, c.orig, c.seqNum)) }

  function Reply(c: Config, hops: U8): Packet { RrepPacket(Rrep(hops, c.dest, c.reply, c.orig)) }

  function Data(c: Config): Packet { DataPacket(c.port, MakeFrame(c.dest, c.orig, c.payload)) }

  /** The network during a discovery. `clock` counts steps, `stamp` says when each node's
      route to the destination was last written, and `level` how many hops from the
      originator a node stored when it first had such a route; no handler reads them. */
  datatype State = State(nodes: map<Ip, Node>, wire: seq<Msg>, handed: seq<(Ip, Output)>,
                         clock: nat, stamp: map<Ip, nat>, level: map<Ip, nat>)

  // ----- Steps

  function Spread(from: Ip, to: seq<Ip>, p: Packet): (ms: seq<Msg>)
    ensures |ms| == |to| && forall i :: 0 <= i < |to| ==> ms[i] == Msg(to[i], from, p)
  {
    if to == [] then [] else [Msg(to[0], from, p)] + Spread(from, to[1..], p)
  }

  lemma InSpread(from: Ip, to: seq<Ip>, p: Packet, w: Ip)
    requires w in to
    ensures Msg(w, from, p) in Spread(from, to, p)
  {
    var j :| 0 <= j < |to| && to[j] == w;
    assert Spread(from, to, p)[j] == Msg(w, from, p);
  }

  /** A broadcast reaches every neighbour, a unicast the named one if it is in range. */
  function EmitOne(c: Config, from: Ip, o: Output): seq<Msg>
    requires from in c.topo
  {
    match o
    case Send(to, p) =>
      if to == BROADCAST then Spread(from, c.topo[from], p)
      else if to in c.topo[from] then [Msg(to, from, p)] else []
    case Hand(_, _, _) => []
  }

  function Emit(c: Config, from: Ip, out: seq<Output>): seq<Msg>
    requires from in c.topo
  {
    if out == [] then [] else EmitOne(c, from, out[0]) + Emit(c, from, out[1..])
  }

  function Hands(at: Ip, out: seq<Output>): seq<(Ip, Output)> {
    if out == [] then []
    else (if out[0].Hand? then [(at, out[0])] else []) + Hands(at, out[1..])
  }

  predicate Enabled(c: Config, s: State, i: int) {
    0 <= i < |s.wire| && s.wire[i].to in c.topo && s.wire[i].to in s.nodes
  }

  function Route(t: Table, dest: Ip): (int, int, int, bool) {
    (NextHop(t, dest), SeqOf(t, dest), HopsOf(t, dest), Active(t, dest))
  }

  /** The state once node `v` has reacted with `r` to a message it took off the wire. */
  function Apply(c: Config, s: State, v: Ip, r: Result, rest: seq<Msg>): State
    requires v in c.topo && v in s.nodes
  {
    State(s.nodes[v := r.node], rest + Emit(c, v, r.out), s.handed + Hands(v, r.out), s.clock + 1,
          if Route(s.nodes[v].table, c.dest) == Route(r.node.table, c.dest) then s.stamp else s.stamp[v := s.clock + 1],
          if Active(s.nodes[v].table, c.dest) || !Active(r.node.table, c.dest) then s.level
          else s.level[v := BackOf(c, v, r.node)])
  }

  function Without(ms: seq<Msg>, i: nat): seq<Msg>
    requires i < |ms|
  {
    ms[..i] + ms[i + 1..]
  }

  function Reaction(c: Config, s: State, i: nat): Result
    requires Enabled(c, s, i)
  {
    Receive(s.nodes[s.wire[i].to], s.wire[i].packet, s.wire[i].from)
  }

  /** Deliver any message in flight, whichever comes first. */
  function Deliver(c: Config, s: State, i: nat): State
    requires Enabled(c, s, i)
  {
    Apply(c, s, s.wire[i].to, Reaction(c, s, i), Without(s.wire, i))
  }

  function Lose(s: State, i: nat): State
    requires i < |s.wire|
  {
    s.(wire := Without(s.wire, i))
  }

  // ----- The start

  /** The originator has no route to the destination, its next sequence number is above
      every number stored for it, and its next request id is unused. Any other node may
      have any route to the destination, over a link that exists. */
  ghost predicate Asks(c: Config, nodes: map<Ip, Node>) {
    && GoodNet(c) && nodes.Keys == c.topo.Keys
    && c.seqNum == Inc32(nodes[c.orig].seqNum) && c.rreqId == Inc32(nodes[c.orig].rreqId)
    && (forall v :: v in c.cache <==> v in nodes && v != c.dest && Active(nodes[v].table, c.dest))
    && (forall v :: v in c.cache ==> c.cache[v] == NextHop(nodes[v].table, c.dest))
    && forall v :: v in nodes ==> StartsWell(c, nodes[v], v)
  }

  ghost predicate StartsWell(c: Config, n: Node, v: Ip)
    requires v in c.topo
  {
    && n.ip == v
    && (forall x :: x in n.neighbors <==> x in c.topo[v])
    && (v != c.dest && Active(n.table, c.dest) ==> NextHop(n.table, c.dest) in c.topo[v])
    && (v != c.orig ==> SeqOf(n.table, c.orig) < c.seqNum && c.rreqId !in SeenFrom(n, c.orig))
  }

  /** The originator sends the payload: it is held and the request goes out. */
  function Begin(c: Config, nodes: map<Ip, Node>): State
    requires c.orig in nodes && c.orig in c.topo
  {
    var r := SendPacket(nodes[c.orig], c.port, c.payload, c.dest, BROADCAST);
    State(nodes[c.orig := r.node], Emit(c, c.orig, r.out), [], 0, map v | v in nodes :: 0, map[])
  }

  // ----- Runs

  /** What the network does next: which message, counted around the wire, and
      whether it arrives or is lost. */
  datatype Choice = Choice(which: nat, lost: bool)

  type Schedule = nat -> Choice

  function Next(c: Config, s: State, ch: Choice): State {
    if s.wire == [] then s
    else
      var i := ch.which % |s.wire|;
      if ch.lost || !Enabled(c, s, i) then Lose(s, i) else Deliver(c, s, i)
  }

  /** A run: the state at each time. */
  type Trace = nat -> State

  ghost predicate StepsAt(c: Config, tr: Trace, sched: Schedule, t: nat) { tr(t + 1) == Next(c, tr(t), sched(t)) }

  ghost predicate IsTrace(c: Config, tr: Trace, sched: Schedule) {
    forall t: nat {:trigger StepsAt(c, tr, sched, t)} :: StepsAt(c, tr, sched, t)
  }

  /** Does this step handle message `j`? */
  predicate IsTurn(s: State, j: nat, ch: Choice) { j < |s.wire| && ch.which % |s.wire| == j }

  /** The position of message `j` after a step, or of what it is passed on as. */
  function Moved(s: State, j: nat, ch: Choice): nat
    requires j < |s.wire|
  {
    var i := ch.which % |s.wire|;
    if i == j then |s.wire| - 1
    else if i < j then j - 1 else j
  }

  /** Message `j` of the state at time `t` is first handled `n` steps later. */
  ghost predicate TurnAt(tr: Trace, sched: Schedule, t: nat, j: nat, n: nat)
    decreases n
  {
    && j < |tr(t).wire|
    && if n == 0 then IsTurn(tr(t), j, sched(t))
       else !IsTurn(tr(t), j, sched(t)) && TurnAt(tr, sched, t + 1, Moved(tr(t), j, sched(t)), n - 1)
  }

  ghost predicate HandledLater(tr: Trace, sched: Schedule, t: nat, j: nat) { exists n :: TurnAt(tr, sched, t, j, n) }

  /** Every message in flight is handled at some time: delivered or lost. */
  ghost predicate Fair(tr: Trace, sched: Schedule) {
    forall t: nat, j: nat {:trigger HandledLater(tr, sched, t, j)} :: j < |tr(t).wire| ==> HandledLater(tr, sched, t, j)
  }

  ghost predicate Lossless(sched: Schedule) { forall t: nat :: !sched(t).lost }

  // ----- What the tables say about the two routes

  /** Hops from `v` back to the originator, as stored. */
  function BackOf(c: Config, v: Ip, n: Node): nat { if v == c.orig then 0 else HopsOf(n.table, c.orig) }

  /** Has `v` a reverse route of this discovery? */
  predicate Stored(c: Config, s: State, v: Ip) {
    v == c.orig || (v in s.nodes && SeqOf(s.nodes[v].table, c.orig) == c.seqNum)
  }

  function Back(c: Config, s: State, v: Ip): nat { if v in s.nodes then BackOf(c, v, s.nodes[v]) else 0 }

  function BackHop(c: Config, s: State, v: Ip): Ip {
    if v in s.nodes then NextHop(s.nodes[v].table, c.orig) else NO_HOP
  }

  /** Has `v` an active route to the destination? */
  predicate Routed(c: Config, s: State, v: Ip) { v in s.nodes && Active(s.nodes[v].table, c.dest) }

  function Ahead(c: Config, s: State, v: Ip): nat { if v in s.nodes then HopsOf(s.nodes[v].table, c.dest) else 0 }

  function AheadHop(c: Config, s: State, v: Ip): Ip {
    if v in s.nodes then NextHop(s.nodes[v].table, c.dest) else NO_HOP
  }

  function Stamp(s: State, v: Ip): nat { if v in s.stamp then s.stamp[v] else 0 }

  /** The stored distance, frozen when a route to the destination opens. */
  function Level(c: Config, s: State, v: Ip): nat {
    if Routed(c, s, v) && v in s.level then s.level[v] else Back(c, s, v)
  }

  // ----- The invariant of the flood and of the replies it causes

  ghost predicate SiteOk(c: Config, s: State, v: Ip) {
    && v in c.topo && v in s.nodes
    && s.nodes[v].ip == v
    && (forall x :: x in s.nodes[v].neighbors <==> x in c.topo[v])
    && (v in c.cache ==> Routed(c, s, v))
    && (v != c.dest && Routed(c, s, v) ==> AheadHop(c, s, v) in c.topo[v])
  }

  ghost predicate HasTrail(c: Config, v: Ip, hops: nat) {
    exists p :: Trail(c, p) && |p| == hops + 1 && p[hops] == v
  }

  /** A reverse route is older than the discovery and open to its request, or part of
      it: then its next hop is a neighbour strictly closer to the originator. */
  ghost predicate BackOk(c: Config, s: State, v: Ip)
    requires v in s.nodes && v in c.topo
  {
    v != c.orig ==>
      if !Stored(c, s, v) then
        SeqOf(s.nodes[v].table, c.orig) < c.seqNum && c.rreqId !in SeenFrom(s.nodes[v], c.orig)
      else
        && BackHop(c, s, v) in c.topo[v] && Relays(c, BackHop(c, s, v))
        && Stored(c, s, BackHop(c, s, v)) && Back(c, s, BackHop(c, s, v)) < Back(c, s, v)
        && HasTrail(c, v, Back(c, s, v))
  }

  ghost predicate NodeOk(c: Config, s: State, v: Ip)
    requires v in c.topo
  {
    SiteOk(c, s, v) && BackOk(c, s, v)
  }

  /** Every node of a path stores at most its distance along it. */
  ghost predicate Climbs(c: Config, s: State, p: seq<Ip>) {
    forall k {:trigger p[k]} :: 0 <= k < |p| ==> Stored(c, s, p[k]) && Back(c, s, p[k]) <= k
  }

  /** A request with hop count `hops` has travelled a trail of so many links. */
  ghost predicate RequestOk(c: Config, s: State, from: Ip, hops: nat) {
    && Relays(c, from)
    && exists p :: Trail(c, p) && |p| == hops + 1 && p[hops] == from && Climbs(c, s, p)
  }

  ghost predicate ReplyOk(c: Config, s: State, to: Ip) {
    Relays(c, to) && Stored(c, s, to)
  }

  /** Messages of other discoveries of the same destination can only be there once the
      originator has its route: then a relay without one may ask for itself. */
  ghost predicate MsgOk(c: Config, s: State, m: Msg) {
    && m.from in c.topo && m.to in c.topo[m.from]
    && match m.packet
       case RreqPacket(q) =>
         if q.origIp == c.orig then m.packet == Request(c, q.hopCount) && RequestOk(c, s, m.from, q.hopCount)
         else q.origIp != c.dest && q.destIp == c.dest && Routed(c, s, c.orig)
       case RrepPacket(p) =>
         && p.destIp == c.dest
         && if p.origIp == c.orig then ReplyOk(c, s, m.to) else p.origIp != c.dest && Routed(c, s, c.orig)
       case DataPacket(_, f) => FrameDest(f) == c.dest && Routed(c, s, c.orig)
       case RerrPacket(_) => false
  }

  ghost predicate Inv(c: Config, s: State) {
    && s.nodes.Keys == c.topo.Keys
    && (forall v {:trigger NodeOk(c, s, v)} :: v in c.topo ==> NodeOk(c, s, v))
    && (forall m {:trigger MsgOk(c, s, m)} :: m in s.wire ==> MsgOk(c, s, m))
  }

  // ----- What only ever improves

  /** Reverse routes appear and shorten, and no route is lost. */
  ghost predicate Grows(c: Config, s: State, s': State) {
    && s'.nodes.Keys == s.nodes.Keys
    && (forall v :: Stored(c, s, v) ==>
          Stored(c, s', v) && Back(c, s', v) <= Back(c, s, v) && Level(c, s', v) <= Level(c, s, v))
    && (forall v :: Routed(c, s, v) ==> Routed(c, s', v))
    && (forall v :: Routed(c, s, v) && v in s.level ==> v in s'.level && s'.level[v] == s.level[v])
  }

  /** The messages of the discovery itself: its request and the replies to it. */
  predicate IsOwn(c: Config, m: Msg) {
    (m.packet.RreqPacket? && m.packet.rreq.origIp == c.orig) || (m.packet.RrepPacket? && m.packet.rrep.origIp == c.orig)
  }
}
