/** Two runs from an empty network whose routes loop: one accepts an older number with
    fewer hops, the other a reply that is no better while its route is inactive. */
module ConcurrentLoops {
  import opened Packets
  import opened RoutingTable
  import opened NodeSpec
  import opened Network
  import opened ConcurrentRoutes
  import RreqIds

  // ----- Building runs

  /** What a node sends, as it then is in flight. */
  function Outgoing(v: Ip, out: seq<Output>): seq<Msg> {
    if out == [] then []
    else (if out[0].Send? then [Msg(out[0].to, v, out[0].packet)] else []) + Outgoing(v, out[1..])
  }

  /** A move that loses nothing. */
  function Play(s: Net, mv: Move): Net {
    if mv.actor !in s.nodes then s
    else
      var r := React(s.nodes[mv.actor], mv.input);
      Net(s.nodes[mv.actor := r.node], s.wire + Outgoing(mv.actor, r.out))
  }

  lemma OutgoingIsSent(v: Ip, out: seq<Output>, m: Msg)
    requires m in Outgoing(v, out)
    ensures m.from == v && Sent(out, m.packet)
  {
    if out[0].Send? && m == Msg(out[0].to, v, out[0].packet) {
      assert Sent(out, m.packet);
    } else {
      OutgoingIsSent(v, out[1..], m);
      var i :| 0 <= i < |out[1..]| && out[1..][i].Send? && out[1..][i].packet == m.packet;
      assert out[i + 1].Send? && out[i + 1].packet == m.packet;
    }
  }

  lemma PlayIsStep(s: Net, mv: Move)
    requires mv.actor in s.nodes && (mv.input.Incoming? ==> InFlight(s.wire, mv.input.source, mv.input.packet))
    ensures HonestStep(s, mv.actor, mv.input, Play(s, mv))
  {
    forall m | m in Play(s, mv).wire && m !in s.wire
      ensures m.from == mv.actor && Sent(React(s.nodes[mv.actor], mv.input).out, m.packet)
    {
      OutgoingIsSent(mv.actor, React(s.nodes[mv.actor], mv.input).out, m);
    }
  }

  /** The states of playing some moves. */
  function PlayAll(s: Net, moves: seq<Move>): (states: seq<Net>)
    ensures |states| == |moves| + 1 && states[0] == s
  {
    if moves == [] then [s]
    else
      var before := PlayAll(s, moves[..|moves| - 1]);
      before + [Play(before[|before| - 1], moves[|moves| - 1])]
  }

  function Last(s: Net, moves: seq<Move>): Net { PlayAll(s, moves)[|moves|] }

  /** A run of moves from `s`, of which each could be made. */
  ghost predicate Playable(s: Net, moves: seq<Move>) { IsHonestRun(PlayAll(s, moves), moves) }

  /** One more move. */
  lemma PlayMore(s: Net, moves: seq<Move>, mv: Move)
    requires Playable(s, moves) && mv.actor in Last(s, moves).nodes
    requires mv.input.Incoming? ==> InFlight(Last(s, moves).wire, mv.input.source, mv.input.packet)
    ensures Playable(s, moves + [mv]) && Last(s, moves + [mv]) == Play(Last(s, moves), mv)
  {
    var more := moves + [mv];
    assert more[..|more| - 1] == moves;
    var states, all := PlayAll(s, moves), PlayAll(s, more);
    assert all == states + [Play(states[|states| - 1], mv)];
    PlayIsStep(Last(s, moves), mv);
    forall i {:trigger more[i]} | 0 <= i < |more|
      ensures HonestStep(all[i], more[i].actor, more[i].input, all[i + 1])
    {
      if i < |moves| { assert moves[i] == more[i]; }
    }
  }

  // ----- Nodes

  /** A node with nothing but a table, ids seen, held payloads and neighbours. */
  function Plain(ip: Ip, seqNum: U32, id: U32, table: Table, seen: map<Ip, set<int>>, pending: map<Ip, Pending>,
                 neighbors: seq<Ip>): Node {
    Node(ip, seqNum, id, table, seen, pending, neighbors, {})
  }

  function NewNode(ip: Ip): Node { Plain(ip, 0, 0, map[], map[], map[], []) }

  lemma FewIds(s: set<int>, id: int)
    requires |s| < 100
    ensures RreqIds.Remember(s, id) == s + {id}
  {
  }

  // ----- An older number with fewer hops

  /** Node 1's first and second request for node 9, over some links. */
  function First(hops: U8): Rreq { Rreq(hops, 1, 9, 0, 1, 1) }

  function Second(hops: U8): Rreq { Rreq(hops, 2, 9, 0, 1, 2) }

  function FiveNodes(): Net {
    Net(map[1 := NewNode(1), 2 := NewNode(2), 3 := NewNode(3), 4 := NewNode(4), 5 := NewNode(5)], [])
  }

  function Hears(v: Ip, q: Rreq, from: Ip): Move { Move(v, Incoming(RreqPacket(q), from)) }

  /** A relay that accepts a copy stores it and passes it on. */
  lemma CopyHeard(ip: Ip, table: Table, ids: set<int>, seen: map<Ip, set<int>>, q: Rreq, from: Ip)
    requires ip != 1 && ip != 9 && q.destIp == 9 && q.origIp == 1 && q.hopCount < 255 && !Active(table, 9)
    requires ids == (if 1 in seen then seen[1] else {}) && |ids| < 100 && q.rreqId !in ids
             && q.origSeq != SeqOf(table, 1)
    requires RreqImproves(table, q.(hopCount := q.hopCount + 1))
    ensures React(Plain(ip, 0, 0, table, seen, map[], []), Incoming(RreqPacket(q), from))
         == Result(Plain(ip, 0, 0, table[1 := Entry(from, q.origSeq, q.hopCount + 1, q.rreqId, true)],
                         seen[1 := ids + {q.rreqId as int}], map[], []),
                   [Send(BROADCAST, RreqPacket(q.(hopCount := q.hopCount + 1)))])
  {
    FewIds(ids, q.rreqId);
  }

  /** What hearing a copy does to the network. */
  lemma CopySpreads(s: Net, v: Ip, table: Table, ids: set<int>, seen: map<Ip, set<int>>, q: Rreq, from: Ip)
    requires v in s.nodes && s.nodes[v] == Plain(v, 0, 0, table, seen, map[], [])
    requires v != 1 && v != 9 && q.destIp == 9 && q.origIp == 1 && q.hopCount < 255 && !Active(table, 9)
    requires ids == (if 1 in seen then seen[1] else {}) && |ids| < 100 && q.rreqId !in ids
             && q.origSeq != SeqOf(table, 1)
    requires RreqImproves(table, q.(hopCount := q.hopCount + 1))
    ensures Play(s, Hears(v, q, from))
         == Net(s.nodes[v := Plain(v, 0, 0, table[1 := Entry(from, q.origSeq, q.hopCount + 1, q.rreqId, true)],
                                   seen[1 := ids + {q.rreqId as int}], map[], [])],
                s.wire + [Msg(BROADCAST, v, RreqPacket(q.(hopCount := q.hopCount + 1)))])
  {
    CopyHeard(v, table, ids, seen, q, from);
    OneOutgoing(v, Send(BROADCAST, RreqPacket(q.(hopCount := q.hopCount + 1))));
  }

  lemma OneOutgoing(v: Ip, o: Output)
    requires o.Send?
    ensures Outgoing(v, [o]) == [Msg(o.to, v, o.packet)]
  {
    assert Outgoing(v, [o][1..]) == [];
  }

  /** The message a step needs is in flight. */
  lemma IsInFlight(wire: seq<Msg>, i: nat)
    requires i < |wire|
    ensures InFlight(wire, wire[i].from, wire[i].packet)
  {
    assert wire[i] in wire;
  }

  function Asks(): Move { Move(1, Originate(80, [], 9, BROADCAST)) }

  lemma AskTwice() returns (moves: seq<Move>)
    ensures Playable(FiveNodes(), moves)
    ensures var s := Last(FiveNodes(), moves);
            && s.nodes.Keys == {1, 2, 3, 4, 5}
            && (forall v :: v in {2, 3, 4, 5} ==> s.nodes[v] == NewNode(v))
            && s.wire == [Copy(1, First(0)), Copy(1, Second(0))]
  {
    var s := FiveNodes();
    assert Playable(s, []);
    PlayMore(s, [], Asks());
    var s1 := Last(s, [] + [Asks()]);
    OneOutgoing(1, Send(BROADCAST, RreqPacket(First(0))));
    assert s1.wire == [Msg(BROADCAST, 1, RreqPacket(First(0)))];
    PlayMore(s, [] + [Asks()], Asks());
    OneOutgoing(1, Send(BROADCAST, RreqPacket(Second(0))));
    moves := [] + [Asks()] + [Asks()];
  }

  /** One more copy is heard. */
  lemma HearMore(s0: Net, moves: seq<Move>, v: Ip, table: Table, ids: set<int>, seen: map<Ip, set<int>>, q: Rreq,
      from: Ip, i: nat)
    returns (more: seq<Move>)
    requires Playable(s0, moves)
    requires var s := Last(s0, moves);
             && v in s.nodes && s.nodes[v] == Plain(v, 0, 0, table, seen, map[], [])
             && i < |s.wire| && s.wire[i].from == from && s.wire[i].packet == RreqPacket(q)
    requires v != 1 && v != 9 && q.destIp == 9 && q.origIp == 1 && q.hopCount < 255 && !Active(table, 9)
    requires ids == (if 1 in seen then seen[1] else {}) && |ids| < 100 && q.rreqId !in ids
             && q.origSeq != SeqOf(table, 1)
    requires RreqImproves(table, q.(hopCount := q.hopCount + 1))
    ensures Playable(s0, more)
    ensures var s := Last(s0, moves);
            Last(s0, more) == Net(s.nodes[v := Plain(v, 0, 0,
                                                     table[1 := Entry(from, q.origSeq, q.hopCount + 1, q.rreqId, true)],
                                                     seen[1 := ids + {q.rreqId as int}], map[], [])],
                                  s.wire + [Msg(BROADCAST, v, RreqPacket(q.(hopCount := q.hopCount + 1)))])
  {
    IsInFlight(Last(s0, moves).wire, i);
    PlayMore(s0, moves, Hears(v, q, from));
    CopySpreads(Last(s0, moves), v, table, ids, seen, q, from);
    more := moves + [Hears(v, q, from)];
  }

  function Copy(v: Ip, q: Rreq): Msg { Msg(BROADCAST, v, RreqPacket(q)) }

  /** Node `v` after it has accepted some copies. */
  function Knows(v: Ip, e: Entry, ids: set<int>): Node { Plain(v, 0, 0, map[1 := e], map[1 := ids], map[], []) }

  /** A node that knew nothing hears a copy. */
  lemma HearFirst(s0: Net, moves: seq<Move>, v: Ip, q: Rreq, from: Ip, i: nat) returns (more: seq<Move>)
    requires Playable(s0, moves)
    requires var s := Last(s0, moves);
             v in s.nodes && s.nodes[v] == NewNode(v) && i < |s.wire| && s.wire[i] == Copy(from, q)
    requires v != 1 && v != 9 && q.destIp == 9 && q.origIp == 1 && q.hopCount < 255 && q.origSeq > 0
    ensures Playable(s0, more)
    ensures var s, h := Last(s0, moves), q.hopCount + 1;
            Last(s0, more) ==
            Net(s.nodes[v := Knows(v, Entry(from, q.origSeq, h, q.rreqId, true), {q.rreqId as int})],
                s.wire + [Copy(v, q.(hopCount := h))])
  {
    more := HearMore(s0, moves, v, map[], {}, map[], q, from, i);
    assert {} + {q.rreqId as int} == {q.rreqId as int};
  }

  lemma FirstCopies() returns (moves: seq<Move>)
    ensures Playable(FiveNodes(), moves)
    ensures var s := Last(FiveNodes(), moves);
            && {2, 3, 4, 5} <= s.nodes.Keys
            && s.nodes[2] == Knows(2, Entry(1, 1, 1, 1, true), {1}) && s.nodes[3] == NewNode(3)
            && s.nodes[5] == NewNode(5)
            && s.wire == [Copy(1, First(0)), Copy(1, Second(0)), Copy(2, First(1)), Copy(4, Second(1))]
  {
    var s0 := FiveNodes();
    moves := AskTwice();
    moves := HearFirst(s0, moves, 2, First(0), 1, 0);
    moves := HearFirst(s0, moves, 4, Second(0), 1, 1);
  }

  lemma FifthCopy() returns (moves: seq<Move>)
    ensures Playable(FiveNodes(), moves)
    ensures var s := Last(FiveNodes(), moves);
            && {2, 3} <= s.nodes.Keys
            && s.nodes[2] == Knows(2, Entry(1, 1, 1, 1, true), {1}) && s.nodes[3] == NewNode(3)
            && |s.wire| == 5 && s.wire[2] == Copy(2, First(1)) && s.wire[4] == Copy(5, Second(2))
  {
    moves := FirstCopies();
    moves := HearFirst(FiveNodes(), moves, 5, Second(1), 4, 3);
  }

  lemma LaterCopies() returns (moves: seq<Move>)
    ensures Playable(FiveNodes(), moves)
    ensures var s := Last(FiveNodes(), moves);
            && {2, 3} <= s.nodes.Keys
            && s.nodes[2] == Knows(2, Entry(1, 1, 1, 1, true), {1})
            && s.nodes[3] == Knows(3, Entry(5, 2, 3, 2, true), {2})
            && |s.wire| == 6 && s.wire[2] == Copy(2, First(1)) && s.wire[5] == Copy(3, Second(3))
  {
    moves := FifthCopy();
    moves := HearFirst(FiveNodes(), moves, 3, Second(2), 5, 4);
  }

  /** Node 1 asks twice. Node 2 hears the first request at once; node 3 hears the second
      over 4 and 5, and then the first, delayed, from 2: an older number, but fewer hops.
      Node 2 then hears the second from 3, and the next hops of 2 and 3 back to 1 point at
      each other. */
  lemma OlderNumbersLoop() returns (states: seq<Net>, moves: seq<Move>)
    ensures IsHonestRun(states, moves) && states[0] == FiveNodes()
    ensures var s := states[|moves|]; Points(s, 1, 2, 3) && Points(s, 1, 3, 2)
  {
    var s0 := FiveNodes();
    moves := LaterCopies();
    moves := HearMore(s0, moves, 3, map[1 := Entry(5, 2, 3, 2, true)], {2}, map[1 := {2}], First(1), 2, 2);
    moves := HearMore(s0, moves, 2, map[1 := Entry(1, 1, 1, 1, true)], {1}, map[1 := {1}], Second(3), 3, 5);
    states := PlayAll(s0, moves);
  }

  /** In general: if relay `v` breaks the guard by accepting an older, shorter copy from
      relay `u` while its own copy of a newer request is in flight, and `u` knows neither
      that request's id nor so new a number, one more step closes a loop between the two. */
  lemma BrokenGuardLoops(s: Net, u: Ip, v: Ip, x: Ip, older: Rreq, newer: Rreq)
    requires u in s.nodes && s.nodes[u].ip == u && v in s.nodes && s.nodes[v].ip == v && u != v && u != x
    requires InFlight(s.wire, u, RreqPacket(older)) && older.origIp == x && older.hopCount < 255 && older.origSeq > 0
    requires !RequestGuard(s.nodes[v], older, x)
    requires InFlight(s.wire, v, RreqPacket(newer)) && newer.origIp == x
    requires newer.origSeq > SeqOf(s.nodes[u].table, x) && newer.rreqId !in SeenFrom(s.nodes[u], x)
    ensures var s1 := Play(s, Hears(v, older, u));
            var s2 := Play(s1, Hears(u, newer, v));
            && HonestStep(s, v, Hears(v, older, u).input, s1) && HonestStep(s1, u, Hears(u, newer, v).input, s2)
            && Points(s2, x, v, u) && Points(s2, x, u, v)
  {
    var s1 := Play(s, Hears(v, older, u));
    PlayIsStep(s, Hears(v, older, u));
    AcceptedLearns(s.nodes[v], older, u);
    assert s1.nodes[u] == s.nodes[u];
    PlayIsStep(s1, Hears(u, newer, v));
    AcceptedLearns(s.nodes[u], newer, v);
  }

  // ----- A reply that is no better, after a route error

  /** One more move, whose reaction is known. */
  lemma MoveMore(s0: Net, moves: seq<Move>, mv: Move, n: Node, r: Result, i: nat) returns (more: seq<Move>)
    requires Playable(s0, moves) && mv.actor in Last(s0, moves).nodes && Last(s0, moves).nodes[mv.actor] == n
    requires mv.input.Incoming? ==>
               && i < |Last(s0, moves).wire| && Last(s0, moves).wire[i].from == mv.input.source
               && Last(s0, moves).wire[i].packet == mv.input.packet
    requires React(n, mv.input) == r
    ensures Playable(s0, more)
    ensures var s := Last(s0, moves);
            Last(s0, more) == Net(s.nodes[mv.actor := r.node], s.wire + Outgoing(mv.actor, r.out))
  {
    if mv.input.Incoming? { IsInFlight(Last(s0, moves).wire, i); }
    PlayMore(s0, moves, mv);
    more := moves + [mv];
  }

  function TwoNodes(): Net { Net(map[2 := NewNode(2), 3 := NewNode(3)], []) }

  const Held: map<Ip, Pending> := map[1 := [Buffered(80, [])]]

  /** Node 2 with its links up: 1 and 3 are neighbours. */
  function Linked2(): Node {
    Plain(2, 0, 0, map[1 := Entry(1, 0, 0, 0, true), 3 := Entry(3, 0, 0, 0, true)], map[], map[], [1, 3])
  }

  function Linked3(): Node { Plain(3, 0, 0, map[2 := Entry(2, 0, 0, 0, true)], map[], map[], [2]) }

  function Asking3(): Node { Plain(3, 1, 1, map[2 := Entry(2, 0, 0, 0, true)], map[], Held, [2]) }

  function Answered2(neighbors: seq<Ip>, active: bool): Node {
    Plain(2, 0, 0, map[1 := Entry(1, 0, 0, 0, active), 3 := Entry(3, 1, 1, 1, true)], map[3 := {1}], map[], neighbors)
  }

  function Routed3(): Node {
    Plain(3, 1, 1, map[2 := Entry(2, 0, 0, 0, true), 1 := Entry(2, 0, 0, 0, true)], map[], map[], [2])
  }

  function Asking2(): Node {
    Plain(2, 1, 1, map[1 := Entry(1, 0, 0, 0, false), 3 := Entry(3, 1, 1, 1, true)], map[3 := {1}], Held, [3])
  }

  function Answered3(): Node {
    Plain(3, 1, 1, map[2 := Entry(2, 1, 1, 1, true), 1 := Entry(2, 0, 0, 0, true)], map[2 := {1}], map[], [2])
  }

  function Routed2(): Node {
    Plain(2, 1, 1, map[1 := Entry(3, 0, 0, 0, true), 3 := Entry(3, 1, 1, 1, true)], map[3 := {1}], map[], [3])
  }

  const Wants1: Input := Originate(80, [], 1, BROADCAST)

  function Asked(ip: Ip): Packet { RreqPacket(Rreq(0, 1, 1, 0, ip, 1)) }

  function Told(to: Ip): Packet { RrepPacket(Rrep(0, 1, 0, to)) }

  function Payload(ip: Ip): Packet { DataPacket(80, MakeFrame(1, ip, [])) }

  lemma LinksComeUp()
    ensures React(NewNode(2), LinkUp(1)).node == Plain(2, 0, 0, map[1 := Entry(1, 0, 0, 0, true)], map[], map[], [1])
    ensures React(Plain(2, 0, 0, map[1 := Entry(1, 0, 0, 0, true)], map[], map[], [1]), LinkUp(3))
            == Result(Linked2(), [])
    ensures React(NewNode(3), LinkUp(2)) == Result(Linked3(), [])
    ensures React(Answered2([1, 3], true), LinksReset) == Result(Answered2([], true), [])
    ensures React(Answered2([], true), LinkUp(3)) == Result(Answered2([3], true), [])
  {
  }

  lemma HoldsOne(n: Node)
    requires n.pending == map[]
    ensures Hold(n, 1, Buffered(80, [])) == n.(pending := Held)
  {
    assert [] + [Buffered(80, [])] == [Buffered(80, [])];
  }

  lemma BothAsk()
    ensures React(Linked3(), Wants1) == Result(Asking3(), [Send(BROADCAST, Asked(3))])
    ensures React(Answered2([3], false), Wants1) == Result(Asking2(), [Send(BROADCAST, Asked(2))])
  {
    HoldsOne(Linked3());
    HoldsOne(Answered2([3], false));
  }

  lemma BothAnswer()
    ensures React(Linked2(), Incoming(Asked(3), 3)) == Result(Answered2([1, 3], true), [Send(3, Told(3))])
    ensures React(Routed3(), Incoming(Asked(2), 2)) == Result(Answered3(), [Send(2, Told(2))])
  {
    FewIds({}, 1);
  }

  lemma Hears3()
    ensures React(Asking3(), Incoming(Told(3), 2)) == Result(Routed3(), [Send(2, Payload(3))])
  {
    Drains(Asking3(), Told(3).rrep, 2);
  }

  lemma Hears2()
    ensures React(Asking2(), Incoming(Told(2), 3)) == Result(Routed2(), [Send(3, Payload(2))])
  {
    Drains(Asking2(), Told(2).rrep, 3);
  }

  lemma Drains(n: Node, p: Rrep, source: Ip)
    requires n.ip == p.origIp && p.destIp in n.pending && |n.pending[p.destIp]| == 1
    ensures var n1 := n.(table := UpdateFromRrep(n.table, p, source));
            var b := n.pending[p.destIp][0];
            var r := SendPacket(n1.(pending := n.pending[p.destIp := []]), b.port, b.payload, p.destIp, BROADCAST);
            HandleRrep(n, p, source) == Result(r.node.(pending := n.pending - {p.destIp}), r.out)
  {
    DrainOne(n.(table := UpdateFromRrep(n.table, p, source)), p.destIp);
  }

  lemma LinkIsGone()
    ensures React(Answered2([3], true), Incoming(Payload(3), 3))
         == Result(Answered2([3], false), [Send(3, RerrPacket(Rerr(1, 0, 3)))])
  {
    FrameRoundTrip(1, 3, []);
  }

  lemma LinksUp() returns (moves: seq<Move>)
    ensures Playable(TwoNodes(), moves)
    ensures var s := Last(TwoNodes(), moves);
            {2, 3} <= s.nodes.Keys && s.nodes[2] == Linked2() && s.nodes[3] == Linked3() && s.wire == []
  {
    var s0 := TwoNodes();
    LinksComeUp();
    assert Playable(s0, []);
    moves := MoveMore(s0, [], Move(2, LinkUp(1)), NewNode(2), React(NewNode(2), LinkUp(1)), 0);
    moves := MoveMore(s0, moves, Move(2, LinkUp(3)), React(NewNode(2), LinkUp(1)).node, Result(Linked2(), []), 0);
    moves := MoveMore(s0, moves, Move(3, LinkUp(2)), NewNode(3), Result(Linked3(), []), 0);
  }

  lemma ThreeAsks() returns (moves: seq<Move>)
    ensures Playable(TwoNodes(), moves)
    ensures var s := Last(TwoNodes(), moves);
            && {2, 3} <= s.nodes.Keys && s.nodes[2] == Linked2() && s.nodes[3] == Asking3()
            && s.wire == [Msg(BROADCAST, 3, Asked(3))]
  {
    moves := LinksUp();
    BothAsk();
    OneOutgoing(3, Send(BROADCAST, Asked(3)));
    moves := MoveMore(TwoNodes(), moves, Move(3, Wants1), Linked3(), Result(Asking3(), [Send(BROADCAST, Asked(3))]), 0);
  }

  lemma TwoAnswers() returns (moves: seq<Move>)
    ensures Playable(TwoNodes(), moves)
    ensures var s := Last(TwoNodes(), moves);
            && {2, 3} <= s.nodes.Keys && s.nodes[2] == Answered2([1, 3], true) && s.nodes[3] == Asking3()
            && |s.wire| == 2 && s.wire[1] == Msg(3, 2, Told(3))
  {
    moves := ThreeAsks();
    BothAnswer();
    OneOutgoing(2, Send(3, Told(3)));
    moves := MoveMore(TwoNodes(), moves, Move(2, Incoming(Asked(3), 3)), Linked2(),
                      Result(Answered2([1, 3], true), [Send(3, Told(3))]), 0);
  }

  /** Node 3 gets its route to 1 from node 2, a neighbour of 1, and sends. */
  lemma RouteOpens() returns (moves: seq<Move>)
    ensures Playable(TwoNodes(), moves)
    ensures var s := Last(TwoNodes(), moves);
            && {2, 3} <= s.nodes.Keys && s.nodes[2] == Answered2([1, 3], true) && s.nodes[3] == Routed3()
            && |s.wire| == 3 && s.wire[2] == Msg(2, 3, Payload(3))
  {
    moves := TwoAnswers();
    Hears3();
    OneOutgoing(3, Send(2, Payload(3)));
    moves := MoveMore(TwoNodes(), moves, Move(3, Incoming(Told(3), 2)), Asking3(),
      Result(Routed3(), [Send(2, Payload(3))]), 1);
  }

  /** The link from 2 to 1 is gone: 2 gives the route up, and its error is lost. */
  lemma RouteBreaks() returns (moves: seq<Move>)
    ensures Playable(TwoNodes(), moves)
    ensures var s := Last(TwoNodes(), moves);
            && {2, 3} <= s.nodes.Keys && s.nodes[2] == Answered2([3], false) && s.nodes[3] == Routed3() && |s.wire| == 4
  {
    var s0 := TwoNodes();
    moves := RouteOpens();
    LinksComeUp();
    LinkIsGone();
    moves := MoveMore(s0, moves, Move(2, LinksReset), Answered2([1, 3], true), Result(Answered2([], true), []), 0);
    moves := MoveMore(s0, moves, Move(2, LinkUp(3)), Answered2([], true), Result(Answered2([3], true), []), 0);
    OneOutgoing(2, Send(3, RerrPacket(Rerr(1, 0, 3))));
    moves := MoveMore(s0, moves, Move(2, Incoming(Payload(3), 3)), Answered2([3], true),
                      Result(Answered2([3], false), [Send(3, RerrPacket(Rerr(1, 0, 3)))]), 2);
  }

  lemma TwoAsks() returns (moves: seq<Move>)
    ensures Playable(TwoNodes(), moves)
    ensures var s := Last(TwoNodes(), moves);
            && {2, 3} <= s.nodes.Keys && s.nodes[2] == Asking2() && s.nodes[3] == Routed3()
            && |s.wire| == 5 && s.wire[4] == Msg(BROADCAST, 2, Asked(2))
  {
    moves := RouteBreaks();
    BothAsk();
    OneOutgoing(2, Send(BROADCAST, Asked(2)));
    moves := MoveMore(TwoNodes(), moves, Move(2, Wants1), Answered2([3], false),
                      Result(Asking2(), [Send(BROADCAST, Asked(2))]), 0);
  }

  lemma ThreeAnswers() returns (moves: seq<Move>)
    ensures Playable(TwoNodes(), moves)
    ensures var s := Last(TwoNodes(), moves);
            && {2, 3} <= s.nodes.Keys && s.nodes[2] == Asking2() && s.nodes[3] == Answered3()
            && |s.wire| == 6 && s.wire[5] == Msg(2, 3, Told(2))
  {
    moves := TwoAsks();
    BothAnswer();
    OneOutgoing(3, Send(2, Told(2)));
    moves := MoveMore(TwoNodes(), moves, Move(3, Incoming(Asked(2), 2)), Routed3(),
      Result(Answered3(), [Send(2, Told(2))]), 4);
  }

  /** Node 2 then asks for 1 itself, and is told by 3, whose route leads through 2: the
      next hops of 2 and 3 point at each other, and both routes are active. */
  lemma RouteErrorsLoop() returns (states: seq<Net>, moves: seq<Move>)
    ensures IsHonestRun(states, moves) && states[0] == TwoNodes()
    ensures var s := states[|moves|];
            && Points(s, 1, 2, 3) && Points(s, 1, 3, 2)
            && Active(s.nodes[2].table, 1) && Active(s.nodes[3].table, 1)
  {
    moves := ThreeAnswers();
    Hears2();
    OneOutgoing(2, Send(3, Payload(2)));
    moves := MoveMore(TwoNodes(), moves, Move(2, Incoming(Told(2), 3)), Asking2(),
      Result(Routed2(), [Send(3, Payload(2))]), 5);
    states := PlayAll(TwoNodes(), moves);
  }
}
