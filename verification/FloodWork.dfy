/** Why the flood and its replies end, and where the replies go, whatever routes to the
    destination the nodes knew before and whatever other traffic they cause. */
module FloodWork {
  import opened Packets
  import opened NodeSpec
  import opened Network
  import opened Discovery
  import opened Flood

  // ----- Arithmetic

  function Pow(b: nat, e: nat): nat { if e == 0 then 1 else b * Pow(b, e - 1) }

  lemma TimesGrows(a: nat, b: nat, c: nat)
    requires a <= b
    ensures c * a <= c * b && a * c <= b * c
  {
  }

  lemma OneMore(a: nat, b: nat)
    ensures (a + 1) * b == a * b + b
  {
  }

  lemma PowPositive(b: nat, e: nat)
    requires b > 0
    ensures Pow(b, e) > 0 && (e > 0 ==> Pow(b, e) >= b)
  {
    if e > 0 {
      PowPositive(b, e - 1);
      TimesGrows(1, Pow(b, e - 1), b);
    }
  }

  // ----- Work

  /** What a message may still cost: a request can fan out at every remaining level, a
      reply moves at most once per hop its addressee stores and once more. Messages that
      are not the discovery's own cost nothing. */
  function Weight(c: Config, s: State, m: Msg): nat {
    if !IsOwn(c, m) then 0
    else if m.packet.RrepPacket? then Back(c, s, m.to) + 1
    else if m.packet.rreq.hopCount < |c.topo| then Pow(|c.topo| + 1, |c.topo| - m.packet.rreq.hopCount) else 0
  }

  function Work(c: Config, s: State, ms: seq<Msg>): nat {
    if ms == [] then 0 else Weight(c, s, ms[0]) + Work(c, s, ms[1..])
  }

  lemma WorkAdds(c: Config, s: State, a: seq<Msg>, b: seq<Msg>)
    ensures Work(c, s, a + b) == Work(c, s, a) + Work(c, s, b)
  {
    if a == [] {
      assert a + b == b;
    } else {
      WorkAdds(c, s, a[1..], b);
      assert (a + b)[1..] == a[1..] + b;
    }
  }

  lemma WorkWithout(c: Config, s: State, ms: seq<Msg>, i: nat)
    requires i < |ms|
    ensures Work(c, s, ms) == Work(c, s, Without(ms, i)) + Weight(c, s, ms[i])
  {
    assert ms == ms[..i] + ms[i..] && ms[i..][1..] == ms[i + 1..];
    WorkAdds(c, s, ms[..i], ms[i..]);
    WorkAdds(c, s, ms[..i], ms[i + 1..]);
  }

  lemma WorkOfOne(c: Config, s: State, m: Msg)
    ensures Work(c, s, [m]) == Weight(c, s, m)
  {
    assert Work(c, s, []) == 0;
  }

  lemma WorkOfForeign(c: Config, s: State, ms: seq<Msg>)
    requires forall m :: m in ms ==> !IsOwn(c, m)
    ensures Work(c, s, ms) == 0
  {
  }

  /** Routes only shorten, and so does the work left for the same messages. */
  lemma {:induction false} WorkShrinks(c: Config, s: State, s': State, ms: seq<Msg>)
    requires Grows(c, s, s') && forall m :: m in ms ==> MsgOk(c, s, m)
    ensures Work(c, s', ms) <= Work(c, s, ms)
  {
    if ms != [] {
      assert MsgOk(c, s, ms[0]);
      WorkShrinks(c, s, s', ms[1..]);
    }
  }

  lemma RequestIsNear(c: Config, s: State, m: Msg)
    requires GoodNet(c) && MsgOk(c, s, m) && m.packet.RreqPacket? && m.packet.rreq.origIp == c.orig
    ensures m.packet.rreq.hopCount < |c.topo|
  {
    var p :| Trail(c, p) && |p| == m.packet.rreq.hopCount + 1 && p[m.packet.rreq.hopCount] == m.from && Climbs(c, s, p);
    TrailFits(c, p);
  }

  lemma OwnWeighs(c: Config, s: State, m: Msg)
    requires GoodNet(c) && MsgOk(c, s, m) && IsOwn(c, m)
    ensures Weight(c, s, m) > 0 && (m.packet.RreqPacket? ==> Weight(c, s, m) > |c.topo|)
  {
    if m.packet.RreqPacket? {
      RequestIsNear(c, s, m);
      PowPositive(|c.topo| + 1, |c.topo| - m.packet.rreq.hopCount);
    }
  }

  /** What is left after a step is at most what was there before, less the message
      handled, plus what was sent. */
  lemma WorkAfter(c: Config, s: State, i: nat)
    requires Inv(c, s) && Enabled(c, s, i) && Grows(c, s, Deliver(c, s, i))
    ensures var s' := Deliver(c, s, i);
            Work(c, s', s'.wire) + Weight(c, s, s.wire[i]) <=
              Work(c, s, s.wire) + Work(c, s', Emit(c, s.wire[i].to, Reaction(c, s, i).out))
  {
    var s', rest := Deliver(c, s, i), Without(s.wire, i);
    WorkWithout(c, s, s.wire, i);
    WorkAdds(c, s', rest, Emit(c, s.wire[i].to, Reaction(c, s, i).out));
    forall m | m in rest
      ensures MsgOk(c, s, m)
    {
      InWithout(s.wire, i, m);
      MsgInOrder(c, s, m);
    }
    WorkShrinks(c, s, s', rest);
  }

  lemma {:induction false} SpreadWork(c: Config, s: State, from: Ip, to: seq<Ip>, hops: U8)
    ensures Work(c, s, Spread(from, to, Request(c, hops))) == |to| * Weight(c, s, Msg(from, from, Request(c, hops)))
  {
    if to != [] {
      SpreadWork(c, s, from, to[1..], hops);
      OneMore(|to| - 1, Weight(c, s, Msg(from, from, Request(c, hops))));
    }
  }

  lemma FewNeighbors(c: Config, v: Ip)
    requires GoodNet(c) && v in c.topo
    ensures |c.topo[v]| <= |c.topo|
  {
    forall w | w in c.topo[v]
      ensures w in c.topo.Keys
    {
      assert IsLink(c, v, w);
    }
    NoRepeatsFit(c.topo[v], c.topo.Keys);
  }

  /** Passing a request on to every neighbour costs less than the request did. */
  lemma ForwardIsCheaper(c: Config, s: State, s': State, m: Msg, hops: nat)
    requires GoodNet(c) && m.to in c.topo && hops < 255 && hops + 2 <= |c.topo| && m.packet == Request(c, hops)
    ensures Work(c, s', Spread(m.to, c.topo[m.to], Request(c, hops + 1))) < Weight(c, s, m)
  {
    var n := |c.topo|;
    FewNeighbors(c, m.to);
    SpreadWork(c, s', m.to, c.topo[m.to], hops + 1);
    PowPositive(n + 1, n - hops - 1);
    TimesGrows(|c.topo[m.to]|, n, Pow(n + 1, n - hops - 1));
    OneMore(n, Pow(n + 1, n - hops - 1));
  }

  lemma ForwardWork(c: Config, s: State, i: nat)
    requires GoodConfig(c) && RequestNext(c, s, i) && News(c, s, i) && !Answers(c, s.nodes[s.wire[i].to])
    ensures Work(c, Deliver(c, s, i), Emit(c, s.wire[i].to, Reaction(c, s, i).out)) < Weight(c, s, s.wire[i])
  {
    var m, s', h := s.wire[i], Deliver(c, s, i), s.wire[i].packet.rreq.hopCount;
    assert m.packet == Request(c, h) by { NewsIsAccepted(c, s, i); }
    NewsIsNear(c, s, i);
    assert Emit(c, m.to, Reaction(c, s, i).out) == Spread(m.to, c.topo[m.to], Request(c, h + 1)) by {
      ForwardEmits(c, s, i);
    }
    ForwardIsCheaper(c, s, s', m, h);
  }

  lemma AnswerWork(c: Config, s: State, i: nat)
    requires GoodConfig(c) && RequestNext(c, s, i) && News(c, s, i) && Answers(c, s.nodes[s.wire[i].to])
    ensures Work(c, Deliver(c, s, i), Emit(c, s.wire[i].to, Reaction(c, s, i).out)) <= |c.topo|
  {
    var v, s' := s.wire[i].to, Deliver(c, s, i);
    AnswerEmits(c, s, i);
    WorkOfOne(c, s', Msg(BackHop(c, s', v), v, RrepPacket(Answer(c, s.nodes[v], Reaction(c, s, i).node))));
    NewsIsNear(c, s, i);
    NewsGrows(c, s, i);
  }

  lemma RequestWork(c: Config, s: State, i: nat)
    requires GoodConfig(c) && RequestNext(c, s, i)
    ensures Work(c, Deliver(c, s, i), Emit(c, s.wire[i].to, Reaction(c, s, i).out)) < Weight(c, s, s.wire[i])
  {
    MsgInOrder(c, s, s.wire[i]);
    OwnWeighs(c, s, s.wire[i]);
    if !News(c, s, i) {
      DuplicateIsDropped(s.nodes[s.wire[i].to], s.wire[i].packet.rreq, s.wire[i].from);
      EmitNothing(c, s.wire[i].to);
    } else if Answers(c, s.nodes[s.wire[i].to]) {
      AnswerWork(c, s, i);
    } else {
      ForwardWork(c, s, i);
    }
  }

  lemma ReplyWork(c: Config, s: State, i: nat)
    requires GoodConfig(c) && ReplyNext(c, s, i)
    ensures Work(c, Deliver(c, s, i), Emit(c, s.wire[i].to, Reaction(c, s, i).out)) < Weight(c, s, s.wire[i])
  {
    var s' := Deliver(c, s, i);
    if s.wire[i].to == c.orig {
      ArrivalKeepsInv(c, s, i);
      WorkOfForeign(c, s', Emit(c, s.wire[i].to, Reaction(c, s, i).out));
    } else {
      RelayEmits(c, s, i);
      WorkOfOne(c, s', Emit(c, s.wire[i].to, Reaction(c, s, i).out)[0]);
    }
  }

  /** Delivering a message of the discovery strictly lowers the work left, and delivering
      any other message never raises it. */
  lemma DeliveryLowersWork(c: Config, s: State, i: nat)
    requires GoodConfig(c) && Inv(c, s) && i < |s.wire|
    ensures Enabled(c, s, i)
    ensures var s' := Deliver(c, s, i);
            Work(c, s', s'.wire) <= Work(c, s, s.wire) - if IsOwn(c, s.wire[i]) then 1 else 0
  {
    WireIsEnabled(c, s, i);
    DeliverKeepsInv(c, s, i);
    WorkAfter(c, s, i);
    if !IsOwn(c, s.wire[i]) {
      ForeignKeepsInv(c, s, i);
      WorkOfForeign(c, Deliver(c, s, i), Emit(c, s.wire[i].to, Reaction(c, s, i).out));
    } else if s.wire[i].packet.RrepPacket? {
      ReplyWork(c, s, i);
    } else {
      RequestWork(c, s, i);
    }
  }

  lemma {:induction false} SameWork(c: Config, s: State, s': State, ms: seq<Msg>)
    requires s'.nodes == s.nodes
    ensures Work(c, s', ms) == Work(c, s, ms)
  {
    if ms != [] { SameWork(c, s, s', ms[1..]); }
  }

  lemma LossLowersWork(c: Config, s: State, i: nat)
    requires GoodNet(c) && Inv(c, s) && i < |s.wire|
    ensures Work(c, Lose(s, i), Lose(s, i).wire) <= Work(c, s, s.wire) - if IsOwn(c, s.wire[i]) then 1 else 0
  {
    WorkWithout(c, s, s.wire, i);
    SameWork(c, s, Lose(s, i), Without(s.wire, i));
    MsgInOrder(c, s, s.wire[i]);
    if IsOwn(c, s.wire[i]) { OwnWeighs(c, s, s.wire[i]); }
  }

  /** Does this step handle a message of the discovery? */
  predicate OwnTurn(c: Config, s: State, ch: Choice) { s.wire != [] && IsOwn(c, s.wire[ch.which % |s.wire|]) }

  function WorkLeft(c: Config, s: State): nat { Work(c, s, s.wire) }

  lemma NextLowersWork(c: Config, s: State, ch: Choice)
    requires GoodConfig(c) && Inv(c, s)
    ensures WorkLeft(c, Next(c, s, ch)) <= WorkLeft(c, s) - if OwnTurn(c, s, ch) then 1 else 0
  {
    if s.wire != [] {
      var i := ch.which % |s.wire|;
      if ch.lost || !Enabled(c, s, i) { LossLowersWork(c, s, i); } else { DeliveryLowersWork(c, s, i); }
    }
  }

  // ----- The flood ends

  lemma StepLowersWork(c: Config, tr: Trace, sched: Schedule, t: nat)
    requires GoodConfig(c) && IsTrace(c, tr, sched) && Inv(c, tr(0))
    ensures WorkLeft(c, tr(t + 1)) <= WorkLeft(c, tr(t)) - if OwnTurn(c, tr(t), sched(t)) then 1 else 0
  {
    RunKeepsInv(c, tr, sched, t);
    assert StepsAt(c, tr, sched, t);
    NextLowersWork(c, tr(t), sched(t));
  }

  /** How many messages of the discovery are handled in the first `n` steps. */
  function OwnTurns(c: Config, tr: Trace, sched: Schedule, n: nat): nat {
    if n == 0 then 0 else OwnTurns(c, tr, sched, n - 1) + if OwnTurn(c, tr(n - 1), sched(n - 1)) then 1 else 0
  }

  lemma {:induction false} WorkIsSpent(c: Config, tr: Trace, sched: Schedule, n: nat)
    requires GoodConfig(c) && IsTrace(c, tr, sched) && Inv(c, tr(0))
    ensures OwnTurns(c, tr, sched, n) + WorkLeft(c, tr(n)) <= WorkLeft(c, tr(0))
  {
    if n > 0 {
      WorkIsSpent(c, tr, sched, n - 1);
      StepLowersWork(c, tr, sched, n - 1);
    }
  }

  /** Under every schedule of deliveries and losses, and whatever routes were known
      before, the copies of the request and the replies to it that are ever handled are
      at most the work the first copies weigh. */
  lemma FloodIsBounded(c: Config, nodes: map<Ip, Node>, tr: Trace, sched: Schedule, n: nat)
    requires Discovers(c, nodes, tr, sched)
    ensures OwnTurns(c, tr, sched, n) <= |c.topo[c.orig]| * Pow(|c.topo| + 1, |c.topo|)
  {
    BeginKeepsInv(c, nodes);
    WorkIsSpent(c, tr, sched, n);
    BeginSends(c, nodes);
    SpreadWork(c, tr(0), c.orig, c.topo[c.orig], 0);
  }

  lemma StaysAt(ms: seq<Msg>, i: nat, j: nat)
    requires i < |ms| && j < |ms| && i != j
    ensures Without(ms, i)[if i < j then j - 1 else j] == ms[j]
  {
  }

  lemma OthersStayInFlight(c: Config, s: State, j: nat, ch: Choice)
    requires j < |s.wire| && !IsTurn(s, j, ch)
    ensures Moved(s, j, ch) < |Next(c, s, ch).wire| && Next(c, s, ch).wire[Moved(s, j, ch)] == s.wire[j]
  {
    StaysAt(s.wire, ch.which % |s.wire|, j);
  }

  lemma OthersStayOn(c: Config, tr: Trace, sched: Schedule, t: nat, j: nat)
    requires IsTrace(c, tr, sched) && j < |tr(t).wire| && !IsTurn(tr(t), j, sched(t))
    ensures Moved(tr(t), j, sched(t)) < |tr(t + 1).wire| && tr(t + 1).wire[Moved(tr(t), j, sched(t))] == tr(t).wire[j]
  {
    assert StepsAt(c, tr, sched, t);
    OthersStayInFlight(c, tr(t), j, sched(t));
  }

  /** By the time a message of the discovery has been handled, there is less work. */
  lemma {:induction false} TurnLowersWork(c: Config, tr: Trace, sched: Schedule, t: nat, j: nat, n: nat)
    requires GoodConfig(c) && IsTrace(c, tr, sched) && Inv(c, tr(0)) && TurnAt(tr, sched, t, j, n)
             && IsOwn(c, tr(t).wire[j])
    ensures WorkLeft(c, tr(t + n + 1)) < WorkLeft(c, tr(t))
    decreases n
  {
    StepLowersWork(c, tr, sched, t);
    if n > 0 {
      OthersStayOn(c, tr, sched, t, j);
      TurnLowersWork(c, tr, sched, t + 1, Moved(tr(t), j, sched(t)), n - 1);
    }
  }

  lemma {:induction false} NoWorkNoOwn(c: Config, s: State, ms: seq<Msg>)
    requires GoodNet(c) && forall m :: m in ms ==> MsgOk(c, s, m)
    ensures Work(c, s, ms) == 0 <==> forall m :: m in ms ==> !IsOwn(c, m)
  {
    if ms != [] {
      NoWorkNoOwn(c, s, ms[1..]);
      assert MsgOk(c, s, ms[0]);
      if IsOwn(c, ms[0]) { OwnWeighs(c, s, ms[0]); }
      assert forall m :: m in ms <==> m == ms[0] || m in ms[1..];
    }
  }

  /** No copy of the request and no reply to it is in flight. */
  ghost predicate Settled(c: Config, s: State) { forall m :: m in s.wire ==> !IsOwn(c, m) }

  lemma SettledMeansNoWork(c: Config, s: State)
    requires GoodNet(c) && Inv(c, s)
    ensures Settled(c, s) <==> WorkLeft(c, s) == 0
  {
    forall m | m in s.wire
      ensures MsgOk(c, s, m)
    {
      MsgInOrder(c, s, m);
    }
    NoWorkNoOwn(c, s, s.wire);
  }

  lemma OwnTurnComes(c: Config, tr: Trace, sched: Schedule, t: nat) returns (n: nat)
    requires GoodConfig(c) && IsTrace(c, tr, sched) && Inv(c, tr(0)) && Fair(tr, sched) && !Settled(c, tr(t))
    ensures WorkLeft(c, tr(n)) < WorkLeft(c, tr(t))
  {
    var m :| m in tr(t).wire && IsOwn(c, m);
    var j :| 0 <= j < |tr(t).wire| && tr(t).wire[j] == m;
    assert HandledLater(tr, sched, t, j);
    var k :| TurnAt(tr, sched, t, j, k);
    TurnLowersWork(c, tr, sched, t, j, k);
    n := t + k + 1;
  }

  lemma {:induction false} FloodEndsFrom(c: Config, tr: Trace, sched: Schedule, t: nat) returns (n: nat)
    requires GoodConfig(c) && IsTrace(c, tr, sched) && Inv(c, tr(0)) && Fair(tr, sched)
    ensures WorkLeft(c, tr(n)) == 0
    decreases WorkLeft(c, tr(t))
  {
    n := t;
    RunKeepsInv(c, tr, sched, t);
    SettledMeansNoWork(c, tr(t));
    if !Settled(c, tr(t)) {
      n := OwnTurnComes(c, tr, sched, t);
      n := FloodEndsFrom(c, tr, sched, n);
    }
  }

  lemma {:induction false} NoWorkComesBack(c: Config, tr: Trace, sched: Schedule, n: nat, k: nat)
    requires GoodConfig(c) && IsTrace(c, tr, sched) && Inv(c, tr(0)) && n <= k
    ensures WorkLeft(c, tr(k)) <= WorkLeft(c, tr(n))
  {
    if n < k {
      NoWorkComesBack(c, tr, sched, n, k - 1);
      StepLowersWork(c, tr, sched, k - 1);
    }
  }

  /** If every message in flight is handled at some time, the flood and its replies are
      over at some time, and for good. */
  lemma FloodEnds(c: Config, nodes: map<Ip, Node>, tr: Trace, sched: Schedule) returns (n: nat)
    requires Discovers(c, nodes, tr, sched) && Fair(tr, sched)
    ensures forall k :: n <= k ==> Settled(c, tr(k))
  {
    BeginKeepsInv(c, nodes);
    n := FloodEndsFrom(c, tr, sched, 0);
    forall k | n <= k
      ensures Settled(c, tr(k))
    {
      NoWorkComesBack(c, tr, sched, n, k);
      RunKeepsInv(c, tr, sched, k);
      SettledMeansNoWork(c, tr(k));
    }
  }

  // ----- Replies

  /** Where a reply is after some steps of a schedule. */
  datatype Fate = Flying(at: nat) | Arrived | Gone

  ghost predicate IsReply(c: Config, s: State, j: int) {
    0 <= j < |s.wire| && s.wire[j].packet.RrepPacket? && IsOwn(c, s.wire[j])
  }

  /** A reply that is neither lost nor at the originator is still in flight after a step,
      and nearer if it was its turn. */
  lemma ReplyStays(c: Config, s: State, j: nat, ch: Choice)
    requires GoodConfig(c) && Inv(c, s) && IsReply(c, s, j)
    requires IsTurn(s, j, ch) ==> !ch.lost && s.wire[j].to != c.orig
    ensures IsReply(c, Next(c, s, ch), Moved(s, j, ch))
    ensures Back(c, Next(c, s, ch), Next(c, s, ch).wire[Moved(s, j, ch)].to)
            <= Back(c, s, s.wire[j].to) - if IsTurn(s, j, ch) then 1 else 0
  {
    MsgInOrder(c, s, s.wire[j]);
    NextKeepsInv(c, s, ch);
    if IsTurn(s, j, ch) {
      WireIsEnabled(c, s, j);
      RelayEmits(c, s, j);
    } else {
      OthersStayInFlight(c, s, j, ch);
    }
  }

  lemma ReplyStaysOn(c: Config, tr: Trace, sched: Schedule, t: nat, j: nat)
    requires GoodConfig(c) && IsTrace(c, tr, sched) && Inv(c, tr(0)) && IsReply(c, tr(t), j)
             && PassesOn(c, tr(t), j, sched(t))
    ensures var j' := Moved(tr(t), j, sched(t));
            && IsReply(c, tr(t + 1), j')
            && Back(c, tr(t + 1), tr(t + 1).wire[j'].to)
                 <= Back(c, tr(t), tr(t).wire[j].to) - if IsTurn(tr(t), j, sched(t)) then 1 else 0
  {
    RunKeepsInv(c, tr, sched, t);
    assert StepsAt(c, tr, sched, t);
    ReplyStays(c, tr(t), j, sched(t));
  }

  predicate PassesOn(c: Config, s: State, j: nat, ch: Choice) {
    j < |s.wire| && (IsTurn(s, j, ch) ==> !ch.lost && s.wire[j].to != c.orig)
  }

  /** What becomes of reply `j` of the state at time `t`, and how often it is delivered,
      in `n` steps. */
  function Follow(c: Config, tr: Trace, sched: Schedule, t: nat, j: nat, n: nat): (Fate, nat)
    decreases n
  {
    if n == 0 then (Flying(j), 0)
    else if j >= |tr(t).wire| || (IsTurn(tr(t), j, sched(t)) && sched(t).lost) then (Gone, 0)
    else if IsTurn(tr(t), j, sched(t)) && tr(t).wire[j].to == c.orig then (Arrived, 1)
    else
      var f := Follow(c, tr, sched, t + 1, Moved(tr(t), j, sched(t)), n - 1);
      (f.0, f.1 + if IsTurn(tr(t), j, sched(t)) then 1 else 0)
  }

  lemma {:induction false} ReplyHops(c: Config, tr: Trace, sched: Schedule, t: nat, j: nat, n: nat)
    requires GoodConfig(c) && IsTrace(c, tr, sched) && Inv(c, tr(0)) && IsReply(c, tr(t), j)
    ensures Follow(c, tr, sched, t, j, n).1 <= Back(c, tr(t), tr(t).wire[j].to) + 1
    decreases n
  {
    if n > 0 && PassesOn(c, tr(t), j, sched(t)) {
      ReplyStaysOn(c, tr, sched, t, j);
      ReplyHops(c, tr, sched, t + 1, Moved(tr(t), j, sched(t)), n - 1);
    }
  }

  lemma {:induction false} ReplyIsInFlight(c: Config, tr: Trace, sched: Schedule, t: nat, j: nat, n: nat)
    requires GoodConfig(c) && IsTrace(c, tr, sched) && Inv(c, tr(0)) && IsReply(c, tr(t), j)
    ensures var fate := Follow(c, tr, sched, t, j, n).0; fate.Flying? ==> IsReply(c, tr(t + n), fate.at)
    decreases n
  {
    if n > 0 && PassesOn(c, tr(t), j, sched(t)) {
      ReplyStaysOn(c, tr, sched, t, j);
      ReplyIsInFlight(c, tr, sched, t + 1, Moved(tr(t), j, sched(t)), n - 1);
    }
  }

  lemma {:induction false} RouteStaysOpen(c: Config, tr: Trace, sched: Schedule, t: nat, k: nat)
    requires GoodConfig(c) && IsTrace(c, tr, sched) && Inv(c, tr(0)) && Routed(c, tr(t), c.orig) && t <= k
    ensures Routed(c, tr(k), c.orig)
  {
    if t < k {
      RouteStaysOpen(c, tr, sched, t, k - 1);
      RunKeepsInv(c, tr, sched, k - 1);
      StepKeepsInv(c, tr, sched, k - 1);
    }
  }

  lemma ArrivalOpensRoute(c: Config, tr: Trace, sched: Schedule, t: nat, j: nat)
    requires GoodConfig(c) && IsTrace(c, tr, sched) && Inv(c, tr(t)) && IsReply(c, tr(t), j)
    requires IsTurn(tr(t), j, sched(t)) && !sched(t).lost && tr(t).wire[j].to == c.orig
    ensures Routed(c, tr(t + 1), c.orig)
  {
    assert StepsAt(c, tr, sched, t);
    WireIsEnabled(c, tr(t), j);
    ReplyGrows(c, tr(t), j);
  }

  lemma {:induction false} ReplyEnds(c: Config, tr: Trace, sched: Schedule, t: nat, j: nat, n: nat)
    requires GoodConfig(c) && IsTrace(c, tr, sched) && Inv(c, tr(0)) && IsReply(c, tr(t), j)
    ensures Follow(c, tr, sched, t, j, n).0.Gone? ==> !Lossless(sched)
    ensures Follow(c, tr, sched, t, j, n).0.Arrived? ==> Routed(c, tr(t + n), c.orig)
    decreases n
  {
    if n > 0 {
      if PassesOn(c, tr(t), j, sched(t)) {
        ReplyStaysOn(c, tr, sched, t, j);
        ReplyEnds(c, tr, sched, t + 1, Moved(tr(t), j, sched(t)), n - 1);
      } else if !sched(t).lost {
        RunKeepsInv(c, tr, sched, t);
        ArrivalOpensRoute(c, tr, sched, t, j);
        RouteStaysOpen(c, tr, sched, t + 1, t + n);
      }
    }
  }

  /** At every moment of every discovery, whatever else is delivered or lost in between: a
      reply is delivered at most once more than its addressee's stored distance, that is,
      within its sender's stored distance; until it arrives or is lost it is in flight; it
      is gone only if something was lost; and when it arrives, the originator's route is
      open from then on. */
  lemma RepliesGoBack(c: Config, nodes: map<Ip, Node>, tr: Trace, sched: Schedule, t: nat, j: nat, n: nat)
    requires Discovers(c, nodes, tr, sched) && IsReply(c, tr(t), j)
    ensures var (fate, hops) := Follow(c, tr, sched, t, j, n);
            && hops <= Back(c, tr(t), tr(t).wire[j].to) + 1
            && (fate.Flying? ==> IsReply(c, tr(t + n), fate.at))
            && (fate.Gone? ==> !Lossless(sched))
            && (fate.Arrived? ==> Routed(c, tr(t + n), c.orig))
  {
    BeginKeepsInv(c, nodes);
    ReplyHops(c, tr, sched, t, j, n);
    ReplyIsInFlight(c, tr, sched, t, j, n);
    ReplyEnds(c, tr, sched, t, j, n);
  }

  lemma TurnComes(tr: Trace, sched: Schedule, t: nat, j: nat) returns (k: nat)
    requires Fair(tr, sched) && j < |tr(t).wire|
    ensures TurnAt(tr, sched, t, j, k)
  {
    assert HandledLater(tr, sched, t, j);
    k :| TurnAt(tr, sched, t, j, k);
  }

  lemma {:induction false} ReplyArrivesFrom(c: Config, tr: Trace, sched: Schedule, t: nat, j: nat, k: nat)
      returns (n: nat)
    requires GoodConfig(c) && IsTrace(c, tr, sched) && Inv(c, tr(0)) && Fair(tr, sched) && Lossless(sched)
    requires IsReply(c, tr(t), j) && TurnAt(tr, sched, t, j, k)
    ensures Follow(c, tr, sched, t, j, n).0 == Arrived
    decreases Back(c, tr(t), tr(t).wire[j].to), k
  {
    if k == 0 && tr(t).wire[j].to == c.orig {
      n := 1;
    } else {
      var j', k' := Moved(tr(t), j, sched(t)), k - 1;
      ReplyStaysOn(c, tr, sched, t, j);
      if k == 0 { k' := TurnComes(tr, sched, t + 1, j'); }
      n := ReplyArrivesFrom(c, tr, sched, t + 1, j', k');
      n := n + 1;
    }
  }

  /** If nothing is lost and every message is handled at some time, every reply arrives. */
  lemma EveryReplyArrives(c: Config, nodes: map<Ip, Node>, tr: Trace, sched: Schedule, t: nat, j: nat) returns (n: nat)
    requires Discovers(c, nodes, tr, sched) && Fair(tr, sched) && Lossless(sched) && IsReply(c, tr(t), j)
    ensures Follow(c, tr, sched, t, j, n).0 == Arrived
  {
    BeginKeepsInv(c, nodes);
    var k := TurnComes(tr, sched, t, j);
    n := ReplyArrivesFrom(c, tr, sched, t, j, k);
  }
}
