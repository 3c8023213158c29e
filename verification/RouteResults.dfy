/** What a discovery achieves: it ends, its routes are loop-free, reverse routes are
    shortest, and the payload is delivered exactly once. */
module RouteResults {
  import opened Packets
  import opened NodeSpec
  import opened Network
  import opened Discovery
  import opened Flood
  import opened FloodWork
  import opened Routes
  import opened Sets

  // ----- Forward routes

  /** How far `v` is from the destination: levels still to climb, then the length of the
      route known before. */
  datatype Rank = Rank(climb: nat, lead: nat)

  ghost function RankOf(c: Config, s: State, v: Ip): Rank {
    if v == c.dest then Rank(0, 0)
    else if v in c.cache then Rank(0, LeadLength(c, v))
    else Rank(if v in s.level && s.level[v] < |c.topo| then |c.topo| - s.level[v] else 0, 0)
  }

  predicate Below(a: Rank, b: Rank) { a.climb < b.climb || (a.climb == b.climb && a.lead < b.lead) }

  /** Every next hop ranks below the node that points to it. */
  lemma NextHopIsBelow(c: Config, s: State, v: Ip)
    requires GoodNet(c) && RouteInv(c, s) && v in c.topo && v != c.dest && GoesOn(c, s, v)
    ensures var w := AheadHop(c, s, v);
            && Routed(c, s, v) && w in c.topo && w in c.topo[v] && GoesOn(c, s, w)
            && Below(RankOf(c, s, w), RankOf(c, s, v))
  {
    RouteGoesOn(c, s, v);
    RouteInOrder(c, s, v);
    var w := AheadHop(c, s, v);
    if HasLead(c, v) { LeadShortens(c, v); }
    if w != c.dest { RouteInOrder(c, s, w); }
  }

  /** The next hops from `v`, in order, up to the destination: each but the last has an
      active route whose next hop, over an existing link, is the following one. */
  ghost predicate IsRoute(c: Config, s: State, v: Ip, r: seq<Ip>) {
    && r != [] && r[0] == v && r[|r| - 1] == c.dest
    && forall i :: 0 <= i < |r| - 1 ==> RouteHop(c, s, r[i], r[i + 1])
  }

  predicate RouteHop(c: Config, s: State, v: Ip, w: Ip) {
    Routed(c, s, v) && AheadHop(c, s, v) == w && w in s.nodes[v].neighbors
  }

  lemma NoRepeatsCons<T>(x: T, xs: seq<T>)
    requires NoRepeats(xs) && x !in xs
    ensures NoRepeats([x] + xs)
  {
  }

  lemma RouteCons(c: Config, s: State, v: Ip, r: seq<Ip>)
    requires r != [] && IsRoute(c, s, r[0], r) && RouteHop(c, s, v, r[0])
    ensures IsRoute(c, s, v, [v] + r)
  {
    forall i | 0 <= i < |r|
      ensures RouteHop(c, s, ([v] + r)[i], ([v] + r)[i + 1])
    {
      if i > 0 { assert RouteHop(c, s, r[i - 1], r[i]); }
    }
  }

  /** Next hops lead to the destination, each ranking below all before it. */
  lemma {:induction false} DescendingRoute(c: Config, s: State, v: Ip) returns (r: seq<Ip>)
    requires GoodNet(c) && RouteInv(c, s) && v in c.topo && GoesOn(c, s, v)
    ensures IsRoute(c, s, v, r) && NoRepeats(r)
    ensures forall w :: w in r ==> w in c.topo && (w == v || Below(RankOf(c, s, w), RankOf(c, s, v)))
    decreases v != c.dest, RankOf(c, s, v).climb, RankOf(c, s, v).lead
  {
    r := [v];
    if v != c.dest {
      NextHopIsBelow(c, s, v);
      NodeInOrder(c, s, v);
      var rest := DescendingRoute(c, s, AheadHop(c, s, v));
      NoRepeatsCons(v, rest);
      RouteCons(c, s, v, rest);
      r := [v] + rest;
    }
  }

  /** At every moment of every discovery, under any order and any loss, if the known routes
      that the request can reach lead to the destination: from a node that has opened a
      route, or knew one that leads, following next hops visits distinct nodes over
      existing links, each with an active route, and ends at the destination. */
  lemma RoutesAreLoopFree(c: Config, nodes: map<Ip, Node>, tr: Trace, sched: Schedule, t: nat, v: Ip)
      returns (r: seq<Ip>)
    requires Discovers(c, nodes, tr, sched) && AnswersLead(c)
    requires v in c.topo && v != c.dest && Routed(c, tr(t), v) && (v in c.cache ==> HasLead(c, v))
    ensures IsRoute(c, tr(t), v, r) && NoRepeats(r) && |r| <= |c.topo|
  {
    DiscoveryKeepsRoutes(c, nodes, tr, sched, t);
    r := DescendingRoute(c, tr(t), v);
    NoRepeatsFit(r, c.topo.Keys);
  }

  // ----- Everything ends

  /** What a message in flight still has to do, apart from the flood's work: the rank of
      the payload's addressee and one hop more. */
  ghost function Way(c: Config, s: State, m: Msg): Rank {
    if m.packet.DataPacket? then Rank(RankOf(c, s, m.to).climb, RankOf(c, s, m.to).lead + 1) else Rank(0, 0)
  }

  ghost function WayLeft(c: Config, s: State, ms: seq<Msg>): Rank {
    if ms == [] then Rank(0, 0)
    else
      var rest := WayLeft(c, s, ms[1..]);
      Rank(Way(c, s, ms[0]).climb + rest.climb, Way(c, s, ms[0]).lead + rest.lead)
  }

  lemma NoDataNoWay(c: Config, s: State, ms: seq<Msg>)
    requires DataInFlight(ms) == 0
    ensures WayLeft(c, s, ms) == Rank(0, 0)
  {
  }

  lemma WayAdds(c: Config, s: State, a: seq<Msg>, b: seq<Msg>)
    ensures WayLeft(c, s, a + b).climb == WayLeft(c, s, a).climb + WayLeft(c, s, b).climb
    ensures WayLeft(c, s, a + b).lead == WayLeft(c, s, a).lead + WayLeft(c, s, b).lead
  {
    if a == [] {
      assert a + b == b;
    } else {
      WayAdds(c, s, a[1..], b);
      assert (a + b)[1..] == a[1..] + b;
    }
  }

  /** With the payload as the only data in flight, its way is all there is. */
  lemma WayIsPayloads(c: Config, s: State, ms: seq<Msg>, i: nat)
    requires i < |ms| && DataInFlight(ms) <= 1 && ms[i].packet.DataPacket?
    ensures WayLeft(c, s, ms) == Way(c, s, ms[i]) && DataInFlight(Without(ms, i)) == 0
  {
    DataWithout(ms, i);
    assert ms == ms[..i] + ms[i..] && ms[i..][1..] == ms[i + 1..];
    WayAdds(c, s, ms[..i], ms[i..]);
    WayAdds(c, s, ms[..i], ms[i + 1..]);
    NoDataNoWay(c, s, Without(ms, i));
  }

  /** Flood work left, then the payload's way. */
  datatype Measure = Measure(work: nat, way: Rank)

  ghost function MeasureOf(c: Config, s: State): Measure { Measure(WorkLeft(c, s), WayLeft(c, s, s.wire)) }

  predicate Less(a: Measure, b: Measure) { a.work < b.work || (a.work == b.work && Below(a.way, b.way)) }

  lemma PayloadAlone(c: Config, s: State, i: nat)
    requires RouteInv(c, s) && i < |s.wire| && s.wire[i].packet.DataPacket?
    ensures WayLeft(c, s, s.wire) == Way(c, s, s.wire[i]) && DataInFlight(Without(s.wire, i)) == 0
  {
    assert PayloadOk(c, s);
    WayIsPayloads(c, s, s.wire, i);
  }

  /** The payload moves strictly nearer the destination. */
  lemma DataMovesOn(c: Config, s: State, i: nat)
    requires GoodConfig(c) && DataNext(c, s, i)
    ensures Below(WayLeft(c, Deliver(c, s, i), Deliver(c, s, i).wire), WayLeft(c, s, s.wire))
  {
    var m, s' := s.wire[i], Deliver(c, s, i);
    PayloadAlone(c, s, i);
    NoDataNoWay(c, s', Without(s.wire, i));
    WayAdds(c, s', Without(s.wire, i), Emit(c, m.to, Reaction(c, s, i).out));
    SentIsNearer(c, s, i);
  }

  lemma SentIsNearer(c: Config, s: State, i: nat)
    requires GoodConfig(c) && DataNext(c, s, i)
    ensures Below(WayLeft(c, Deliver(c, s, i), Emit(c, s.wire[i].to, Reaction(c, s, i).out)), Way(c, s, s.wire[i]))
  {
    var m, s' := s.wire[i], Deliver(c, s, i);
    var next := Msg(AheadHop(c, s, m.to), m.to, Data(c));
    DataReaction(c, s, i);
    DataEmits(c, s, i);
    DataKeepsNodes(c, s, i);
    RouteMsgInOrder(c, s, m);
    WayOfOne(c, s', next);
    SameWay(c, s, s', next);
    if m.to != c.dest { NextHopIsBelow(c, s, m.to); }
  }

  lemma SameWay(c: Config, s: State, s': State, m: Msg)
    requires s'.level == s.level
    ensures Way(c, s', m) == Way(c, s, m)
  {
  }

  lemma WayOfOne(c: Config, s: State, m: Msg)
    ensures WayLeft(c, s, [m]) == Way(c, s, m) && WayLeft(c, s, []) == Rank(0, 0)
  {
    assert [m][1..] == [];
  }

  lemma NextLowersMeasure(c: Config, s: State, ch: Choice)
    requires GoodConfig(c) && AnswersLead(c) && RouteInv(c, s) && s.wire != []
    ensures Less(MeasureOf(c, Next(c, s, ch)), MeasureOf(c, s))
  {
    var i := ch.which % |s.wire|;
    NextLowersWork(c, s, ch);
    RouteMsgInOrder(c, s, s.wire[i]);
    if !IsOwn(c, s.wire[i]) {
      WireIsEnabled(c, s, i);
      if ch.lost {
        PayloadAlone(c, s, i);
        NoDataNoWay(c, Lose(s, i), Without(s.wire, i));
      } else {
        DataMovesOn(c, s, i);
      }
    }
  }

  lemma StepLowersMeasure(c: Config, tr: Trace, sched: Schedule, t: nat)
    requires GoodConfig(c) && AnswersLead(c) && IsTrace(c, tr, sched) && RouteInv(c, tr(t)) && tr(t).wire != []
    ensures Less(MeasureOf(c, tr(t + 1)), MeasureOf(c, tr(t))) && RouteInv(c, tr(t + 1))
  {
    assert StepsAt(c, tr, sched, t);
    NextLowersMeasure(c, tr(t), sched(t));
    NextKeepsRoutes(c, tr(t), sched(t));
  }

  lemma {:induction false} RunEnds(c: Config, tr: Trace, sched: Schedule, t: nat) returns (n: nat)
    requires GoodConfig(c) && AnswersLead(c) && IsTrace(c, tr, sched) && RouteInv(c, tr(t))
    ensures tr(n).wire == []
    decreases MeasureOf(c, tr(t)).work, MeasureOf(c, tr(t)).way.climb, MeasureOf(c, tr(t)).way.lead
  {
    n := t;
    if tr(t).wire != [] {
      StepLowersMeasure(c, tr, sched, t);
      n := RunEnds(c, tr, sched, t + 1);
    }
  }

  /** If the known routes that the request can reach lead to the destination, every
      discovery ends with nothing in flight, under every schedule of deliveries and losses. */
  lemma EveryDiscoveryEnds(c: Config, nodes: map<Ip, Node>, tr: Trace, sched: Schedule) returns (n: nat)
    requires Discovers(c, nodes, tr, sched) && AnswersLead(c)
    ensures tr(n).wire == []
  {
    DiscoveryKeepsRoutes(c, nodes, tr, sched, 0);
    n := RunEnds(c, tr, sched, 0);
  }

  // ----- Distances

  /** A walk over links from the originator. */
  ghost predicate IsWalk(c: Config, p: seq<Ip>) {
    && p != [] && p[0] == c.orig
    && forall i :: 0 <= i < |p| - 1 ==> IsLink(c, p[i], p[i + 1])
  }

  /** A walk of at most `k` links leads from the originator to `v`. */
  ghost predicate Within(c: Config, k: nat, v: Ip) {
    v == c.orig || (k > 0 && exists u :: IsLink(c, u, v) && Within(c, k - 1, u))
  }

  lemma WalkPrefix(c: Config, p: seq<Ip>)
    requires IsWalk(c, p) && |p| > 1
    ensures IsWalk(c, p[..|p| - 1]) && IsLink(c, p[|p| - 2], p[|p| - 1])
  {
    assert IsLink(c, p[|p| - 2], p[|p| - 2 + 1]);
    forall i {:trigger p[i]} | 0 <= i < |p| - 2
      ensures IsLink(c, p[..|p| - 1][i], p[..|p| - 1][i + 1])
    {
      assert IsLink(c, p[i], p[i + 1]);
    }
  }

  lemma WalkExtends(c: Config, p: seq<Ip>, v: Ip)
    requires IsWalk(c, p) && IsLink(c, p[|p| - 1], v)
    ensures IsWalk(c, p + [v])
  {
    forall i | 0 <= i < |p|
      ensures IsLink(c, (p + [v])[i], (p + [v])[i + 1])
    {
      if i < |p| - 1 { assert IsLink(c, p[i], p[i + 1]); }
    }
  }

  /** `Within` means what it says: a walk of at most `k` links exists. */
  lemma {:induction false} WithinIffWalk(c: Config, k: nat, v: Ip)
    ensures Within(c, k, v) <==> exists p :: IsWalk(c, p) && |p| <= k + 1 && p[|p| - 1] == v
  {
    if Within(c, k, v) {
      if v == c.orig {
        assert IsWalk(c, [v]);
      } else {
        var u :| IsLink(c, u, v) && Within(c, k - 1, u);
        WithinIffWalk(c, k - 1, u);
        var p :| IsWalk(c, p) && |p| <= k && p[|p| - 1] == u;
        WalkExtends(c, p, v);
      }
    }
    if p :| IsWalk(c, p) && |p| <= k + 1 && p[|p| - 1] == v {
      if |p| > 1 {
        WalkPrefix(c, p);
        WithinIffWalk(c, k - 1, p[..|p| - 1][|p| - 2]);
      }
    }
  }

  lemma WithinGrows(c: Config, k: nat, l: nat, v: Ip)
    requires Within(c, k, v) && k <= l
    ensures Within(c, l, v)
  {
    if v != c.orig {
      var u :| IsLink(c, u, v) && Within(c, k - 1, u);
      WithinGrows(c, k - 1, l - 1, u);
    }
  }

  ghost predicate Reachable(c: Config, v: Ip) { exists k: nat :: Within(c, k, v) }

  lemma StoredIsWithin(c: Config, s: State, v: Ip)
    requires v in c.topo && NodeOk(c, s, v) && Stored(c, s, v)
    ensures Within(c, Back(c, s, v), v)
  {
    if v != c.orig {
      var p :| Trail(c, p) && |p| == Back(c, s, v) + 1 && p[Back(c, s, v)] == v;
      assert IsWalk(c, p);
      WithinIffWalk(c, Back(c, s, v), v);
    }
  }

  // ----- Progress while nothing is lost

  /** Somebody has answered: a reply is under way, or the originator has its route. */
  ghost predicate Replied(c: Config, s: State) {
    Routed(c, s, c.orig) || exists m :: m in s.wire && m.packet.RrepPacket?
  }

  /** `w` is at most one hop further than `v`, or will be once `v`'s copy arrives. */
  ghost predicate Covered(c: Config, s: State, v: Ip, w: Ip) {
    || (Stored(c, s, w) && Back(c, s, w) <= Back(c, s, v) + 1)
    || exists m :: m in s.wire && IsCopy(c, s, m, v, w)
  }

  ghost predicate IsCopy(c: Config, s: State, m: Msg, v: Ip, w: Ip) {
    m.from == v && m.to == w && m.packet.RreqPacket? && m.packet.rreq.hopCount == Back(c, s, v)
  }

  ghost predicate AllCovered(c: Config, s: State) {
    forall v, w {:trigger Covered(c, s, v, w)} :: Stored(c, s, v) && IsLink(c, v, w) && w != c.orig ==>
      Covered(c, s, v, w)
  }

  /** Whoever could answer has heard nothing, or somebody has answered; and until then
      the flood covers every link. */
  ghost predicate Progress(c: Config, s: State) {
    && (forall v :: v in c.topo && Stored(c, s, v) && !Relays(c, v) ==> Replied(c, s))
    && (Replied(c, s) || AllCovered(c, s))
  }

  lemma BeginStored(c: Config, nodes: map<Ip, Node>, v: Ip)
    requires Asks(c, nodes) && v in c.topo && Stored(c, Begin(c, nodes), v)
    ensures v == c.orig
  {
    BeginSends(c, nodes);
    assert StartsWell(c, nodes[v], v);
  }

  lemma BeginCovers(c: Config, nodes: map<Ip, Node>, v: Ip, w: Ip)
    requires Asks(c, nodes) && Stored(c, Begin(c, nodes), v) && IsLink(c, v, w)
    ensures Covered(c, Begin(c, nodes), v, w)
  {
    BeginStored(c, nodes, v);
    BeginSends(c, nodes);
    InSpread(c.orig, c.topo[c.orig], Request(c, 0), w);
    assert IsCopy(c, Begin(c, nodes), Msg(w, c.orig, Request(c, 0)), v, w);
  }

  lemma BeginProgress(c: Config, nodes: map<Ip, Node>)
    requires Asks(c, nodes)
    ensures Progress(c, Begin(c, nodes))
  {
    var s := Begin(c, nodes);
    forall v, w | Stored(c, s, v) && IsLink(c, v, w) && w != c.orig
      ensures Covered(c, s, v, w)
    {
      BeginCovers(c, nodes, v, w);
    }
    forall v | v in c.topo && Stored(c, s, v)
      ensures v == c.orig
    {
      BeginStored(c, nodes, v);
    }
  }

  /** Messages other than the delivered one stay on the wire. */
  lemma StillInFlight(ms: seq<Msg>, i: nat, m: Msg)
    requires i < |ms| && m in ms && m != ms[i]
    ensures m in Without(ms, i)
  {
    var j :| 0 <= j < |ms| && ms[j] == m;
    if j < i { assert Without(ms, i)[j] == m; } else { assert Without(ms, i)[j - 1] == m; }
  }

  /** The message handled was no reply, and no news if it was a request. */
  ghost predicate Idle(c: Config, s: State, m: Msg) {
    && !m.packet.RrepPacket?
    && (m.packet.RreqPacket? ==> m.to == c.orig || (Stored(c, s, m.to) && Back(c, s, m.to) <= m.packet.rreq.hopCount))
  }

  lemma IdleKeepsCovered(c: Config, s: State, i: nat, s': State, v: Ip, w: Ip)
    requires i < |s.wire| && s'.nodes == s.nodes && Covered(c, s, v, w) && w != c.orig
    requires (forall m :: m in Without(s.wire, i) ==> m in s'.wire) && Idle(c, s, s.wire[i])
    ensures Covered(c, s', v, w)
  {
    if !(Stored(c, s, w) && Back(c, s, w) <= Back(c, s, v) + 1) {
      var m :| m in s.wire && IsCopy(c, s, m, v, w);
      StillInFlight(s.wire, i, m);
      assert IsCopy(c, s', m, v, w);
    }
  }

  lemma IdleKeepsReplied(c: Config, s: State, i: nat, s': State)
    requires i < |s.wire| && s'.nodes == s.nodes && Replied(c, s)
    requires (forall m :: m in Without(s.wire, i) ==> m in s'.wire) && !s.wire[i].packet.RrepPacket?
    ensures Replied(c, s')
  {
    if !Routed(c, s, c.orig) {
      var m :| m in s.wire && m.packet.RrepPacket?;
      StillInFlight(s.wire, i, m);
    }
  }

  /** A step that leaves every table alone loses no progress. */
  lemma IdleKeepsProgress(c: Config, s: State, i: nat, s': State)
    requires i < |s.wire| && s'.nodes == s.nodes && Progress(c, s)
    requires (forall m :: m in Without(s.wire, i) ==> m in s'.wire) && Idle(c, s, s.wire[i])
    ensures Progress(c, s')
  {
    if Replied(c, s) {
      IdleKeepsReplied(c, s, i, s');
    } else {
      forall v, w | Stored(c, s', v) && IsLink(c, v, w) && w != c.orig
        ensures Covered(c, s', v, w)
      {
        assert Stored(c, s, v) && Covered(c, s, v, w);
        IdleKeepsCovered(c, s, i, s', v, w);
      }
      assert forall v :: Stored(c, s', v) ==> Stored(c, s, v);
    }
  }

  lemma DuplicateIsIdle(c: Config, s: State, i: nat)
    requires RequestNext(c, s, i) && !News(c, s, i)
    ensures Idle(c, s, s.wire[i])
  {
    MsgInOrder(c, s, s.wire[i]);
    NodeInOrder(c, s, s.wire[i].to);
  }

  lemma DuplicateKeepsProgress(c: Config, s: State, i: nat)
    requires RequestNext(c, s, i) && !News(c, s, i) && Progress(c, s)
    ensures Progress(c, Deliver(c, s, i))
  {
    DuplicateKeepsInv(c, s, i);
    DuplicateIsIdle(c, s, i);
    IdleKeepsProgress(c, s, i, Deliver(c, s, i));
  }

  /** Only `v` has learned, and what it passed on is in flight. */
  ghost predicate PassedOn(c: Config, s: State, i: nat, s': State) {
    && i < |s.wire| && s.wire[i].packet.RreqPacket? && s.wire[i].packet.rreq.hopCount < 255 && s.wire[i].to in c.topo
    && s'.wire ==
       Without(s.wire, i) + Spread(s.wire[i].to, c.topo[s.wire[i].to], Request(c, s.wire[i].packet.rreq.hopCount + 1))
    && Stored(c, s', s.wire[i].to) && Back(c, s', s.wire[i].to) == s.wire[i].packet.rreq.hopCount + 1
    && forall v :: v != s.wire[i].to ==> (Stored(c, s', v) <==> Stored(c, s, v)) && Back(c, s', v) == Back(c, s, v)
  }

  lemma ForwardPassesOn(c: Config, s: State, i: nat)
    requires GoodConfig(c) && RequestNext(c, s, i) && News(c, s, i) && !Answers(c, s.nodes[s.wire[i].to])
    ensures PassedOn(c, s, i, Deliver(c, s, i)) && Grows(c, s, Deliver(c, s, i))
  {
    ForwardEmits(c, s, i);
    NewsGrows(c, s, i);
    NewsIsStored(c, s, i);
  }

  /** The addressee of news then stores exactly one hop more than it says. */
  lemma NewsIsStored(c: Config, s: State, i: nat)
    requires GoodConfig(c) && RequestNext(c, s, i) && News(c, s, i)
    ensures Stored(c, Deliver(c, s, i), s.wire[i].to)
    ensures Back(c, Deliver(c, s, i), s.wire[i].to) == s.wire[i].packet.rreq.hopCount + 1
  {
    NewsIsLearned(c, s, i);
    NewsIsAccepted(c, s, i);
  }

  lemma PassedOnCovers(c: Config, s: State, i: nat, s': State, v: Ip, w: Ip)
    requires PassedOn(c, s, i, s') && Grows(c, s, s') && IsLink(c, v, w) && Stored(c, s', v) && w != c.orig
    requires v != s.wire[i].to ==> Covered(c, s, v, w)
    ensures Covered(c, s', v, w)
  {
    var m := s.wire[i];
    if v == m.to {
      InSpread(v, c.topo[v], Request(c, m.packet.rreq.hopCount + 1), w);
      assert IsCopy(c, s', Msg(w, v, Request(c, m.packet.rreq.hopCount + 1)), v, w);
    } else if !(Stored(c, s, w) && Back(c, s, w) <= Back(c, s, v) + 1) {
      var f :| f in s.wire && IsCopy(c, s, f, v, w);
      if f != m {
        StillInFlight(s.wire, i, f);
        assert f in s'.wire && IsCopy(c, s', f, v, w);
      }
    }
  }

  lemma ForwardKeepsCovered(c: Config, s: State, i: nat, s': State)
    requires PassedOn(c, s, i, s') && Grows(c, s, s') && AllCovered(c, s)
    ensures AllCovered(c, s')
  {
    forall v, w | Stored(c, s', v) && IsLink(c, v, w) && w != c.orig
      ensures Covered(c, s', v, w)
    {
      if v != s.wire[i].to { assert Stored(c, s, v) && Covered(c, s, v, w); }
      PassedOnCovers(c, s, i, s', v, w);
    }
  }

  lemma ForwardKeepsReplied(c: Config, s: State, i: nat, s': State)
    requires PassedOn(c, s, i, s') && Grows(c, s, s') && Replied(c, s)
    ensures Replied(c, s')
  {
    if !Routed(c, s, c.orig) {
      var m :| m in s.wire && m.packet.RrepPacket?;
      StillInFlight(s.wire, i, m);
      assert m in s'.wire;
    }
  }

  lemma ForwardKeepsProgress(c: Config, s: State, i: nat)
    requires GoodConfig(c) && RequestNext(c, s, i) && News(c, s, i) && !Answers(c, s.nodes[s.wire[i].to])
             && Progress(c, s)
    ensures Progress(c, Deliver(c, s, i))
  {
    var s' := Deliver(c, s, i);
    ForwardPassesOn(c, s, i);
    if Replied(c, s) {
      ForwardKeepsReplied(c, s, i, s');
    } else {
      ForwardKeepsCovered(c, s, i, s');
      NodeInOrder(c, s, s.wire[i].to);
      assert forall v :: Stored(c, s', v) ==> v == s.wire[i].to || Stored(c, s, v);
    }
  }

  lemma SentReplyIsReplied(c: Config, s: State, m: Msg)
    requires m in s.wire && m.packet.RrepPacket?
    ensures Progress(c, s)
  {
  }

  lemma LastInFlight(c: Config, s: State, i: nat, m: Msg)
    requires Enabled(c, s, i) && Emit(c, s.wire[i].to, Reaction(c, s, i).out) == [m]
    ensures m in Deliver(c, s, i).wire
  {
    var s' := Deliver(c, s, i);
    assert s'.wire[|s'.wire| - 1] == m;
  }

  lemma AnswerKeepsProgress(c: Config, s: State, i: nat)
    requires GoodConfig(c) && RequestNext(c, s, i) && News(c, s, i) && Answers(c, s.nodes[s.wire[i].to])
    ensures Progress(c, Deliver(c, s, i))
  {
    AnswerEmits(c, s, i);
    var m := Emit(c, s.wire[i].to, Reaction(c, s, i).out)[0];
    LastInFlight(c, s, i, m);
    SentReplyIsReplied(c, Deliver(c, s, i), m);
  }

  lemma ReplyKeepsProgress(c: Config, s: State, i: nat)
    requires GoodConfig(c) && ReplyNext(c, s, i)
    ensures Progress(c, Deliver(c, s, i))
  {
    if s.wire[i].to == c.orig {
      ReplyGrows(c, s, i);
    } else {
      RelayEmits(c, s, i);
      var m := Emit(c, s.wire[i].to, Reaction(c, s, i).out)[0];
      LastInFlight(c, s, i, m);
      SentReplyIsReplied(c, Deliver(c, s, i), m);
    }
  }

  lemma DataKeepsProgress(c: Config, s: State, i: nat)
    requires GoodNet(c) && DataNext(c, s, i) && Progress(c, s)
    ensures Progress(c, Deliver(c, s, i))
  {
    DataKeepsNodes(c, s, i);
    IdleKeepsProgress(c, s, i, Deliver(c, s, i));
  }

  lemma DeliveryKeepsProgress(c: Config, s: State, i: nat)
    requires GoodConfig(c) && AnswersLead(c) && RouteInv(c, s) && Progress(c, s) && Enabled(c, s, i)
    ensures Progress(c, Deliver(c, s, i))
  {
    WireIsEnabled(c, s, i);
    RouteMsgInOrder(c, s, s.wire[i]);
    match s.wire[i].packet
    case RreqPacket(_) =>
      if !News(c, s, i) { DuplicateKeepsProgress(c, s, i); }
      else if Answers(c, s.nodes[s.wire[i].to]) { AnswerKeepsProgress(c, s, i); }
      else { ForwardKeepsProgress(c, s, i); }
    case RrepPacket(_) => ReplyKeepsProgress(c, s, i);
    case DataPacket(_, _) => DataKeepsProgress(c, s, i);
    case RerrPacket(_) =>
  }

  // ----- Runs in which nothing is lost

  lemma LosslessStep(c: Config, tr: Trace, sched: Schedule, t: nat)
    requires GoodConfig(c) && AnswersLead(c) && IsTrace(c, tr, sched) && RouteInv(c, tr(t)) && !sched(t).lost
    ensures Progress(c, tr(t)) ==> Progress(c, tr(t + 1))
    ensures Listening(c, tr(t)) ==> Listening(c, tr(t + 1)) && Copies(c, tr(t + 1)) == Copies(c, tr(t))
  {
    assert StepsAt(c, tr, sched, t);
    if tr(t).wire != [] {
      var i := sched(t).which % |tr(t).wire|;
      DeliverKeepsRoutes(c, tr(t), i);
      if Progress(c, tr(t)) { DeliveryKeepsProgress(c, tr(t), i); }
    }
  }

  lemma {:induction false} LosslessRun(c: Config, tr: Trace, sched: Schedule, t: nat)
    requires GoodConfig(c) && AnswersLead(c) && IsTrace(c, tr, sched) && Lossless(sched) && RouteInv(c, tr(0))
    requires Progress(c, tr(0))
    ensures Progress(c, tr(t))
  {
    if t > 0 {
      var k := t - 1;
      LosslessRun(c, tr, sched, k);
      RunKeepsRoutes(c, tr, sched, k);
      LosslessStep(c, tr, sched, k);
    }
  }

  lemma {:induction false} NoCopyIsLost(c: Config, tr: Trace, sched: Schedule, t: nat)
    requires GoodConfig(c) && AnswersLead(c) && IsTrace(c, tr, sched) && Lossless(sched) && RouteInv(c, tr(0))
    requires Listening(c, tr(0))
    ensures Listening(c, tr(t)) && Copies(c, tr(t)) == Copies(c, tr(0))
  {
    if t > 0 {
      var k := t - 1;
      NoCopyIsLost(c, tr, sched, k);
      RunKeepsRoutes(c, tr, sched, k);
      LosslessStep(c, tr, sched, k);
    }
  }

  // ----- Shortest reverse routes

  /** With nothing in flight and no answer, distances can only be too small. */
  lemma {:induction false} QuietDistances(c: Config, s: State, k: nat, v: Ip)
    requires GoodNet(c) && s.wire == [] && AllCovered(c, s) && Within(c, k, v)
    ensures Stored(c, s, v) && Back(c, s, v) <= k
    decreases k
  {
    if v != c.orig {
      var u :| IsLink(c, u, v) && Within(c, k - 1, u);
      QuietDistances(c, s, k - 1, u);
      assert Covered(c, s, u, v);
    }
  }

  /** `v` stores its exact distance, and its next hop back is a neighbour exactly one hop
      closer. */
  ghost predicate ShortestBack(c: Config, s: State, v: Ip) {
    && v in c.topo && Stored(c, s, v)
    && (forall k: nat :: Within(c, k, v) <==> Back(c, s, v) <= k)
    && BackHop(c, s, v) in c.topo[v]
    && (forall k: nat :: Within(c, k, BackHop(c, s, v)) <==> Back(c, s, v) - 1 <= k)
  }

  lemma ExactDistance(c: Config, s: State, v: Ip)
    requires GoodNet(c) && Inv(c, s) && s.wire == [] && AllCovered(c, s) && v in c.topo && Stored(c, s, v)
    ensures forall k: nat :: Within(c, k, v) <==> Back(c, s, v) <= k
  {
    NodeInOrder(c, s, v);
    StoredIsWithin(c, s, v);
    forall k: nat
      ensures Within(c, k, v) <==> Back(c, s, v) <= k
    {
      if Within(c, k, v) { QuietDistances(c, s, k, v); }
      if Back(c, s, v) <= k { WithinGrows(c, Back(c, s, v), k, v); }
    }
  }

  lemma QuietIsShortest(c: Config, s: State, v: Ip)
    requires GoodNet(c) && Inv(c, s) && s.wire == [] && AllCovered(c, s) && v in c.topo && v != c.orig
             && Reachable(c, v)
    ensures ShortestBack(c, s, v)
  {
    var k0: nat :| Within(c, k0, v);
    QuietDistances(c, s, k0, v);
    NodeInOrder(c, s, v);
    var u := BackHop(c, s, v);
    assert IsLink(c, v, u) && IsLink(c, u, v);
    ExactDistance(c, s, v);
    ExactDistance(c, s, u);
    assert Within(c, Back(c, s, u), u);
    assert Within(c, Back(c, s, u) + 1, v);
  }

  /** Whoever could answer is out of the originator's reach. */
  ghost predicate NobodyAnswers(c: Config) { forall v :: v in c.topo && Reachable(c, v) ==> Relays(c, v) }

  /** Nobody has opened a route, and only the request is in flight. */
  ghost predicate Unanswered(c: Config, s: State) {
    && (forall v :: v != c.dest && Routed(c, s, v) ==> v in c.cache)
    && (forall m :: m in s.wire ==> m.packet.RreqPacket? && m.packet.rreq.origIp == c.orig)
  }

  lemma NobodyIsAsked(c: Config, s: State, i: nat)
    requires NobodyAnswers(c) && GoodConfig(c) && Unanswered(c, s) && RequestNext(c, s, i) && News(c, s, i)
    ensures !Answers(c, s.nodes[s.wire[i].to])
  {
    var m := s.wire[i];
    NewsIsAccepted(c, s, i);
    NodeInOrder(c, s, m.to);
    var p := AcceptExtends(c, s, m.to, m.from, m.packet.rreq.hopCount);
    assert IsWalk(c, p + [m.to]);
    WithinIffWalk(c, |p|, m.to);
    assert Reachable(c, m.to);
  }

  /** Passing a request on to everybody sends nothing else. */
  lemma ForwardStaysUnanswered(c: Config, s: State, i: nat)
    requires GoodConfig(c) && Unanswered(c, s) && RequestNext(c, s, i) && News(c, s, i)
             && !Answers(c, s.nodes[s.wire[i].to])
    ensures Unanswered(c, Deliver(c, s, i))
  {
    ForwardEmits(c, s, i);
    NewsIsLearned(c, s, i);
    forall m | m in Deliver(c, s, i).wire
      ensures m.packet.RreqPacket? && m.packet.rreq.origIp == c.orig
    {
      if m in Without(s.wire, i) { InWithout(s.wire, i, m); }
      else { EmittedBy(c, s.wire[i].to, Reaction(c, s, i).out[0], m); }
    }
  }

  lemma StepStaysUnanswered(c: Config, tr: Trace, sched: Schedule, t: nat)
    requires NobodyAnswers(c) && GoodConfig(c) && IsTrace(c, tr, sched) && Inv(c, tr(t)) && Unanswered(c, tr(t))
             && !sched(t).lost
    ensures Unanswered(c, tr(t + 1)) && (Progress(c, tr(t)) ==> Progress(c, tr(t + 1)))
  {
    assert StepsAt(c, tr, sched, t);
    if tr(t).wire != [] {
      var i := sched(t).which % |tr(t).wire|;
      assert tr(t).wire[i] in tr(t).wire;
      WireIsEnabled(c, tr(t), i);
      if !News(c, tr(t), i) {
        DuplicateKeepsInv(c, tr(t), i);
        if Progress(c, tr(t)) { DuplicateKeepsProgress(c, tr(t), i); }
      } else {
        NobodyIsAsked(c, tr(t), i);
        ForwardStaysUnanswered(c, tr(t), i);
        if Progress(c, tr(t)) { ForwardKeepsProgress(c, tr(t), i); }
      }
    }
  }

  lemma {:induction false} RunStaysUnanswered(c: Config, tr: Trace, sched: Schedule, t: nat)
    requires NobodyAnswers(c) && GoodConfig(c) && IsTrace(c, tr, sched) && Inv(c, tr(0)) && Lossless(sched)
    requires Unanswered(c, tr(0)) && Progress(c, tr(0))
    ensures Unanswered(c, tr(t)) && Progress(c, tr(t))
  {
    if t > 0 {
      var k := t - 1;
      RunStaysUnanswered(c, tr, sched, k);
      RunKeepsInv(c, tr, sched, k);
      StepStaysUnanswered(c, tr, sched, k);
    }
  }

  lemma {:induction false} QuestionsEnd(c: Config, tr: Trace, sched: Schedule, t: nat) returns (n: nat)
    requires NobodyAnswers(c) && GoodConfig(c) && IsTrace(c, tr, sched) && Inv(c, tr(0)) && Lossless(sched)
    requires Unanswered(c, tr(0)) && Progress(c, tr(0))
    ensures tr(n).wire == []
    decreases WorkLeft(c, tr(t))
  {
    n := t;
    RunStaysUnanswered(c, tr, sched, t);
    if tr(t).wire != [] {
      assert tr(t).wire[sched(t).which % |tr(t).wire|] in tr(t).wire;
      StepLowersWork(c, tr, sched, t);
      n := QuestionsEnd(c, tr, sched, t + 1);
    }
  }

  lemma BeginIsUnanswered(c: Config, nodes: map<Ip, Node>)
    requires Asks(c, nodes)
    ensures Unanswered(c, Begin(c, nodes))
  {
    BeginSends(c, nodes);
  }

  /** When nobody in reach can answer and nothing is lost, any order of deliveries leaves
      every reachable node with its shortest distance to the originator, and a next hop on
      a shortest path. */
  lemma FloodFindsShortestRoutes(c: Config, nodes: map<Ip, Node>, tr: Trace, sched: Schedule) returns (n: nat)
    requires Discovers(c, nodes, tr, sched) && Lossless(sched) && NobodyAnswers(c)
    ensures tr(n).wire == []
    ensures forall v :: v in c.topo && v != c.orig && Reachable(c, v) ==> ShortestBack(c, tr(n), v)
  {
    BeginKeepsInv(c, nodes);
    BeginProgress(c, nodes);
    BeginIsUnanswered(c, nodes);
    n := QuestionsEnd(c, tr, sched, 0);
    RunStaysUnanswered(c, tr, sched, n);
    RunKeepsInv(c, tr, sched, n);
    assert NodeOk(c, tr(n), c.orig);
    forall v | v in c.topo && v != c.orig && Reachable(c, v)
      ensures ShortestBack(c, tr(n), v)
    {
      QuietIsShortest(c, tr(n), v);
    }
  }

  // ----- Delivery

  /** The destination's port got the payload, once and unchanged, and nobody got anything else. */
  predicate Delivered(c: Config, s: State) {
    && |s.handed| == 1 && s.handed[0].0 == c.dest
    && s.handed[0].1.Hand? && s.handed[0].1.port == c.port && s.handed[0].1.payload == c.payload
  }

  /** Once all is quiet, an answer has arrived and the one payload has been handed over. */
  lemma QuietIsDelivered(c: Config, s: State)
    requires GoodNet(c) && RouteInv(c, s) && Progress(c, s) && s.wire == [] && Copies(c, s) == 1
    requires c.dest in c.topo && Reachable(c, c.dest)
    ensures Routed(c, s, c.orig) && HeldAtOrig(c, s) == [] && Delivered(c, s)
  {
    if !Replied(c, s) {
      var k: nat :| Within(c, k, c.dest);
      QuietDistances(c, s, k, c.dest);
    }
    assert PayloadOk(c, s);
    assert s.handed[0] in s.handed;
  }

  /** If the destination can be reached and listens, the routes known before lead to it and
      nothing is lost, the discovery ends with a route at the originator and the payload
      delivered exactly once. */
  lemma DiscoveryDelivers(c: Config, nodes: map<Ip, Node>, tr: Trace, sched: Schedule) returns (n: nat)
    requires Discovers(c, nodes, tr, sched) && AnswersLead(c) && Lossless(sched)
    requires c.dest in nodes && Reachable(c, c.dest) && c.port in nodes[c.dest].ports && c.port != ROUTING_PORT
    ensures tr(n).wire == [] && Routed(c, tr(n), c.orig) && HeldAtOrig(c, tr(n)) == [] && Delivered(c, tr(n))
  {
    n := EveryDiscoveryEnds(c, nodes, tr, sched);
    BeginPayloadOk(c, nodes);
    DiscoveryKeepsRoutes(c, nodes, tr, sched, 0);
    DiscoveryKeepsRoutes(c, nodes, tr, sched, n);
    BeginProgress(c, nodes);
    BeginSends(c, nodes);
    LosslessRun(c, tr, sched, n);
    NoCopyIsLost(c, tr, sched, n);
    QuietIsDelivered(c, tr(n));
  }
}
