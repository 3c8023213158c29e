/** The routes a discovery opens, when every route known before that the request reaches
    leads to the destination: each leads on, and the payload stays whole. */
module Routes {
  import opened Packets
  import opened NodeSpec
  import opened Network
  import opened Discovery
  import opened Flood

  // ----- Routes known before

  /** Following the next hops known before leads from `v` to the destination in `k` hops. */
  ghost predicate Leads(c: Config, v: Ip, k: nat)
    decreases k
  {
    k > 0 && v in c.cache && (c.cache[v] == c.dest || Leads(c, c.cache[v], k - 1))
  }

  ghost predicate HasLead(c: Config, v: Ip) { exists k :: Leads(c, v, k) }

  /** A node that can be asked, at the end of a trail, and knows a route, knows one that
      leads to the destination. Other nodes may know any routes. */
  ghost predicate AnswersLead(c: Config) {
    forall p :: Trail(c, p) && p[|p| - 1] in c.cache ==> HasLead(c, p[|p| - 1])
  }

  lemma LeadsLonger(c: Config, v: Ip, k: nat, l: nat)
    requires Leads(c, v, k) && k <= l
    ensures Leads(c, v, l)
    decreases k
  {
    if c.cache[v] != c.dest { LeadsLonger(c, c.cache[v], k - 1, l - 1); }
  }

  /** The least such number up to `k`. */
  ghost function LeastLead(c: Config, v: Ip, k: nat): (l: nat)
    requires Leads(c, v, k)
    ensures Leads(c, v, l) && (l == 1 || !Leads(c, v, l - 1))
    decreases k
  {
    if k > 1 && Leads(c, v, k - 1) then LeastLead(c, v, k - 1) else k
  }

  ghost function LeadLength(c: Config, v: Ip): nat {
    if k :| Leads(c, v, k) then LeastLead(c, v, k) else 0
  }

  lemma LeadShortens(c: Config, v: Ip)
    requires HasLead(c, v)
    ensures v in c.cache && LeadLength(c, v) > 0
    ensures c.cache[v] == c.dest || (HasLead(c, c.cache[v]) && LeadLength(c, c.cache[v]) < LeadLength(c, v))
  {
    var k :| Leads(c, v, k);
    var l := LeadLength(c, v);
    assert Leads(c, v, l);
    if c.cache[v] != c.dest {
      var w := c.cache[v];
      assert Leads(c, w, l - 1);
      var lw := LeadLength(c, w);
      assert Leads(c, w, lw) && (lw == 1 || !Leads(c, w, lw - 1));
      if lw > l - 1 { LeadsLonger(c, w, l - 1, lw - 1); }
    }
  }

  // ----- The invariant of the routes

  /** `w` is the destination, knew a route that leads there, or has opened one. */
  ghost predicate GoesOn(c: Config, s: State, w: Ip) {
    w == c.dest || HasLead(c, w) || (w !in c.cache && Routed(c, s, w))
  }

  /** The same, and a route that was opened was so at a higher level. */
  ghost predicate Onward(c: Config, s: State, w: Ip, level: nat) {
    w == c.dest || HasLead(c, w) || (w !in c.cache && Routed(c, s, w) && w in s.level && s.level[w] > level)
  }

  /** A route leads on to a node that froze its distance at a higher level: the reply that
      set it came from there. */
  ghost predicate RouteOk(c: Config, s: State, v: Ip) {
    && (v in c.cache ==> AheadHop(c, s, v) == c.cache[v])
    && (v != c.dest && v !in c.cache && Routed(c, s, v) ==>
          && v in s.level && Stored(c, s, v) && Back(c, s, v) <= s.level[v] < |c.topo|
          && Onward(c, s, AheadHop(c, s, v), s.level[v]))
    && (v != c.orig && Stored(c, s, v) ==> Level(c, s, BackHop(c, s, v)) < Back(c, s, v))
  }

  ghost predicate RouteMsgOk(c: Config, s: State, m: Msg) {
    match m.packet
    case RreqPacket(q) => IsOwn(c, m) && Level(c, s, m.from) <= q.hopCount
    case RrepPacket(_) => IsOwn(c, m) && Onward(c, s, m.from, Level(c, s, m.to))
    case DataPacket(_, _) => m.packet == Data(c) && GoesOn(c, s, m.to)
    case RerrPacket(_) => false
  }

  function DataInFlight(ms: seq<Msg>): nat {
    if ms == [] then 0 else (if ms[0].packet.DataPacket? then 1 else 0) + DataInFlight(ms[1..])
  }

  function HeldAtOrig(c: Config, s: State): seq<Buffered> {
    if c.orig in s.nodes then HeldFor(s.nodes[c.orig], c.dest) else []
  }

  /** Copies of the payload: held by the originator, in flight, or handed over. */
  function Copies(c: Config, s: State): nat {
    |HeldAtOrig(c, s)| + DataInFlight(s.wire) + |s.handed|
  }

  ghost predicate PayloadOk(c: Config, s: State) {
    && (forall b :: b in HeldAtOrig(c, s) ==> b == Buffered(c.port, c.payload))
    && (forall h :: h in s.handed ==> h.0 == c.dest && h.1.Hand? && h.1.port == c.port && h.1.payload == c.payload)
    && (Routed(c, s, c.orig) ==> HeldAtOrig(c, s) == [])
    && Copies(c, s) <= 1
  }

  ghost predicate RouteInv(c: Config, s: State) {
    && Inv(c, s) && PayloadOk(c, s)
    && (forall v {:trigger RouteOk(c, s, v)} :: v in c.topo ==> RouteOk(c, s, v))
    && (forall m {:trigger RouteMsgOk(c, s, m)} :: m in s.wire ==> RouteMsgOk(c, s, m))
  }

  lemma RouteInOrder(c: Config, s: State, v: Ip)
    requires RouteInv(c, s) && v in c.topo
    ensures NodeOk(c, s, v) && RouteOk(c, s, v)
  {
  }

  lemma RouteMsgInOrder(c: Config, s: State, m: Msg)
    requires RouteInv(c, s) && m in s.wire
    ensures MsgOk(c, s, m) && RouteMsgOk(c, s, m)
  {
    assert MsgOk(c, s, m);
  }

  lemma RouteGrows(c: Config, s: State, s': State, v: Ip)
    requires Grows(c, s, s') && v in c.topo && NodeOk(c, s, v) && RouteOk(c, s, v)
    requires v in s'.nodes && s'.nodes[v] == s.nodes[v]
    ensures RouteOk(c, s', v)
  {
  }

  lemma RouteMsgGrows(c: Config, s: State, s': State, m: Msg)
    requires Grows(c, s, s') && MsgOk(c, s, m) && RouteMsgOk(c, s, m)
    ensures RouteMsgOk(c, s', m)
  {
    if m.packet.RreqPacket? {
      var p :| Trail(c, p) && |p| == m.packet.rreq.hopCount + 1 && p[m.packet.rreq.hopCount] == m.from
        && Climbs(c, s, p);
      assert Stored(c, s, p[m.packet.rreq.hopCount]);
    }
  }

  /** A step keeps the invariant if its actor and whatever it sent are in order. */
  lemma RoutesStay(c: Config, s: State, i: nat)
    requires RouteInv(c, s) && Enabled(c, s, i)
    requires var s' := Deliver(c, s, i);
             && Inv(c, s') && Grows(c, s, s') && RouteOk(c, s', s.wire[i].to) && PayloadOk(c, s')
             && forall m :: m in Emit(c, s.wire[i].to, Reaction(c, s, i).out) ==> RouteMsgOk(c, s', m)
    ensures RouteInv(c, Deliver(c, s, i))
  {
    var v, s' := s.wire[i].to, Deliver(c, s, i);
    forall u | u in c.topo
      ensures RouteOk(c, s', u)
    {
      if u != v {
        RouteInOrder(c, s, u);
        RouteGrows(c, s, s', u);
      }
    }
    forall m | m in s'.wire
      ensures RouteMsgOk(c, s', m)
    {
      if m in Without(s.wire, i) {
        InWithout(s.wire, i, m);
        RouteMsgInOrder(c, s, m);
        RouteMsgGrows(c, s, s', m);
      }
    }
  }

  // ----- The payload

  lemma DataAdds(a: seq<Msg>, b: seq<Msg>)
    ensures DataInFlight(a + b) == DataInFlight(a) + DataInFlight(b)
  {
    if a == [] {
      assert a + b == b;
    } else {
      DataAdds(a[1..], b);
      assert (a + b)[1..] == a[1..] + b;
    }
  }

  lemma DataWithout(ms: seq<Msg>, i: nat)
    requires i < |ms|
    ensures DataInFlight(ms) == DataInFlight(Without(ms, i)) + if ms[i].packet.DataPacket? then 1 else 0
  {
    assert ms == ms[..i] + ms[i..] && ms[i..][1..] == ms[i + 1..];
    DataAdds(ms[..i], ms[i..]);
    DataAdds(ms[..i], ms[i + 1..]);
  }

  lemma NoDataInFlight(ms: seq<Msg>)
    requires forall m :: m in ms ==> !m.packet.DataPacket?
    ensures DataInFlight(ms) == 0
  {
  }

  /** Nothing, or one routing message. */
  predicate OnlyRouting(out: seq<Output>) {
    out == [] || (|out| == 1 && out[0].Send? && !out[0].packet.DataPacket?)
  }

  lemma RoutingEmitsNoData(c: Config, v: Ip, out: seq<Output>)
    requires v in c.topo && OnlyRouting(out)
    ensures DataInFlight(Emit(c, v, out)) == 0 && Hands(v, out) == []
  {
    if out != [] {
      assert out == [out[0]];
      InEmit(c, v, out[0]);
    }
    NoDataInFlight(Emit(c, v, out));
  }

  /** A step that handles and sends only routing messages leaves the payload alone. */
  lemma RoutingKeepsPayload(c: Config, s: State, i: nat)
    requires PayloadOk(c, s) && Enabled(c, s, i) && !s.wire[i].packet.DataPacket? && OnlyRouting(Reaction(c, s, i).out)
    requires s.wire[i].to == c.orig ==> Reaction(c, s, i).node == s.nodes[c.orig]
    ensures PayloadOk(c, Deliver(c, s, i)) && Copies(c, Deliver(c, s, i)) == Copies(c, s)
  {
    RoutingEmitsNoData(c, s.wire[i].to, Reaction(c, s, i).out);
    DataWithout(s.wire, i);
    DataAdds(Without(s.wire, i), Emit(c, s.wire[i].to, Reaction(c, s, i).out));
    assert Deliver(c, s, i).handed == s.handed;
    assert HeldAtOrig(c, Deliver(c, s, i)) == HeldAtOrig(c, s);
  }

  // ----- Steps of the request

  lemma OthersKeepLevel(c: Config, s: State, i: nat, u: Ip)
    requires Enabled(c, s, i) && u != s.wire[i].to
    ensures Level(c, Deliver(c, s, i), u) == Level(c, s, u)
  {
  }

  lemma DuplicateKeepsRoutes(c: Config, s: State, i: nat)
    requires RouteInv(c, s) && RequestNext(c, s, i) && !News(c, s, i)
    ensures RouteInv(c, Deliver(c, s, i)) && Copies(c, Deliver(c, s, i)) == Copies(c, s)
  {
    DuplicateKeepsInv(c, s, i);
    DuplicateIsDropped(s.nodes[s.wire[i].to], s.wire[i].packet.rreq, s.wire[i].from);
    RoutingKeepsPayload(c, s, i);
    RouteInOrder(c, s, s.wire[i].to);
    RouteGrows(c, s, Deliver(c, s, i), s.wire[i].to);
    EmitNothing(c, s.wire[i].to);
    RoutesStay(c, s, i);
  }

  lemma NewsKeepsRoute(c: Config, s: State, i: nat)
    requires GoodConfig(c) && RouteInv(c, s) && RequestNext(c, s, i) && News(c, s, i)
    ensures RouteOk(c, Deliver(c, s, i), s.wire[i].to)
  {
    var m, s' := s.wire[i], Deliver(c, s, i);
    RouteInOrder(c, s, m.to);
    RouteMsgInOrder(c, s, m);
    NewsIsLearned(c, s, i);
    NewsGrows(c, s, i);
    NewsIsAccepted(c, s, i);
    NewsComesFromOther(c, s, i);
    OthersKeepLevel(c, s, i, m.from);
    if BackHop(c, s, m.to) != m.to { OthersKeepLevel(c, s, i, BackHop(c, s, m.to)); }
  }

  lemma NewsComesFromOther(c: Config, s: State, i: nat)
    requires GoodConfig(c) && RequestNext(c, s, i) && News(c, s, i)
    ensures s.wire[i].from != s.wire[i].to
  {
    var m := s.wire[i];
    NewsIsAccepted(c, s, i);
    var p := AcceptExtends(c, s, m.to, m.from, m.packet.rreq.hopCount);
    assert Stored(c, s, p[m.packet.rreq.hopCount]);
  }

  /** The answering node is the destination, knew a route before, or froze its distance
      at a level above the reply's addressee. */
  lemma AnswerIsOnward(c: Config, s: State, i: nat)
    requires GoodConfig(c) && AnswersLead(c) && RouteInv(c, s) && RequestNext(c, s, i) && News(c, s, i)
             && Answers(c, s.nodes[s.wire[i].to])
    ensures var v, s' := s.wire[i].to, Deliver(c, s, i);
            Onward(c, s', v, Level(c, s', BackHop(c, s', v)))
  {
    NewsKeepsRoute(c, s, i);
    NewsIsLearned(c, s, i);
    NewsGrows(c, s, i);
    NodeInOrder(c, s, s.wire[i].to);
    if s.wire[i].to in c.cache { AskedLeads(c, s, i); }
  }

  /** A request has come along a trail. */
  lemma AskedLeads(c: Config, s: State, i: nat)
    requires GoodConfig(c) && AnswersLead(c) && RequestNext(c, s, i) && News(c, s, i) && s.wire[i].to in c.cache
    ensures HasLead(c, s.wire[i].to)
  {
    var m := s.wire[i];
    NewsIsAccepted(c, s, i);
    var p := AcceptExtends(c, s, m.to, m.from, m.packet.rreq.hopCount);
    assert (p + [m.to])[|p|] == m.to;
  }

  lemma AnswerKeepsRoutes(c: Config, s: State, i: nat)
    requires GoodConfig(c) && AnswersLead(c) && RouteInv(c, s) && RequestNext(c, s, i) && News(c, s, i)
             && Answers(c, s.nodes[s.wire[i].to])
    ensures RouteInv(c, Deliver(c, s, i)) && Copies(c, Deliver(c, s, i)) == Copies(c, s)
  {
    var v, s' := s.wire[i].to, Deliver(c, s, i);
    assert RouteOk(c, s', v) by { NewsKeepsRoute(c, s, i); }
    assert Grows(c, s, s') by { NewsGrows(c, s, i); }
    assert Inv(c, s') by { AnswerKeepsInv(c, s, i); }
    AnswerEmits(c, s, i);
    RoutingKeepsPayload(c, s, i);
    AnswerIsOnward(c, s, i);
    RoutesStay(c, s, i);
  }

  lemma ForwardKeepsRoutes(c: Config, s: State, i: nat)
    requires GoodConfig(c) && RouteInv(c, s) && RequestNext(c, s, i) && News(c, s, i)
             && !Answers(c, s.nodes[s.wire[i].to])
    ensures RouteInv(c, Deliver(c, s, i)) && Copies(c, Deliver(c, s, i)) == Copies(c, s)
  {
    var v, s' := s.wire[i].to, Deliver(c, s, i);
    NewsKeepsRoute(c, s, i);
    ForwardEmits(c, s, i);
    NewsGrows(c, s, i);
    ForwardKeepsInv(c, s, i);
    NewsIsLearned(c, s, i);
    forall f | f in Emit(c, v, Reaction(c, s, i).out)
      ensures RouteMsgOk(c, s', f)
    {
      EmittedBy(c, v, Reaction(c, s, i).out[0], f);
    }
    RoutingKeepsPayload(c, s, i);
    RoutesStay(c, s, i);
  }

  // ----- Steps of the replies

  /** The addressee of a reply, if it had no route or a longer one, now points to the
      reply's sender, which froze its distance at a higher level. */
  lemma HeardKeepsRoute(c: Config, s: State, i: nat)
    requires GoodConfig(c) && RouteInv(c, s) && ReplyNext(c, s, i)
    ensures var v, s' := s.wire[i].to, Deliver(c, s, i);
            && RouteOk(c, s', v) && v in s'.level && Back(c, s', v) <= s'.level[v]
            && (v != c.orig ==> Level(c, s', BackHop(c, s, v)) < Back(c, s, v))
  {
    var m, s' := s.wire[i], Deliver(c, s, i);
    RouteInOrder(c, s, m.to);
    RouteMsgInOrder(c, s, m);
    ReplyIsHeard(c, s, i);
    ReplyGrows(c, s, i);
    if m.to == c.orig { ArrivalReaction(c, s, i); } else { RelayReaction(c, s, i); }
    BackFits(c, s, m.to);
    if BackHop(c, s, m.to) != m.to { OthersKeepLevel(c, s, i, BackHop(c, s, m.to)); }
    OnwardGrows(c, s, s', m.from, Level(c, s, m.to));
  }

  lemma OnwardGrows(c: Config, s: State, s': State, w: Ip, level: nat)
    requires Grows(c, s, s') && Onward(c, s, w, level)
    ensures Onward(c, s', w, level)
  {
  }

  lemma BackFits(c: Config, s: State, v: Ip)
    requires GoodNet(c) && v in c.topo && NodeOk(c, s, v) && Stored(c, s, v)
    ensures Back(c, s, v) < |c.topo|
  {
    if v == c.orig {
      assert c.topo.Keys != {};
    } else {
      var p :| Trail(c, p) && |p| == Back(c, s, v) + 1 && p[Back(c, s, v)] == v;
      TrailFits(c, p);
    }
  }

  lemma RelayKeepsRoutes(c: Config, s: State, i: nat)
    requires GoodConfig(c) && RouteInv(c, s) && ReplyNext(c, s, i) && s.wire[i].to != c.orig
    ensures RouteInv(c, Deliver(c, s, i)) && Copies(c, Deliver(c, s, i)) == Copies(c, s)
  {
    HeardKeepsRoute(c, s, i);
    RelayEmits(c, s, i);
    ReplyGrows(c, s, i);
    RelayKeepsInv(c, s, i);
    assert RouteMsgOk(c, Deliver(c, s, i), Emit(c, s.wire[i].to, Reaction(c, s, i).out)[0]);
    RoutingKeepsPayload(c, s, i);
    RoutesStay(c, s, i);
  }

  /** From a node with a route that goes on, so does the next hop's. */
  lemma RouteGoesOn(c: Config, s: State, v: Ip)
    requires GoodNet(c) && RouteInv(c, s) && v in c.topo && v != c.dest && GoesOn(c, s, v)
    ensures var w := AheadHop(c, s, v);
            Routed(c, s, v) && w in c.topo[v] && w in c.topo && w != BROADCAST && GoesOn(c, s, w)
  {
    RouteInOrder(c, s, v);
    var w := AheadHop(c, s, v);
    if HasLead(c, v) { LeadShortens(c, v); }
    assert IsLink(c, v, w);
  }

  lemma ArrivalOut(c: Config, s: State, i: nat)
    requires GoodConfig(c) && RouteInv(c, s) && ReplyNext(c, s, i) && s.wire[i].to == c.orig
    ensures var r := Reaction(c, s, i);
            && HeldFor(r.node, c.dest) == []
            && r.out == if HeldAtOrig(c, s) == [] then [] else [Send(AheadHop(c, Deliver(c, s, i), c.orig), Data(c))]
  {
    ArrivalReaction(c, s, i);
    NodeInOrder(c, s, c.orig);
    assert PayloadOk(c, s);
    if HeldAtOrig(c, s) != [] { assert HeldAtOrig(c, s)[0] in HeldAtOrig(c, s); }
  }

  lemma ArrivalKeepsPayload(c: Config, s: State, i: nat, hop: Ip)
    requires c.orig in c.topo && PayloadOk(c, s) && Enabled(c, s, i) && s.wire[i].packet.RrepPacket?
             && s.wire[i].to == c.orig
    requires HeldFor(Reaction(c, s, i).node, c.dest) == [] && hop in c.topo[c.orig] && hop != BROADCAST
    requires Reaction(c, s, i).out == if HeldAtOrig(c, s) == [] then [] else [Send(hop, Data(c))]
    ensures PayloadOk(c, Deliver(c, s, i)) && Copies(c, Deliver(c, s, i)) == Copies(c, s)
    ensures Emit(c, c.orig, Reaction(c, s, i).out) == if HeldAtOrig(c, s) == [] then [] else [Msg(hop, c.orig, Data(c))]
  {
    var s', sent := Deliver(c, s, i), Emit(c, c.orig, Reaction(c, s, i).out);
    if HeldAtOrig(c, s) != [] { InEmit(c, c.orig, Send(hop, Data(c))); }
    assert DataInFlight(s'.wire) == DataInFlight(s.wire) + DataInFlight(sent) by {
      DataWithout(s.wire, i);
      DataAdds(Without(s.wire, i), sent);
    }
    assert DataInFlight(sent) == if HeldAtOrig(c, s) == [] then 0 else 1;
    assert s'.handed == s.handed && HeldAtOrig(c, s') == [];
  }

  /** The next hop of a node that has just heard a reply. */
  lemma HeardHop(c: Config, s: State, v: Ip)
    requires GoodNet(c) && v in c.topo && v != c.dest && v !in c.cache && Routed(c, s, v)
    requires Inv(c, s) && RouteOk(c, s, v)
    ensures var w := AheadHop(c, s, v);
            w in c.topo[v] && w in c.topo && w != BROADCAST && GoesOn(c, s, w)
  {
    NodeInOrder(c, s, v);
    var w := AheadHop(c, s, v);
    assert IsLink(c, v, w);
  }

  /** At the originator the route opens and the held payload, if any, leaves. */
  lemma ArrivalKeepsRoutes(c: Config, s: State, i: nat)
    requires GoodConfig(c) && RouteInv(c, s) && ReplyNext(c, s, i) && s.wire[i].to == c.orig
    ensures RouteInv(c, Deliver(c, s, i)) && Copies(c, Deliver(c, s, i)) == Copies(c, s)
  {
    var s' := Deliver(c, s, i);
    ArrivalKeepsInv(c, s, i);
    ReplyGrows(c, s, i);
    HeardKeepsRoute(c, s, i);
    ArrivalEmits(c, s, i);
    RoutesStay(c, s, i);
  }

  lemma ArrivalEmits(c: Config, s: State, i: nat)
    requires GoodConfig(c) && RouteInv(c, s) && ReplyNext(c, s, i) && s.wire[i].to == c.orig
    ensures PayloadOk(c, Deliver(c, s, i)) && Copies(c, Deliver(c, s, i)) == Copies(c, s)
    ensures forall m :: m in Emit(c, c.orig, Reaction(c, s, i).out) ==> RouteMsgOk(c, Deliver(c, s, i), m)
  {
    var s' := Deliver(c, s, i);
    var hop := AheadHop(c, s', c.orig);
    ArrivalHop(c, s, i);
    ArrivalOut(c, s, i);
    ArrivalKeepsPayload(c, s, i, hop);
    PayloadLeaves(c, s', hop);
  }

  lemma PayloadLeaves(c: Config, s: State, hop: Ip)
    requires GoesOn(c, s, hop)
    ensures RouteMsgOk(c, s, Msg(hop, c.orig, Data(c)))
  {
  }

  lemma ArrivalHop(c: Config, s: State, i: nat)
    requires GoodConfig(c) && RouteInv(c, s) && ReplyNext(c, s, i) && s.wire[i].to == c.orig
    ensures var s' := Deliver(c, s, i);
            var w := AheadHop(c, s', c.orig);
            w in c.topo[c.orig] && w != BROADCAST && GoesOn(c, s', w)
  {
    ArrivalKeepsInv(c, s, i);
    ReplyGrows(c, s, i);
    HeardKeepsRoute(c, s, i);
    HeardHop(c, Deliver(c, s, i), c.orig);
  }

  // ----- Steps of the payload

  ghost predicate DataNext(c: Config, s: State, i: nat) {
    RouteInv(c, s) && Enabled(c, s, i) && s.wire[i].packet.DataPacket?
  }

  /** Does the destination exist and listen on the payload's port? */
  predicate Listening(c: Config, s: State) {
    c.dest in s.nodes && c.port in s.nodes[c.dest].ports && c.port != ROUTING_PORT
  }

  lemma DataReaction(c: Config, s: State, i: nat)
    requires GoodNet(c) && DataNext(c, s, i)
    ensures var m, r := s.wire[i], Reaction(c, s, i);
            && m.packet == Data(c) && r.node == s.nodes[m.to]
            && r.out == if c.port == ROUTING_PORT then []
                        else if m.to != c.dest then [Send(AheadHop(c, s, m.to), Data(c))]
                        else if c.port in r.node.ports then [Hand(c.port, c.payload, m.from)] else []
  {
    var m := s.wire[i];
    RouteMsgInOrder(c, s, m);
    NodeInOrder(c, s, m.to);
    FrameRoundTrip(c.dest, c.orig, c.payload);
    assert c.orig != BROADCAST;
    if m.to != c.dest { RouteGoesOn(c, s, m.to); }
  }

  lemma DataEmits(c: Config, s: State, i: nat)
    requires GoodNet(c) && DataNext(c, s, i)
    ensures var v, r := s.wire[i].to, Reaction(c, s, i);
            && Emit(c, v, r.out) == (if r.out != [] && r.out[0].Send? then [Msg(AheadHop(c, s, v), v, Data(c))] else [])
            && Hands(v, r.out) == (if r.out != [] && r.out[0].Hand? then [(v, r.out[0])] else [])
  {
    DataReaction(c, s, i);
    var v, out := s.wire[i].to, Reaction(c, s, i).out;
    if out != [] {
      InEmit(c, v, out[0]);
      if v != c.dest { RouteMsgInOrder(c, s, s.wire[i]); RouteGoesOn(c, s, v); }
    }
  }

  lemma DataKeepsNodes(c: Config, s: State, i: nat)
    requires GoodNet(c) && DataNext(c, s, i)
    ensures var s' := Deliver(c, s, i);
            s'.nodes == s.nodes && s'.stamp == s.stamp && s'.level == s.level && Grows(c, s, s')
  {
    DataReaction(c, s, i);
    assert s.nodes[s.wire[i].to := s.nodes[s.wire[i].to]] == s.nodes;
    SameTablesGrow(c, s, Deliver(c, s, i));
  }

  lemma DataKeepsPayload(c: Config, s: State, i: nat)
    requires GoodNet(c) && DataNext(c, s, i)
    ensures PayloadOk(c, Deliver(c, s, i))
    ensures Listening(c, s) ==> Copies(c, Deliver(c, s, i)) == Copies(c, s)
  {
    DataMoves(c, s, i);
    DataKeepsNodes(c, s, i);
    assert PayloadOk(c, s);
  }

  /** A payload in flight moves on, is handed over or, at a closed port, is lost. */
  lemma DataMoves(c: Config, s: State, i: nat)
    requires GoodNet(c) && DataNext(c, s, i)
    ensures var s' := Deliver(c, s, i);
            var before, after := DataInFlight(s.wire) + |s.handed|, DataInFlight(s'.wire) + |s'.handed|;
            && after <= before && (Listening(c, s) ==> after == before)
            && (s'.handed == s.handed || s'.handed == s.handed + [(c.dest, Hand(c.port, c.payload, s.wire[i].from))])
  {
    DataReaction(c, s, i);
    DataEmits(c, s, i);
    DataWithout(s.wire, i);
    DataAdds(Without(s.wire, i), Emit(c, s.wire[i].to, Reaction(c, s, i).out));
  }

  lemma DataMsgOk(c: Config, s: State, i: nat)
    requires GoodNet(c) && DataNext(c, s, i)
    ensures forall m :: m in Emit(c, s.wire[i].to, Reaction(c, s, i).out) ==> RouteMsgOk(c, Deliver(c, s, i), m)
  {
    RouteMsgInOrder(c, s, s.wire[i]);
    DataReaction(c, s, i);
    DataEmits(c, s, i);
    DataKeepsNodes(c, s, i);
    if s.wire[i].to != c.dest { RouteGoesOn(c, s, s.wire[i].to); }
  }

  /** The payload moves on to the next hop, or into the destination's port, and is
      neither copied nor changed; it is dropped only if nobody listens there. */
  lemma DataKeepsRoutes(c: Config, s: State, i: nat)
    requires GoodConfig(c) && DataNext(c, s, i)
    ensures RouteInv(c, Deliver(c, s, i))
    ensures Listening(c, s) ==> Copies(c, Deliver(c, s, i)) == Copies(c, s)
  {
    var v, s' := s.wire[i].to, Deliver(c, s, i);
    RouteMsgInOrder(c, s, s.wire[i]);
    DataKeepsNodes(c, s, i);
    DataKeepsPayload(c, s, i);
    ForeignKeepsInv(c, s, i);
    RouteInOrder(c, s, v);
    RouteGrows(c, s, s', v);
    DataMsgOk(c, s, i);
    RoutesStay(c, s, i);
  }

  // ----- Every step

  /** Every delivery keeps the invariant, and no copy of the payload is lost to a
      destination that listens. */
  lemma DeliverKeepsRoutes(c: Config, s: State, i: nat)
    requires GoodConfig(c) && AnswersLead(c) && RouteInv(c, s) && i < |s.wire|
    ensures Enabled(c, s, i) && RouteInv(c, Deliver(c, s, i))
    ensures Listening(c, s) ==> Copies(c, Deliver(c, s, i)) == Copies(c, s)
  {
    WireIsEnabled(c, s, i);
    RouteMsgInOrder(c, s, s.wire[i]);
    match s.wire[i].packet
    case RreqPacket(_) =>
      if !News(c, s, i) { DuplicateKeepsRoutes(c, s, i); }
      else if Answers(c, s.nodes[s.wire[i].to]) { AnswerKeepsRoutes(c, s, i); }
      else { ForwardKeepsRoutes(c, s, i); }
    case RrepPacket(_) =>
      if s.wire[i].to == c.orig { ArrivalKeepsRoutes(c, s, i); } else { RelayKeepsRoutes(c, s, i); }
    case DataPacket(_, _) => DataKeepsRoutes(c, s, i);
    case RerrPacket(_) =>
  }

  lemma LoseKeepsRoutes(c: Config, s: State, i: nat)
    requires RouteInv(c, s) && i < |s.wire|
    ensures RouteInv(c, Lose(s, i))
  {
    var s' := Lose(s, i);
    LoseKeepsInv(c, s, i);
    DataWithout(s.wire, i);
    forall v | v in c.topo
      ensures RouteOk(c, s', v)
    {
      RouteInOrder(c, s, v);
      RouteGrows(c, s, s', v);
    }
    forall m | m in s'.wire
      ensures RouteMsgOk(c, s', m)
    {
      InWithout(s.wire, i, m);
      RouteMsgInOrder(c, s, m);
      RouteMsgGrows(c, s, s', m);
    }
  }

  lemma NextKeepsRoutes(c: Config, s: State, ch: Choice)
    requires GoodConfig(c) && AnswersLead(c) && RouteInv(c, s)
    ensures RouteInv(c, Next(c, s, ch))
  {
    if s.wire != [] {
      var i := ch.which % |s.wire|;
      if ch.lost || !Enabled(c, s, i) { LoseKeepsRoutes(c, s, i); } else { DeliverKeepsRoutes(c, s, i); }
    }
  }

  lemma BeginRouteOk(c: Config, nodes: map<Ip, Node>, v: Ip)
    requires Asks(c, nodes) && v in c.topo
    ensures RouteOk(c, Begin(c, nodes), v)
  {
    BeginSends(c, nodes);
    assert StartsWell(c, nodes[v], v);
  }

  lemma BeginPayloadOk(c: Config, nodes: map<Ip, Node>)
    requires Asks(c, nodes)
    ensures PayloadOk(c, Begin(c, nodes)) && Copies(c, Begin(c, nodes)) == 1
  {
    BeginSends(c, nodes);
    NoDataInFlight(Begin(c, nodes).wire);
  }

  lemma BeginRouteMsgOk(c: Config, nodes: map<Ip, Node>, m: Msg)
    requires Asks(c, nodes) && m in Begin(c, nodes).wire
    ensures RouteMsgOk(c, Begin(c, nodes), m)
  {
    BeginSends(c, nodes);
    var i :| 0 <= i < |Begin(c, nodes).wire| && Begin(c, nodes).wire[i] == m;
  }

  lemma BeginKeepsRoutes(c: Config, nodes: map<Ip, Node>)
    requires Asks(c, nodes)
    ensures RouteInv(c, Begin(c, nodes))
  {
    BeginKeepsInv(c, nodes);
    BeginPayloadOk(c, nodes);
    forall v | v in c.topo
      ensures RouteOk(c, Begin(c, nodes), v)
    {
      BeginRouteOk(c, nodes, v);
    }
    forall m | m in Begin(c, nodes).wire
      ensures RouteMsgOk(c, Begin(c, nodes), m)
    {
      BeginRouteMsgOk(c, nodes, m);
    }
  }

  lemma StepKeepsRoutes(c: Config, tr: Trace, sched: Schedule, t: nat)
    requires GoodConfig(c) && AnswersLead(c) && IsTrace(c, tr, sched) && RouteInv(c, tr(t))
    ensures RouteInv(c, tr(t + 1))
  {
    assert StepsAt(c, tr, sched, t);
    NextKeepsRoutes(c, tr(t), sched(t));
  }

  lemma {:induction false} RunKeepsRoutes(c: Config, tr: Trace, sched: Schedule, t: nat)
    requires GoodConfig(c) && AnswersLead(c) && IsTrace(c, tr, sched) && RouteInv(c, tr(0))
    ensures RouteInv(c, tr(t))
  {
    if t > 0 {
      RunKeepsRoutes(c, tr, sched, t - 1);
      StepKeepsRoutes(c, tr, sched, t - 1);
    }
  }

  /** At every moment of every discovery the routes are in order. */
  lemma DiscoveryKeepsRoutes(c: Config, nodes: map<Ip, Node>, tr: Trace, sched: Schedule, t: nat)
    requires Discovers(c, nodes, tr, sched) && AnswersLead(c)
    ensures RouteInv(c, tr(t))
  {
    BeginKeepsRoutes(c, nodes);
    RunKeepsRoutes(c, tr, sched, t);
  }
}
