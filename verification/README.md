# Formal model of the mesh-network stack

A Dafny model of the AODV routing, radiotap parsing, prediction-model, line-of-sight,
container and neighbour-tracking code, with proofs. `dafny verify dfyconfig.toml` checks
all of it.

## What is modelled

**AODV** (`aodv/`). `RoutingTable` is the routing table; `NodeSpec` says for one node, as a
value, what every handler makes of its state and which packets it sends; `Aodv` holds the
classes, with the shared table and shared sequence number, and proves every method against
`NodeSpec`. These results stand on it:

- `Network`: any nodes, with loss, duplication, reordering, misdelivery, link changes and
  concurrent discoveries. No stored or carried sequence number exceeds its owner's; the
  remembered request ids are the 100 largest accepted (`RreqIds`).
- `ConcurrentRoutes`, `ConcurrentLoops`: the same runs, with messages that carry their real
  sender. As long as no update replaces a route to `x` by one that is no better, next hops
  towards `x` descend and cannot loop; two runs from an empty network show what happens
  otherwise.
- `Discovery`, `Flood`, `FloodWork`: one discovery on a static symmetric network, as a state
  machine with one step per delivery or loss. A schedule picks, for each step, which message
  in flight is handled and whether it is lost; all results are for every schedule. Nodes may
  start with any routes to the destination over links that exist, as `addLink` and earlier
  discoveries leave them, and with held packets that make them start discoveries of their
  own. `Inv` says that a stored reverse route leads to a strictly nearer node, and that a
  request with hop count `h` has come along a simple path of `h` links whose nodes store at
  most their distance along it. The flood ends, and every reply goes back.
- `HopWrap`: exactly when an 8-bit hop count can wrap during a discovery.
- `Payload`: at most one copy of the payload, wherever relays hold it while they ask
  themselves, and whatever routes were known.
- `Routes`, `RouteResults`, `HopsAndAges`: forward routes, when those known before that the
  request can reach lead to the destination (`AnswersLead`). Each node's `level`, the hop
  count it stored when it first had a route, rises along next hops.
- `Endings`: when every run of a discovery ends, exactly. If the request can reach a node
  whose known next hops run into a circle, the payload can go round it for ever
  (`CachedCircle` is such a network of three nodes).
- `DataPath`: a packet along any chain of next hops.
- `Handlers`: what any delivered request or reply changes and sends, for every node and
  message, told from the stored entries alone.
- `RouteErrors`: who asks, who reports and who sends on when a link is gone, and the way of a
  route error along any chain of next hops back to the originator.

**Radiotap iterator** (`hardware/rssi/radiotap.cc`). `RadiotapLayout` says which fields the
presence bits of a header announce, and where they lie. `RadiotapFields` tells
the same from the bytes, bits and parts of the fields, without the size table. `Radiotap` has
the iterator as a class whose pointers are offsets, so that any read outside the buffer would
not verify; it is proved to yield that layout.

**Prediction models** (`rem/rem_model.cc`). `Regression` proves the closed form to be the one
least-squares line; `BatteryModel` is the class with its stable/unstable state machine, the
judgement of single points and whole runs.

**Line of sight** (`LOS_Determination/defineLOS.cpp`). `LineOfSight` compares the four-case
decision with all points of the segment.

**Containers** (`data_structures/`). `HashMap` is the chained hash map on linked nodes,
`CircularQueue` the overwriting ring.

**Hello monitor** (`hello_monitor/hello_monitor.cc`). `HelloMonitor` is the timed neighbour
list, on top of the `Aodv` class.

`Sets`, `Reals` and `Options` hold arithmetic, set and sequence facts and the option type.

### Where code and documentation differ

The model follows the code.

- RFC 3561 section 6.2 never lets a stored sequence number fall; this table accepts a smaller
  hop count with an older number (`RoutingTable.WhenNumbersFall` says exactly when). Two
  concurrent requests of one node, the older one delayed, can then make next hops point at
  each other (`ConcurrentLoops.OlderNumbersLoop`).
- RFC 3561 section 6.11 raises the stored number when a route breaks; this code only marks the
  route inactive, and `updateAODVRoutingTableFromRREP` takes any reply for an inactive route.
  So a node can be told of a broken route by a node whose own route leads through it
  (`ConcurrentLoops.RouteErrorsLoop`).
- RFC 3561 section 6.7 increments an RREP's hop count before storing it; the code stores it
  first. Hop counts along a forward route need not fall at each hop: on a fresh network the
  pair of hop count and the time the pointer was written does (`HopsAndAges`), and with
  routes known before the `level` orders them. No handler reads time or level.
- The code ignores the 8-bit wrap of hop counts. A count can wrap exactly if a simple path of
  256 links leads from the originator over nodes that pass the request on
  (`HopWrap.WrapIffLongTrail`), and then reverse next hops can point at each other
  (`HopWrap.LongTrailLoops`).
- A copy of a request that arrives over an equally long path is in general not recognised as
  a duplicate and is forwarded again (`NodeSpec.EqualCopyIsAcceptedAgain` says exactly when):
  the count it carries is compared with the stored one, which is already incremented. The
  flood still ends.
- `ports[port]->handlePacket` gets the last relay as the source, not the originator.
- A comment at rem/rem_model.cc:63 says that `adaptModel` resets `difCount`; it does not.
- `isThereLOS` calls a craft exactly on the sphere an obstruction when the nearest point of
  the segment is a craft, but not when it lies between them.
- `sendHellos` reads only the low 32 bits of its 64-bit duration, as a signed number.

## Model

| member | source | states |
|---|---|---|
| Packets.FrameRoundTrip | aodv/aodv.cc:136-147 | stripping the 9-byte header of a data packet gives back the destination, the originator and the payload it was built from |
| Packets.FrameBytes | aodv/aodv.cc:136-147 | a data packet is a zero byte, the four bytes of the destination and of the originator, lowest first, and the payload |
| RoutingTable.AodvRoutingTable.GetNextHop | aodv/aodv_routing_table.cc:14-30 | the stored next hop, or 0 |
| RoutingTable.AodvRoutingTable.GetDestSequenceNumber | aodv/aodv_routing_table.cc:32-44 | the stored sequence number, or 0 |
| RoutingTable.AodvRoutingTable.GetDestHopCount | aodv/aodv_routing_table.cc:46-58 | the stored hop count, or 0 |
| RoutingTable.AodvRoutingTable.GetIsRouteActive | aodv/aodv_routing_table.cc:242-248 | whether there is an entry and it is active |
| RoutingTable.AodvRoutingTable.SetDestSequenceNumber | aodv/aodv_routing_table.cc:74-87 | changes the number of an existing entry and nothing else |
| RoutingTable.AodvRoutingTable.SetHopCount | aodv/aodv_routing_table.cc:89-102 | changes the hop count of an existing entry and nothing else |
| RoutingTable.AodvRoutingTable.SetLastRreqId | aodv/aodv_routing_table.cc:104-117 | changes the request id of an existing entry and nothing else |
| RoutingTable.AodvRoutingTable.SetIsRouteActive | aodv/aodv_routing_table.cc:119-135 | changes the active flag of an existing entry and nothing else |
| RoutingTable.AodvRoutingTable.UpdateTableEntry | aodv/aodv_routing_table.cc:173-200 | the entry exists, is active and has the given next hop; its numbers stay, or start at 0 |
| RoutingTable.AodvRoutingTable.UpdateAodvRoutingTableFromRreq | aodv/aodv_routing_table.cc:137-154 | the reverse route is rewritten as one value exactly when the request has a newer number or fewer hops |
| RoutingTable.AodvRoutingTable.UpdateAodvRoutingTableFromRrep | aodv/aodv_routing_table.cc:156-171 | the forward route is rewritten exactly when the reply has a newer number, fewer hops, or the route is inactive |
| RoutingTable.AfterRrep | aodv/aodv_routing_table.cc:161-168 | whichever way the update branches, the route is active, no older and no longer than the reply, it is the reply's own unless nothing changed, and its request id and other entries are untouched |
| RoutingTable.WhenNumbersFall | aodv/aodv_routing_table.cc:145-146 | a stored sequence number falls if and only if an older message is shorter or, for replies, the route is inactive: where the table leaves RFC 3561 |
| NodeSpec.SecondUpdateNeverFires | aodv/aodv_rrep.cc:75-79 | after the update in `_handleRREP`, the second update in `createForwardRREP` never happens |
| NodeSpec.EqualCopyIsAcceptedAgain | aodv/aodv_rreq.cc:60-61 | a copy with the same hop count is accepted again if and only if the first one rewrote the reverse route, or the stored route is longer, or its number differs and the id was evicted at once |
| NodeSpec.AcceptedLearns | aodv/aodv.cc:291-322 | answered or forwarded, an accepted request changes table and id memory in the same way |
| NodeSpec.DrainSendsAll | aodv/aodv.cc:358-364 | when a route opens, exactly as many packets are sent as were held; over an existing link they are the held payloads, framed, in order |
| NodeSpec.NewNeighborIsReached | adhoc/routing_protocol.cc:160-180 | a new neighbour's route, old or new, becomes active with the neighbour itself as next hop and keeps its numbers, data for it goes straight there, and every other route stays; a known neighbour changes nothing |
| RouteErrors.WhoAsks | aodv/aodv.cc:59-205 | every payload makes a node send one packet; it is a request if and only if there is no active route, or the next hop is out of reach and the payload is its own; the request is broadcast, for the payload's destination, with hop count 0, destination number 0 and the node's next number and id |
| RouteErrors.WhoKeeps | aodv/aodv.cc:93-123 | a payload is held if and only if there is no active route, in place of the one held before; asking again over a lost link loses it |
| RouteErrors.WhoReports | aodv/aodv.cc:186-204 | an error leaves if and only if a relay's next hop is out of reach; it names destination, stored number and originator, goes to the next hop for the originator, and exactly the route to the destination becomes inactive |
| RouteErrors.WhoSends | aodv/aodv.cc:131-152 | the payload itself leaves if and only if it is addressed to everyone or the next hop is in reach, with the originator's address, or the node's own if none is given |
| RouteErrors.DrainAsksAgain | aodv/aodv.cc:358-366 | when the route that opened has lost its link, the held payload is lost and the destination asked for once more; other held packets stay |
| RouteErrors.ErrorHeard | aodv/aodv.cc:390-422 | whoever hears of a break makes exactly that route inactive; the originator broadcasts one request for the unreachable node; others pass the error on unchanged to their next hop for the originator, or send nothing if they have no active one |
| RouteErrors.ErrorReachesOriginator | aodv/aodv.cc:390-422 | along any chain of active next hops to the originator the error is delivered once per node, passed on to the next each time, ends in one request, makes the route inactive at every node of the chain, and leaves all other nodes as they are |
| RouteErrors.OnlyByAWayBack | aodv/aodv.cc:417-421 | an error that reaches its originator has come along such a chain |
| RouteErrors.BreakIsReported | aodv/aodv.cc:162-205 | from data at a relay whose link is gone to the originator's new request: every node between has been told and has given the route up |
| RouteErrors.WhoHandsOver | aodv/aodv.cc:433-443 | a payload is handed to a port if and only if it is addressed to this node or to everyone and the port is open and not the routing port; then it is not passed on |
| Handlers.RequestHeard | aodv/aodv.cc:268-307 | every request that is the node's own, or no shorter than the stored way back with the stored number or a remembered id, does nothing; any other is answered by the destination with its own number, one higher if just that was asked for, and by any other node with an active route from the entry it has stored; the reply leaves over the way back if its next hop is in reach |
| Handlers.RequestTeaches | aodv/aodv.cc:286-322 | any other request writes the entry for its originator if its number is newer or its way shorter counted from this node, adds its id to the memory, and changes no other entry and nothing that is held |
| Handlers.RequestPassedOn | aodv/aodv.cc:308-322 | in the remaining case it is broadcast once, one hop longer modulo 256 and otherwise as it came |
| Handlers.ReplyHeard | aodv/aodv.cc:325-388 | every reply writes the entry for its destination if its number is newer, its hops fewer or the route inactive, and no other; elsewhere than at its originator it goes on once, one hop longer, if the next hop of the way back is in reach |
| Handlers.ReplyArrives | aodv/aodv.cc:349-366 | at its originator the held payload leaves over the route now known, framed with the node's own address, or, if the link is gone, is lost to a new request; nothing stays held for that destination |
| RreqIds.Smallest | aodv/aodv_rreq.cc:76 | the first id of an ordered set is its least element |
| RreqIds.RememberKeepsLargest | aodv/aodv_rreq.cc:70-77 | inserting an id and evicting the least keeps the set the 100 largest, also when the id had been evicted before |
| RreqIds.RememberedIsLargest | aodv/aodv_rreq.cc:60-79 | after any history the remembered ids are exactly the 100 largest distinct ids accepted, all of them if fewer |
| RreqIds.LargestIsUnique | aodv/aodv_rreq.cc:70-77 | only one set is the 100 largest, so the previous row determines the memory |
| Aodv.RreqHelper.ShouldGenerateRrep | aodv/aodv_rreq.cc:20-41 | true exactly at the destination, or with an active route and a next hop, whatever the sequence numbers |
| Aodv.RreqHelper.IsDuplicateRreq | aodv/aodv_rreq.cc:43-80 | the duplicate verdict, and that the memory grows by the id exactly when it is negative |
| Aodv.RreqHelper.CreateRreq | aodv/aodv_rreq.cc:82-110 | both counters are incremented in place and the request carries their new values |
| Aodv.RreqHelper.CreateForwardRreq | aodv/aodv_rreq.cc:112-127 | the hop count is incremented before the shared table learns from the request |
| Aodv.RrepHelper.CreateRrepFromRreq | aodv/aodv_rrep.cc:20-62 | the table learns, and the reply is the destination's own or the stored route's, with the number rule of each |
| Aodv.RrepHelper.CreateForwardRrep | aodv/aodv_rrep.cc:64-83 | the forwarded reply and its conditional table update |
| Aodv.Aodv.constructor | aodv/aodv.cc:20-39 | a node starts empty, its helpers sharing its table and sequence number |
| Aodv.Aodv.LinkExists | adhoc/routing_protocol.cc:116-151 | true exactly for broadcast and listed neighbours |
| Aodv.Aodv.ResetLinks | adhoc/routing_protocol.cc:153-158 | empties the neighbour list and nothing else |
| Aodv.Aodv.AddLink | adhoc/routing_protocol.cc:160-180 | a new neighbour joins list and table; a known one changes nothing |
| Aodv.Aodv.SendPacket | aodv/aodv.cc:59-160 | the whole new state and output: broadcast, hold and ask for a route, forward to the next hop, or repair |
| Aodv.Aodv.RepairLink | aodv/aodv.cc:162-205 | the originator asks for a new route; any other node deactivates the route and reports to the originator (`RouteErrors.WhoAsks` and `RouteErrors.WhoReports` give both packets field by field) |
| Aodv.Aodv.HandleRreq | aodv/aodv.cc:268-323 | the whole new state and output for duplicates, answered and forwarded requests |
| Aodv.Aodv.HandleRrep | aodv/aodv.cc:325-388 | the drain loop ends and equals the recursive drain; exactly that destination's buffer is removed; elsewhere the reply is relayed |
| Aodv.Aodv.HandleRerr | aodv/aodv.cc:390-422 | the route is deactivated, then rediscovered by the originator or reported onwards (`RouteErrors.ErrorHeard` gives packets and table field by field) |
| Aodv.Aodv.HandleData | aodv/aodv.cc:424-453 | data is handed to its port, dropped, or sent on with its header rebuilt |
| Aodv.Aodv.HandlePacket | aodv/aodv.cc:459-485 | dispatch equals `Receive`, the step function of all network results |
| Network.ReceiveRemembers | aodv/aodv.cc:268-485 | of all messages only an accepted request changes the id memory |
| Network.OnlyAcceptedRequestsAreRemembered | aodv/aodv_rreq.cc:60-79 | over every kind of input, the id memory changes only for an accepted request, and then by its id |
| Network.SeenIsLargestAccepted | aodv/aodv_rreq.cc:60-79 | in every run of a node, its memory for an originator is the 100 largest ids accepted from it |
| Network.DrainOne | aodv/aodv.cc:86-100 | a pending queue holds one packet, so draining sends once and never refills the buffer |
| Network.NumberFallsExactly | aodv/aodv_rreq.cc:107 | over every input, the own number changes exactly when one is issued, and falls exactly when that happens at 2^32 - 1 |
| Network.ReactKeepsBound | aodv/aodv.cc:268-453 | one handler run neither stores nor sends a number above its owner's, and raises its own by at most one |
| Network.StepKeepsBound | aodv/aodv_rreq.cc:107 | a network step that does not issue a number at the maximum keeps every table entry and message within the owners' numbers |
| Network.NumbersStayBounded | aodv/aodv_rrep.cc:39-53 | in every run, with loss, duplication, reordering, link changes and concurrent discoveries, no carried or stored number exceeds its owner's, and own numbers never fall |
| Network.WrapBreaksTheBound | aodv/aodv_rreq.cc:107 | a concrete step at 2^32 - 1 that breaks the bound, so the no-wrap condition is needed |
| ConcurrentRoutes.StepKeepsOrder | aodv/aodv_routing_table.cc:145-168 | a step whose guard holds keeps every next hop towards a node descending and every message in flight true |
| ConcurrentRoutes.RoutesDescend | aodv/aodv_routing_table.cc:145-168 | in every run of any number of discoveries, with loss, duplication, reordering, link changes and route errors, as long as no update of a route to x replaces it by one that is no better and no count wraps, each next hop towards x is x or better in number, then hop count, then age |
| ConcurrentRoutes.ReverseRoutesDescend | aodv/aodv_routing_table.cc:145-152 | if nobody hears of x by a reply, next hops back to x strictly descend in (number, hop count) |
| ConcurrentRoutes.RoutesNeverLoop | aodv/aodv_routing_table.cc:145-168 | in those runs no chain of next hops towards x, over active or inactive entries, comes back to where it began |
| ConcurrentLoops.OlderNumbersLoop | aodv/aodv_routing_table.cc:145-146 | a run from an empty five-node network, with one delayed request, after which two reverse next hops point at each other: the request guard is needed |
| ConcurrentLoops.BrokenGuardLoops | aodv/aodv_routing_table.cc:145-146 | in any network, if a relay breaks the request guard with a copy from another relay that has not heard of the newer request it has itself in flight, one more step makes their next hops point at each other |
| ConcurrentLoops.RouteErrorsLoop | aodv/aodv_routing_table.cc:161-168 | a run from an empty two-node network, with one route error, after which two active routes to a third node point at each other: the reply guard is needed |
| Discovery.Spread | aodv/aodv.cc:256-265 | a broadcast puts one message to each neighbour in flight |
| Flood.NewsIsNear | aodv/aodv_rreq.cc:60-61 | without long trails an accepted request has fewer than 255 hops, and at least two fewer than there are nodes |
| Flood.DuplicateKeepsInv | aodv/aodv.cc:284-289 | handling a duplicate keeps the invariant |
| Flood.ForwardKeepsInv | aodv/aodv.cc:320-322 | forwarding a request keeps the invariant |
| Flood.ForwardEmits | aodv/aodv_rreq.cc:118-126 | a forwarded request goes to every neighbour with its hop count one higher and not wrapped |
| Flood.AnswerKeepsInv | aodv/aodv.cc:291-318 | answering a request, at the destination or at a node with any route to it, keeps the invariant |
| Flood.AnswerEmits | aodv/aodv.cc:291-311 | the answer is one reply, to a neighbour strictly nearer the originator |
| Flood.ReplyGoesBack | aodv/aodv.cc:304-311 | a reply leaves for the reverse next hop, over an existing link, to a strictly nearer node |
| Flood.RelayKeepsInv | aodv/aodv.cc:366-387 | relaying a reply keeps the invariant |
| Flood.RelayEmits | aodv/aodv.cc:366-387 | a relayed reply goes to a neighbour strictly nearer the originator, with its hop count one higher |
| Flood.ArrivalKeepsInv | aodv/aodv.cc:340-365 | a reply at the originator keeps the invariant |
| Flood.ForeignKeepsInv | aodv/aodv.cc:268-453 | the payload, and messages of discoveries that relays start for the same destination, keep the invariant and send no message of this discovery |
| Flood.DeliverKeepsInv | aodv/aodv.cc:268-453 | every message in flight can be delivered next, and doing so keeps the invariant |
| Flood.BeginKeepsInv | aodv/aodv.cc:86-127 | a discovery starts within the invariant, whatever routes to the destination the other nodes have |
| Flood.RunKeepsInv | aodv/aodv.cc:268-453 | the invariant holds in every state of every run |
| Flood.BackHopsDescend | aodv/aodv_routing_table.cc:145-152 | at every moment of every discovery, a node that has heard the request points back to a neighbour that has heard it too and stores strictly fewer hops |
| FloodWork.RequestIsNear | aodv/aodv_rreq.cc:118-119 | hop counts of requests in flight stay below the number of nodes |
| FloodWork.DeliveryLowersWork | aodv/aodv.cc:268-388 | delivering a request or reply of the discovery strictly lowers the work left, and no other delivery raises it |
| FloodWork.LossLowersWork | aodv/aodv.cc:268-388 | losing one lowers it too |
| FloodWork.FloodIsBounded | aodv/aodv.cc:268-388 | under any schedule, and whatever routes were known, the requests and replies handled are at most the originator's neighbours times (n + 1)^n |
| FloodWork.FloodEnds | aodv/aodv.cc:268-388 | if every message is handled at some time, flood and replies are over at some time, and for good |
| FloodWork.ReplyHops | aodv/aodv.cc:366-387 | whatever is handled in between, a reply is delivered at most once more than its addressee's stored distance |
| FloodWork.ReplyIsInFlight | aodv/aodv.cc:366-387 | until it arrives or is lost, a reply, or the one it is relayed as, is in flight |
| FloodWork.ReplyEnds | aodv/aodv.cc:340-387 | a reply vanishes only by a loss, and once it arrives the originator's route stays open |
| FloodWork.RepliesGoBack | aodv/aodv.cc:340-387 | the three rows above for every reply of every discovery, at every moment |
| FloodWork.EveryReplyArrives | aodv/aodv.cc:366-387 | if nothing is lost and every message is handled at some time, every reply arrives |
| HopWrap.WrapIffLongTrail | aodv/aodv_rreq.cc:119 | some schedule wraps a hop count if and only if a simple path of at least 256 links leads from the originator over nodes that pass the request on |
| HopWrap.NoLongTrailNoWrap | aodv/aodv_rreq.cc:119 | without such a path no run wraps a count |
| HopWrap.LongTrailLoops | aodv/aodv_rreq.cc:119 | if the 256th link leads to another such node, a run from the start of the discovery ends with two reverse next hops that point at each other |
| HopWrap.SmallNetworksNeverWrap | aodv/aodv_rreq.cc:119 | up to 256 nodes there is no such path, whatever the links |
| HopWrap.LongLinesWrap | aodv/aodv_rreq.cc:119 | for every size above 256 there is a network with such a path: a line |
| Payload.RequestSends | aodv/aodv.cc:268-323 | a request makes a node send at most one request or reply of the same originator, and leaves its held packets alone |
| Payload.DataReceived | aodv/aodv.cc:86-127 | the payload at any node: handed over or dropped at the destination, passed on over an active route, else held alone, with a request of the node's own |
| Payload.DeliveryKeepsOneCopy | aodv/aodv.cc:268-453 | any delivery keeps at most one copy of the payload, held by one node that has asked, in flight, or handed over |
| Payload.PayloadAtMostOnce | aodv/aodv.cc:356-365 | under any schedule, and whatever routes were known before, the payload reaches only the destination's port, unchanged, at most once |
| Routes.AskedLeads | aodv/aodv_rreq.cc:30-38 | a node that answers from a known route is at the end of a trail, so its route leads to the destination |
| Routes.AnswerKeepsRoutes | aodv/aodv.cc:291-318 | answering keeps the forward invariant: routes lead on to nodes of a higher level, replies come from nodes with a route |
| Routes.RelayKeepsRoutes | aodv/aodv.cc:366-387 | relaying a reply keeps it |
| Routes.ArrivalKeepsRoutes | aodv/aodv.cc:340-365 | a reply at the originator keeps it and opens the route for the payload |
| Routes.DataKeepsRoutes | aodv/aodv.cc:424-453 | forwarding or handing over the payload keeps it |
| Routes.DataMoves | aodv/aodv.cc:424-453 | the payload is neither copied nor changed: it moves on, is handed over, or is dropped at a closed port |
| Routes.DeliverKeepsRoutes | aodv/aodv.cc:268-453 | any message in flight can be delivered next, and doing so keeps the forward invariant |
| Routes.BeginKeepsRoutes | aodv/aodv.cc:86-127 | a discovery starts within the forward invariant, whatever routes the other nodes know |
| Routes.BeginPayloadOk | aodv/aodv.cc:86-100 | it starts with exactly one copy of the payload, held by the originator |
| RouteResults.WithinIffWalk | aodv/aodv_rreq.cc:118-119 | the recursive distance predicate used below means that a walk of at most k links exists |
| RouteResults.FloodFindsShortestRoutes | aodv/aodv_rreq.cc:54-68 | when nobody in reach can answer and nothing is lost, every reachable node ends with exactly its shortest distance and a next hop on a shortest path, whatever the order |
| RouteResults.DescendingRoute | aodv/aodv_routing_table.cc:156-171 | next hops lead to the destination, each below all before it in one well-founded order |
| RouteResults.RoutesAreLoopFree | aodv/aodv_rrep.cc:53-55 | at every moment of every discovery, next hops from a node that has opened a route, or knew one that leads to the destination, visit distinct nodes with active routes over existing links and end at the destination |
| RouteResults.EveryDiscoveryEnds | aodv/aodv.cc:268-388 | if the known routes that the request can reach lead to the destination, every discovery ends with nothing in flight, under any delivery order and any loss |
| RouteResults.DiscoveryDelivers | aodv/aodv.cc:86-127 | if the destination is reachable and listens, the known routes that the request can reach lead to it, and nothing is lost, the discovery ends with an open route and the payload handed over exactly once, also when relays answer from routes they know |
| Endings.LeadsOrCircles | aodv/aodv_routing_table.cc:14-30 | a known route leads to the destination, breaks off at a node without one, or runs into a circle |
| Endings.CanGoOnForEver | aodv/aodv.cc:268-453 | in every network, if a trail of the request ends at a node whose known next hops run into a circle, some run has something in flight at every time: the node answers, and the payload goes round |
| Endings.RoutingPortEnds | aodv/aodv.cc:424-432 | a payload for the routing port is dropped by its first receiver, so that every run ends |
| Endings.AllEndIffAnswersLead | aodv/aodv.cc:268-453 | if no known route that the request can reach breaks off, every run ends if and only if each of them leads to the destination, or the payload is for the routing port |
| CachedCircle.CircleGoesOnForEver | aodv/aodv.cc:424-453 | an instance: three nodes, of which two know routes over each other |
| HopsAndAges.HopsAndAgesDescend | aodv/aodv_routing_table.cc:156-171 | when no route was known before, along forward next hops the pair (hop count, time of writing) strictly falls |
| DataPath.RelayKeepsFrame | aodv/aodv.cc:444-451 | a relay strips and rebuilds the header without changing the packet or its own state |
| DataPath.ChainDelivers | aodv/aodv.cc:424-453 | along any chain of active next hops a packet is handed over exactly once, after one delivery per node, payload and originator unchanged |
| DataPath.OriginatorEntersChain | aodv/aodv.cc:136-153 | the originator sends its payload into the chain, with its own address in the header |
| RadiotapLayout.AndIsModulo | hardware/rssi/radiotap.cc:299-300 | masking with a power-of-two alignment less one is the remainder |
| RadiotapLayout.LayoutIsTight | hardware/rssi/radiotap.cc:299-347 | laid-out fields are aligned, in order, disjoint and within the header |
| RadiotapLayout.LayoutTakesPresentFields | hardware/rssi/radiotap.cc:248-272 | a layout takes the fields among its items in order, and stops without error only at the end or at an unknown field |
| RadiotapLayout.PresentInIsTheBits | hardware/rssi/radiotap.cc:248-289 | the fields a presence word announces are exactly its set bits below bit 29, numbered from the word's base |
| RadiotapLayout.PresentInAscends | hardware/rssi/radiotap.cc:386-396 | they come in ascending order |
| RadiotapLayout.PresenceWordsAreChained | hardware/rssi/radiotap.cc:122-158 | the words up to where the arguments start are the header's own and those it chains to: bit 31 is set in all but the last |
| RadiotapLayout.ItemsAreTheBits | hardware/rssi/radiotap.cc:238-396 | from any bit of any word of a chain on, shifting bit by bit meets exactly the fields of the set bits, in order, numbers restarting after bit 29, and a vendor namespace exactly if some word has bit 30 |
| RadiotapLayout.HeaderItemsAreTheBits | hardware/rssi/radiotap.cc:107-158 | the same for the whole chain of a header that `Init` accepts |
| RadiotapLayout.HeaderTakesPresentFields | hardware/rssi/radiotap.cc:238-396 | without bit 30 the header's layout is a prefix of the fields of the set presence bits; it stops without error if and only if these are all the known ones, unless the arguments start beyond the stated length |
| RadiotapFields.TableHoldsParts | hardware/rssi/radiotap.cc:24-49 | each of the 23 fields has the length of the numbers it consists of and the alignment of the widest |
| RadiotapFields.LayoutIsSized | hardware/rssi/radiotap.cc:24-49 | so does every field of a layout |
| RadiotapFields.FirstWordLayout | hardware/rssi/radiotap.cc:238-343 | the fields of the first presence word lie where the lengths and alignments of the fields before them put them, and the first that does not fit is where the layout ends |
| RadiotapFields.FieldIsFound | hardware/rssi/radiotap.cc:238-343 | any of the 23 fields announced by the first presence word is in the layout, aligned right behind the announced fields before it, if it ends within the header |
| RadiotapFields.SignalIsFound | hardware/rssi/radiotap.cc:238-343 | the offset of the signal strength in a header of one presence word, for every combination of the five fields before it |
| RadiotapFields.ShortHeader | hardware/rssi/radiotap.cc:107-112 | a header whose stated length is less than 8 is accepted, yields no field, and ends in an error if and only if a known field's bit is set, or bit 29 and none before it |
| RadiotapFields.BitsOfWord | hardware/rssi/radiotap.cc:114 | bit k of a presence word is bit k % 8 of its byte k / 8 |
| RadiotapFields.ChainEndsAt | hardware/rssi/radiotap.cc:129-151 | a chain of presence words ends after the first whose top byte is below 128, if that lies within the length |
| RadiotapFields.WhenAccepted | hardware/rssi/radiotap.cc:94-165 | a header is accepted, its arguments starting at 8 + 4 n, if and only if its version is 0, its length fits the buffer, and word n is the first without the top bit and within the length |
| Radiotap.Iterator.Init | hardware/rssi/radiotap.cc:94-165 | accepts exactly the headers whose version, lengths and chain of presence words are in order, and starts after the chain |
| Radiotap.Iterator.WalkChain | hardware/rssi/radiotap.cc:127-158 | ends, and finds the end of the chain or rejects one that runs past the header |
| Radiotap.Iterator.FindNs | hardware/rssi/radiotap.cc:167-186 | finds a registered namespace with both identifiers, and none exactly if there is none |
| Radiotap.Iterator.Pad | hardware/rssi/radiotap.cc:299-303 | moves to the next multiple of a table alignment |
| Radiotap.Iterator.EnterVendor | hardware/rssi/radiotap.cc:305-365 | a vendor namespace is read at an even offset within the header, from the bytes of its owner, number and length; it sets where its data ends, and is returned whole if and only if it is unregistered |
| Radiotap.Iterator.EnterForeign | hardware/rssi/radiotap.cc:262-343 | a field the vendor's table knows is returned, aligned and sized as that says; one it does not know makes the iterator skip to the end of the namespace's data and give the namespace up |
| Radiotap.Iterator.Extend | hardware/rssi/radiotap.cc:371-384 | the next presence word is one that `Init` checked |
| Radiotap.Iterator.Step | hardware/rssi/radiotap.cc:238-396 | one presence bit: uses up one bit, keeps reads in bounds, and takes one item off the layout |
| Radiotap.Iterator.Next | hardware/rssi/radiotap.cc:235-397 | every call ends; an argument lies after the presence words and within the header; without vendor namespaces it is the layout's next field |
| Radiotap.ReadRest | hardware/rssi/radiotap.cc:235-397 | walking an iterator to its end yields exactly the rest of the layout |
| Radiotap.ReadAll | hardware/rssi/radiotap.cc:94-397 | init then next until non-zero ends on every header; if bit 30 is clear in every presence word it yields exactly the header's layout and reason to stop, a prefix of the fields of the set presence bits, and all the known ones if and only if it stops without error (unless the arguments start beyond the stated length); each has the length and alignment of its parts, and those of the first word lie where the bits before theirs say |
| Regression.DenominatorIsPositive | rem/rem_model.cc:262-263 | the denominator is positive exactly when there are two distinct times, else zero |
| Regression.ResidualsShift | rem/rem_model.cc:262-263 | the residuals of two lines differ by a sum of squares plus the normal equations |
| Regression.ClosedFormIsNormal | rem/rem_model.cc:262-263 | slope and intercept solve the normal equations |
| Regression.ClosedFormIsLeast | rem/rem_model.cc:242-274 | slope and intercept are the one line with the least sum of squared residuals |
| Regression.OnLineIsRecovered | rem/rem_model.cc:74-87 | data on a line gives back that line, with deviation zero |
| BatteryModel.PredictionModel.AddDataPoint | rem/rem_model.cc:6-71 | one call changes the model exactly as the judgement of the point says; a refit sets the window to four and asks for a broadcast |
| BatteryModel.PredictionModel.WithinExpectedValueRange | rem/rem_model.cc:93-141 | in numbers: good if and only if within 30 of the prediction and within 6 or four deviations of it; the new state and the counter; the trend branch is never taken |
| BatteryModel.PredictionModel.AdaptModel | rem/rem_model.cc:153-190 | a refit uses exactly the last four points and no index falls below zero |
| BatteryModel.PredictionModel.Window | rem/rem_model.cc:165-179 | the loop collects exactly the last points of the window, in order |
| BatteryModel.PredictionModel.PerformRegression | rem/rem_model.cc:242-274 | the loops compute the closed form and the mean deviation; a zero denominator gives a fit that is no number |
| BatteryModel.PredictionModel.Accumulate | rem/rem_model.cc:245-260 | the loop computes the sums |
| BatteryModel.PredictionModel.CalculateDeviations | rem/rem_model.cc:74-90 | sigma is the mean absolute deviation from the fitted line |
| BatteryModel.PredictionModel.GetDataPoint | rem/rem_model.cc:221-227 | the line's value when stable, else -1 |
| BatteryModel.BadTailIsMaximal | rem/rem_model.cc:48-60 | the counted tail is the longest run of bad points at the end |
| BatteryModel.CounterMeaning | rem/rem_model.cc:48-63 | although no refit resets it, the counter is the number of bad points in a row, or above four if one of them missed by more than 30 |
| BatteryModel.RunByVerdicts | rem/rem_model.cc:32-70 | along a run the judgements alone decide the counter, and no call ends in state BAD |
| BatteryModel.RunIsEarlyFirst | rem/rem_model.cc:32-44 | in every run exactly the first three points come before initialisation |
| BatteryModel.RefitExactly | rem/rem_model.cc:46-70 | past initialisation a point triggers a refit if and only if the bad points the run ends with are at least four or contain a miss, and on exactly the last four points |
| BatteryModel.VerdictInNumbers | rem/rem_model.cc:93-141 | a point is missed if and only if it is more than 30 from the line, or from -1 if the model is unstable; off if and only if it is not, but is more than 6 and more than four deviations away; an undefined fit accepts every point of a stable model |
| BatteryModel.SigmaIsMeanDistance | rem/rem_model.cc:75-91 | the deviation is the mean distance of the three or four fitted points from the line |
| BatteryModel.LineIsKept | rem/rem_model.cc:46-51 | after three points exactly on a line every run keeps that fit and stays stable while points come within 6 of it |
| BatteryModel.LineIsLeft | rem/rem_model.cc:52-64 | the first point farther off makes it unstable, or, beyond 30, refit on the last four points |
| BatteryModel.AveragesAlong | rem/rem_model.cc:14-27 | each weighted average is a tenth of the one before and nine tenths of the value |
| BatteryModel.UnstableModelRefits | rem/rem_model.cc:223-226 | an unstable model predicts -1, so any measurement above 29 makes it refit |
| BatteryModel.NotANumberIsForever | rem/rem_model.cc:101-140 | a fit that divided zero by zero accepts every later point and is never replaced |
| BatteryModel.FitIsLeastSquares | rem/rem_model.cc:242-274 | a fit is undefined exactly when all its points share one time, else it is the least-squares line |
| LineOfSight.NearestIsNearest | LOS_Determination/defineLOS.cpp:153-167 | the clamped closest parameter is the nearest point of the segment |
| LineOfSight.ClearIsUnobstructed | LOS_Determination/defineLOS.cpp:170-192 | true if and only if no point of the segment is strictly inside the sphere and not (the nearest point is a craft, and a craft is on the sphere) |
| LineOfSight.BlockedHasWitness | LOS_Determination/defineLOS.cpp:170-192 | a false answer has a point of the segment inside or on the sphere |
| LineOfSight.PositionIsOnLine | LOS_Determination/defineLOS.cpp:92-143 | a craft on p + i v at the two stored steps i around a time is taken to be at p + (time / timestepSize) v |
| LineOfSight.StoredPosition | LOS_Determination/defineLOS.cpp:92-143 | at a stored time the stored position is used |
| LineOfSight.ClearIsSymmetric | LOS_Determination/defineLOS.cpp:145-192 | the answer is the same with the craft swapped |
| LineOfSight.ClearScales | LOS_Determination/defineLOS.cpp:145-192 | the answer is the same after scaling positions and radius by a positive factor |
| LineOfSight.ScalingKeepsLineOfSight | LOS_Determination/defineLOS.cpp:213-224 | the same for stored orbits, through interpolation |
| LineOfSight.Los.IsThereLos | LOS_Determination/defineLOS.cpp:73-192 | the decision on the two interpolated positions, for every time whose truncated step and the next are stored, also between -timestepSize and 0: at a stored time on the stored positions, in general on where even motion through the two stored positions of each craft has brought it |
| LineOfSight.Los.ScalePositions | LOS_Determination/defineLOS.cpp:213-224 | every stored position of every craft and the radius are scaled, nothing else |
| HashMap.HashBucket.Find | data_structures/safe_hash_node.h:57-73 | the value of the key in the bucket's map, or none |
| HashMap.HashBucket.Insert | data_structures/safe_hash_node.h:77-106 | updates the bucket's map, keeps the list acyclic with distinct keys, and adds at most one fresh node |
| HashMap.HashBucket.Erase | data_structures/safe_hash_node.h:109-138 | removes the key from the bucket's map and adds no node |
| HashMap.HashBucket.Clear | data_structures/safe_hash_node.h:141-154 | empties the bucket |
| HashMap.MapUpdate | data_structures/safe_hash_node.h:84-104 | overwriting the first entry of a key, or appending one, updates the list's map |
| HashMap.MapRemove | data_structures/safe_hash_node.h:116-137 | unlinking the only entry of a key removes it from the list's map |
| HashMap.MergeLookup | data_structures/safe_hash_map.h:50-54 | a key of the union of buckets is found in the bucket its hash selects |
| HashMap.MergeUpdate | data_structures/safe_hash_map.h:58-62 | inserting into the selected bucket updates the union |
| HashMap.MergeRemove | data_structures/safe_hash_map.h:65-69 | erasing from the selected bucket updates the union |
| HashMap.SafeHashMap.constructor | data_structures/safe_hash_map.h:32-35 | a table of any positive size starts as the empty map |
| HashMap.SafeHashMap.Find | data_structures/safe_hash_map.h:50-54 | the value of the key in the map, or none |
| HashMap.SafeHashMap.Insert | data_structures/safe_hash_map.h:58-62 | updates the map; keys stay unique, in their hash's bucket, and buckets share no node |
| HashMap.SafeHashMap.Erase | data_structures/safe_hash_map.h:65-69 | removes the key from the map |
| HashMap.SafeHashMap.Clear | data_structures/safe_hash_map.h:72-78 | empties the map |
| HashMap.Replay | data_structures/safe_hash_map.h:50-78 | any sequence of operations answers as a mathematical map does, for any hash function and table size |
| CircularQueue.CircularQueue.Push | data_structures/circular_queue.h:69-83 | appends, and loses the oldest element exactly when full |
| CircularQueue.CircularQueue.Peek | data_structures/circular_queue.h:92-98 | the oldest element, exactly if there is one |
| CircularQueue.CircularQueue.Pop | data_structures/circular_queue.h:107-118 | removes the oldest element, exactly if there is one |
| CircularQueue.AroundAfterPush | data_structures/circular_queue.h:69-82 | writing behind the last element appends it, also across the end of the array |
| CircularQueue.AroundAfterOverwrite | data_structures/circular_queue.h:69-79 | on a full ring the write replaces the oldest element and the order turns by one |
| CircularQueue.RunLaw | data_structures/circular_queue.h:69-118 | over any interleaving, the contents are the latest pushes, popped elements are an in-order subsequence of the earlier ones, and pushes = pops + contents + losses |
| HelloMonitor.HelloMonitor.ReceiveHelloMessage | hello_monitor/hello_monitor.cc:117-135 | the sender becomes a neighbour at once and its detection time is the clock |
| HelloMonitor.HelloMonitor.RefreshLinks | hello_monitor/hello_monitor.cc:49-79 | the rebuilt list is exactly the nodes heard less than 1000 ms ago, in ascending order |
| HelloMonitor.RebuiltRoutes | adhoc/routing_protocol.cc:153-180 | rebuilding the list gives every listed node an active route over its own link and takes none away: a node no longer heard keeps an active route without a link |
| HelloMonitor.HelloMonitor.OnePass | hello_monitor/hello_monitor.cc:46-98 | a pass refreshes the list, sends exactly one hello, and takes exactly 500 ms |
| HelloMonitor.HelloMonitor.UpdateNeighbors | hello_monitor/hello_monitor.cc:32-102 | the recursion ends and has sent exactly the counted number of hellos; the clock is that many intervals on, and the list is as the last pass made it |
| HelloMonitor.OnePassLess | hello_monitor/hello_monitor.cc:37-101 | a pass lowers the remaining time by 500 ms or to nothing, although the subtraction wraps |
| HelloMonitor.BroadcastsExactly | hello_monitor/hello_monitor.cc:17-44 | for 0 < d < 2^31 the count is d/500 rounded up; no hello is sent exactly when the low 32 bits are 0 or negative |
| HelloMonitor.FreshOfAscending | hello_monitor/hello_monitor.cc:58-77 | filtering the ordered map entry by entry gives the fresh set in order |
| HelloMonitor.HeardIsLatest | hello_monitor/hello_monitor.cc:131-132 | a detection time is the time of an actual hello and no later hello exists |
| HelloMonitor.NeighborsAreRecent | hello_monitor/hello_monitor.cc:56-77 | with a monotone clock and a pass at most 500 ms ago, a node heard less than 1000 ms ago is listed, a listed node was heard less than 1500 ms ago, and nobody is listed twice |

## Left out

- Bytes of routing messages: they are modelled as parsed, without struct layout, length checks, flags, lifetimes or the type byte; data on the routing port is dropped, as its type byte 0 is.
- `ttl`, the constant `dest` field and `getLastRREQId`: no decision reads them.
- Unset fields: a table entry made by `addLink` starts with numbers 0, a prediction model in state INIT with window size 0.
- Pending packet queues are values with the ring's push, not ring objects; `PACKET_BUFFER_SIZE` is 1.
- Route request retries (`RREQ_RETRIES` is 0), local repair, which always fails, `forwardRERR` and `compareToPreviousModel`, which are stubs.
- Threads and mutexes: a locked operation is one atomic method.
- Sockets, ports, logs, files and debug output: sending is appending to an outbox.
- ConcurrentRoutes.RoutesNeverLoop: the guards are sufficient; a single update that breaks one need not close a loop, which depends on what the other nodes store; `ConcurrentLoops.BrokenGuardLoops` is one case in which the next step closes it. Messages carry their real sender there, while `Network.Step` also allows misdelivery.
- Discovery runs have no other traffic than the discovery, what relays send for the same destination, and the payload, and no hello updates or link changes.
- Endings.AllEndIffAnswersLead: leaves out known routes that break off, that is, that lead to a node without a route: that node holds the payload and asks for a route itself, and what becomes of that request depends on every other known route. `RouteResults.EveryDiscoveryEnds` and `Endings.CanGoOnForEver` hold beside them.
- HopWrap.LongTrailLoops: for a path whose 256th link ends at a node that answers instead, only the wrap is shown.
- Network.NumbersStayBounded: no node of the run issues a number at 2^32 - 1, because `Network.WrapBreaksTheBound` shows the bound fails there; `Network.NumberFallsExactly` is the exact condition for one step.
- Floating-point rounding: reals stand for doubles, with one NaN for 0/0; the casts to `float` do not round.
- The RSS model, which needs a logarithm, and the sum of squared values, which is never used.
- `distanceBetweenSC` and reading orbit files; `isThereLOS` is modelled for times whose truncated step and the one after it are stored, since the code reads outside its arrays otherwise.
- The radiotap override table, which is compiled out, and alignments in memory: alignment is relative to the header, as in the code.
- Freeing memory, and locks within the containers; `clear` unlinks without freeing.
- HelloMonitor.HelloMonitor.Sleep: lasts exactly as long as asked, and hellos that arrive during a pass are events of the runs, not of the method.
- The null check of `sendHellos`, and the 40 bytes a hello copies from a 4-byte address: the payload is given.
- The simulator integration, `rem.cc`, and the network monitor around these components.
