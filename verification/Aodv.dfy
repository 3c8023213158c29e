/** The node as aodv/aodv.cc builds it: a protocol object whose helpers share its
    routing table and its sequence number, all changed in place. Every method is
    proved to do what its function in NodeSpec.dfy says. */
module Aodv {
  import opened Packets
  import opened RoutingTable
  import opened NodeSpec
  import Queue = CircularQueue
  import RreqIds

  /** The `uint32_t` both helpers point at. */
  class SequenceNumber {
    var value: U32

    constructor ()
      ensures value == 0
    {
      value := 0;
    }
  }

  class RreqHelper {
    const ip: Ip
    const table: AodvRoutingTable
    const sequenceNum: SequenceNumber
    var rreqId: U32
    var receivedIds: map<Ip, set<int>>

    constructor (ip: Ip, table: AodvRoutingTable, sequenceNum: SequenceNumber)
      ensures this.ip == ip && this.table == table && this.sequenceNum == sequenceNum
      ensures rreqId == 0 && receivedIds == map[]
    {
      this.ip := ip;
      this.table := table;
      this.sequenceNum := sequenceNum;
      rreqId, receivedIds := 0, map[];
    }

    method ShouldGenerateRrep(q: Rreq) returns (b: bool)
      ensures b == (q.destIp == ip || (NextHop(table.entries, q.destIp) != NO_HOP && Active(table.entries, q.destIp)))
    {
      var hop := table.GetNextHop(q.destIp);
      var active := table.GetIsRouteActive(q.destIp);
      b := q.destIp == ip || (hop != NO_HOP && active);
    }

    method IsDuplicateRreq(q: Rreq) returns (b: bool)
      modifies this`receivedIds
      ensures var known := if q.origIp in old(receivedIds) then old(receivedIds)[q.origIp] else {};
              && b == (q.origIp == ip
                       || ((q.origSeq == SeqOf(table.entries, q.origIp) || q.rreqId in known)
                           && q.hopCount >= HopsOf(table.entries, q.origIp)))
              && receivedIds == if b then old(receivedIds)
                                else old(receivedIds)[q.origIp := RreqIds.Remember(known, q.rreqId)]
    {
      var tableSeq := table.GetDestSequenceNumber(q.origIp);
      if q.origIp == ip {
        return true;
      }
      var currentCost := table.GetDestHopCount(q.origIp);
      var known := if q.origIp in receivedIds then receivedIds[q.origIp] else {};
      if (q.origSeq == tableSeq || q.rreqId in known) && q.hopCount >= currentCost {
        return true;
      }
      var ids := known + {q.rreqId as int};
      if |ids| > RreqIds.OLD_RREQ_COUNT {
        ids := ids - {RreqIds.Smallest(ids)};
      }
      receivedIds := receivedIds[q.origIp := ids];
      return false;
    }

    method CreateRreq(dest: Ip) returns (q: Rreq)
      modifies this`rreqId, sequenceNum
      ensures rreqId == Inc32(old(rreqId)) && sequenceNum.value == Inc32(old(sequenceNum.value))
      ensures q == Rreq(0, rreqId, dest, 0, ip, sequenceNum.value)
    {
      rreqId := Inc32(rreqId);
      sequenceNum.value := Inc32(sequenceNum.value);
      q := Rreq(0, rreqId, dest, 0, ip, sequenceNum.value);
    }

    method CreateForwardRreq(q: Rreq, source: Ip) returns (f: Rreq)
      modifies table
      ensures f == q.(hopCount := Inc8(q.hopCount))
      ensures table.entries == UpdateFromRreq(old(table.entries), f, source)
    {
      f := q.(hopCount := Inc8(q.hopCount));
      table.UpdateAodvRoutingTableFromRreq(f, source);
    }
  }

  class RrepHelper {
    const ip: Ip
    const table: AodvRoutingTable
    const sequenceNum: SequenceNumber

    constructor (ip: Ip, table: AodvRoutingTable, sequenceNum: SequenceNumber)
      ensures this.ip == ip && this.table == table && this.sequenceNum == sequenceNum
    {
      this.ip := ip;
      this.table := table;
      this.sequenceNum := sequenceNum;
    }

    method CreateRrepFromRreq(q: Rreq, source: Ip) returns (p: Rrep)
      modifies table, sequenceNum
      ensures table.entries == UpdateFromRreq(old(table.entries), q.(hopCount := Inc8(q.hopCount)), source)
      ensures q.destIp == ip ==>
                && sequenceNum.value ==
                   (if old(sequenceNum.value) == q.destSeq then Inc32(q.destSeq) else old(sequenceNum.value))
                && p == Rrep(0, ip, sequenceNum.value, q.origIp)
      ensures q.destIp != ip ==>
                && sequenceNum.value == old(sequenceNum.value)
                && p == Rrep(HopsOf(table.entries, q.destIp), q.destIp, SeqOf(table.entries, q.destIp), q.origIp)
    {
      table.UpdateAodvRoutingTableFromRreq(q.(hopCount := Inc8(q.hopCount)), source);
      if q.destIp == ip {
        if sequenceNum.value == q.destSeq {
          sequenceNum.value := Inc32(sequenceNum.value);
        }
        p := Rrep(0, q.destIp, sequenceNum.value, q.origIp);
      } else {
        var seqNum := table.GetDestSequenceNumber(q.destIp);
        var hops := table.GetDestHopCount(q.destIp);
        p := Rrep(hops, q.destIp, seqNum, q.origIp);
      }
    }

    method CreateForwardRrep(p: Rrep, source: Ip) returns (f: Rrep)
      modifies table
      ensures f == p.(hopCount := Inc8(p.hopCount))
      ensures table.entries ==
              if p.destSeq > SeqOf(old(table.entries), p.destIp) || p.hopCount < HopsOf(old(table.entries), p.destIp)
              then UpdateFromRrep(old(table.entries), f, source) else old(table.entries)
    {
      f := p.(hopCount := Inc8(p.hopCount));
      var known := table.GetDestSequenceNumber(p.destIp);
      var hops := table.GetDestHopCount(p.destIp);
      if p.destSeq > known || p.hopCount < hops {
        table.UpdateAodvRoutingTableFromRrep(f, source);
      }
    }
  }

  class Aodv {
    const ipAddress: Ip
    const table: AodvRoutingTable
    const sequenceNum: SequenceNumber
    const rreqHelper: RreqHelper
    const rrepHelper: RrepHelper
    var rreqPacketBuffer: map<Ip, Pending>
    var neighbors: seq<Ip>
    var ports: set<int>
    /** What has gone to the socket or to a port, in order. */
    var outbox: seq<Output>

    ghost predicate Valid()
    {
      && rreqHelper.ip == rrepHelper.ip == ipAddress
      && rreqHelper.table == rrepHelper.table == table
      && rreqHelper.sequenceNum == rrepHelper.sequenceNum == sequenceNum
    }

    ghost function State(): Node
      reads this, table, sequenceNum, rreqHelper
    {
      Node(ipAddress, sequenceNum.value, rreqHelper.rreqId, table.entries, rreqHelper.receivedIds,
           rreqPacketBuffer, neighbors, ports)
    }

    /** The state and the outbox after a step that yields `r`. */
    ghost predicate Did(r: Result, before: seq<Output>)
      reads this, table, sequenceNum, rreqHelper
    {
      State() == r.node && outbox == before + r.out
    }

    constructor (ip: Ip)
      ensures Valid() && fresh(table) && fresh(sequenceNum) && fresh(rreqHelper) && fresh(rrepHelper)
      ensures State() == Node(ip, 0, 0, map[], map[], map[], [], {}) && outbox == []
    {
      ipAddress := ip;
      var t := new AodvRoutingTable();
      var s := new SequenceNumber();
      table, sequenceNum := t, s;
      rreqHelper := new RreqHelper(ip, t, s);
      rrepHelper := new RrepHelper(ip, t, s);
      rreqPacketBuffer, neighbors, ports, outbox := map[], [], {}, [];
    }

    // ----- Links

    method LinkExists(dest: Ip) returns (b: bool)
      ensures b == NodeSpec.LinkExists(State(), dest)
    {
      if dest == BROADCAST {
        return true;
      }
      for i := 0 to |neighbors|
        invariant dest !in neighbors[..i]
      {
        if dest == neighbors[i] {
          return true;
        }
      }
      return false;
    }

    method ResetLinks()
      modifies this`neighbors
      ensures State() == NodeSpec.ResetLinks(old(State()))
    {
      neighbors := [];
    }

    method AddLink(x: Ip)
      modifies this`neighbors, table
      ensures State() == NodeSpec.AddLink(old(State()), x)
    {
      var exists_ := false;
      for i := 0 to |neighbors|
        invariant exists_ <==> x in neighbors[..i]
      {
        if x == neighbors[i] {
          exists_ := true;
        }
      }
      if !exists_ {
        neighbors := neighbors + [x];
        table.UpdateTableEntry(x, x);
      }
    }

    // ----- Sending

    method SocketSendPacket(to: Ip, packet: Packet)
      modifies this`outbox
      ensures outbox == old(outbox) + [Send(to, packet)]
    {
      outbox := outbox + [Send(to, packet)];
    }

    method BroadcastRreq(q: Rreq)
      modifies this`outbox
      ensures outbox == old(outbox) + [Send(BROADCAST, RreqPacket(q))]
    {
      SocketSendPacket(BROADCAST, RreqPacket(q));
    }

    method SendPacket(port: int, payload: seq<U8>, dest: Ip, origin: Ip)
      requires Valid()
      modifies this`rreqPacketBuffer, this`outbox, table, sequenceNum, rreqHelper`rreqId
      ensures Did(NodeSpec.SendPacket(old(State()), port, payload, dest, origin), old(outbox))
    {
      var nextHop, orig := dest, origin;
      if dest != BROADCAST {
        if orig == BROADCAST {
          orig := ipAddress;
        }
        nextHop := table.GetNextHop(dest);
        var active := table.GetIsRouteActive(dest);
        if !active {
          var held: Pending := if dest in rreqPacketBuffer then rreqPacketBuffer[dest] else [];
          rreqPacketBuffer := rreqPacketBuffer[dest := Queue.Pushed(held, PACKET_BUFFER_SIZE, Buffered(port, payload))];
          var q := rreqHelper.CreateRreq(dest);
          BroadcastRreq(q);
          return;
        }
      }
      var link := LinkExists(nextHop);
      if link {
        SocketSendPacket(nextHop, DataPacket(port, MakeFrame(dest, orig, payload)));
      } else {
        RepairLink(dest, orig);
      }
    }

    method RepairLink(finalDest: Ip, orig: Ip)
      requires Valid()
      modifies this`outbox, table, sequenceNum, rreqHelper`rreqId
      ensures Did(NodeSpec.RepairLink(old(State()), finalDest, orig), old(outbox))
    {
      if orig == ipAddress {
        var q := rreqHelper.CreateRreq(finalDest);
        BroadcastRreq(q);
      } else {
        var seqNum := table.GetDestSequenceNumber(finalDest);
        table.SetIsRouteActive(finalDest, false);
        var nextHop := table.GetNextHop(orig);
        SocketSendPacket(nextHop, RerrPacket(Rerr(finalDest, seqNum, orig)));
      }
    }

    // ----- Receiving

    method HandleRreq(q: Rreq, source: Ip)
      requires Valid()
      modifies this`outbox, table, sequenceNum, rreqHelper`receivedIds
      ensures Did(NodeSpec.HandleRreq(old(State()), q, source), old(outbox))
    {
      var duplicate := rreqHelper.IsDuplicateRreq(q);
      if duplicate {
        return;
      }
      var answer := rreqHelper.ShouldGenerateRrep(q);
      if answer {
        var p := rrepHelper.CreateRrepFromRreq(q, source);
        var nextHop := table.GetNextHop(p.origIp);
        var link := LinkExists(nextHop);
        if link {
          SocketSendPacket(nextHop, RrepPacket(p));
        }
        return;
      }
      var f := rreqHelper.CreateForwardRreq(q, source);
      BroadcastRreq(f);
    }

    /** At the originator the loop drains exactly the packets held for the
        destination, removes that queue and leaves every other queue as it was. */
    method HandleRrep(p: Rrep, source: Ip)
      requires Valid()
      modifies this`rreqPacketBuffer, this`outbox, table, sequenceNum, rreqHelper`rreqId
      ensures Did(NodeSpec.HandleRrep(old(State()), p, source), old(outbox))
      ensures ipAddress == p.origIp ==> rreqPacketBuffer == old(rreqPacketBuffer) - {p.destIp}
    {
      table.UpdateAodvRoutingTableFromRrep(p, source);
      AfterRrep(old(table.entries), p, source);
      if ipAddress == p.origIp {
        ghost var start, goal := State(), Drain(State(), p.destIp);
        if p.destIp in rreqPacketBuffer {
          while rreqPacketBuffer[p.destIp] != []
            invariant p.destIp in rreqPacketBuffer && State().ip == start.ip
            invariant Active(table.entries, p.destIp)
            invariant State().neighbors == start.neighbors && State().ports == start.ports
            invariant outbox + Drain(State(), p.destIp).out == old(outbox) + goal.out
            invariant Drain(State(), p.destIp).node == goal.node
            decreases |rreqPacketBuffer[p.destIp]|
          {
            var packet := rreqPacketBuffer[p.destIp][0];
            rreqPacketBuffer := rreqPacketBuffer[p.destIp := rreqPacketBuffer[p.destIp][1..]];
            SendPacket(packet.port, packet.payload, p.destIp, BROADCAST);
          }
        }
        rreqPacketBuffer := rreqPacketBuffer - {p.destIp};
      } else {
        var f := rrepHelper.CreateForwardRrep(p, source);
        var nextHop := table.GetNextHop(f.origIp);
        var link := LinkExists(nextHop);
        if link {
          SocketSendPacket(nextHop, RrepPacket(f));
        }
      }
    }

    method HandleRerr(e: Rerr)
      requires Valid()
      modifies this`outbox, table, sequenceNum, rreqHelper`rreqId
      ensures Did(NodeSpec.HandleRerr(old(State()), e), old(outbox))
    {
      table.SetIsRouteActive(e.unreachableIp, false);
      if e.origIp == ipAddress {
        var q := rreqHelper.CreateRreq(e.unreachableIp);
        BroadcastRreq(q);
      } else {
        var active := table.GetIsRouteActive(e.origIp);
        if active {
          var nextHop := table.GetNextHop(e.origIp);
          SocketSendPacket(nextHop, RerrPacket(e));
        }
      }
    }

    method HandleData(port: int, f: Frame, source: Ip)
      requires Valid()
      modifies this`rreqPacketBuffer, this`outbox, table, sequenceNum, rreqHelper`rreqId
      ensures Did(NodeSpec.HandleData(old(State()), port, f, source), old(outbox))
    {
      if port == ROUTING_PORT {
        return;
      }
      var finalDestination, orig := FrameDest(f), FrameOrig(f);
      if finalDestination == ipAddress || finalDestination == BROADCAST {
        if port in ports {
          outbox := outbox + [Hand(port, FramePayload(f), source)];
        }
      } else {
        SendPacket(port, FramePayload(f), finalDestination, orig);
      }
    }

    method HandlePacket(packet: Packet, source: Ip)
      requires Valid()
      modifies this`rreqPacketBuffer, this`outbox, table, sequenceNum, rreqHelper
      ensures Did(NodeSpec.Receive(old(State()), packet, source), old(outbox))
    {
      match packet
      case RreqPacket(q) => HandleRreq(q, source);
      case RrepPacket(p) => HandleRrep(p, source);
      case RerrPacket(e) => HandleRerr(e);
      case DataPacket(port, f) => HandleData(port, f, source);
    }
  }
}
