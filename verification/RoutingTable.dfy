/** aodv/aodv_routing_table.cc: the table as a value, with the update rules as
    functions, and the class that changes it in place. */
module RoutingTable {
  import opened Packets

  /** `AODVInfo`. The constant `dest` and `ttl` fields are left out. */
  datatype Entry = Entry(nextHop: Ip, seqNum: U32, hops: U8, lastRreqId: U32, active: bool)

  type Table = map<Ip, Entry>

  function NextHop(t: Table, dest: Ip): Ip { if dest in t then t[dest].nextHop else NO_HOP }

  function SeqOf(t: Table, dest: Ip): U32 { if dest in t then t[dest].seqNum else 0 }

  function HopsOf(t: Table, dest: Ip): U8 { if dest in t then t[dest].hops else 0 }

  predicate Active(t: Table, dest: Ip) { dest in t && t[dest].active }

  /** `updateTableEntry`. A new entry's unset numbers are taken to be 0. */
  function UpdateEntry(t: Table, dest: Ip, nextHop: Ip): Table {
    var e := if dest in t then t[dest] else Entry(NO_HOP, 0, 0, 0, false);
    t[dest := e.(nextHop := nextHop, active := true)]
  }

  function Deactivate(t: Table, dest: Ip): Table {
    if dest in t then t[dest := t[dest].(active := false)] else t
  }

  /** When an RREQ, its hop count already incremented, rewrites the reverse route. */
  predicate RreqImproves(t: Table, q: Rreq) {
    q.origSeq > SeqOf(t, q.origIp) || HopsOf(t, q.origIp) > q.hopCount
  }

  function UpdateFromRreq(t: Table, q: Rreq, source: Ip): Table {
    if RreqImproves(t, q) then t[q.origIp := Entry(source, q.origSeq, q.hopCount, q.rreqId, true)] else t
  }

  /** When an RREP, its hop count as received, rewrites the forward route. */
  predicate RrepImproves(t: Table, p: Rrep) {
    p.destSeq > SeqOf(t, p.destIp) || HopsOf(t, p.destIp) > p.hopCount || !Active(t, p.destIp)
  }

  function UpdateFromRrep(t: Table, p: Rrep, source: Ip): Table {
    if RrepImproves(t, p) then
      UpdateEntry(t, p.destIp, source)[p.destIp :=
        UpdateEntry(t, p.destIp, source)[p.destIp].(seqNum := p.destSeq, hops := p.hopCount)]
    else t
  }

  /** Whichever way the update branches, the route is active afterwards, its
      number is no older and its hop count no larger than the reply's; they are the reply's
      own, and its sender the next hop, unless nothing changed. The request id stays. */
  lemma AfterRrep(t: Table, p: Rrep, source: Ip)
    ensures var t' := UpdateFromRrep(t, p, source);
            && Active(t', p.destIp)
            && SeqOf(t', p.destIp) >= p.destSeq
            && HopsOf(t', p.destIp) <= p.hopCount
            && t'[p.destIp].lastRreqId == (if p.destIp in t then t[p.destIp].lastRreqId else 0)
            && (t' == t || (t'[p.destIp].nextHop == source && SeqOf(t', p.destIp) == p.destSeq
                            && HopsOf(t', p.destIp) == p.hopCount))
            && (forall x :: x != p.destIp ==> (x in t' <==> x in t) && (x in t ==> t'[x] == t[x]))
  {
  }

  /** Section 6.2 of RFC 3561 never lets a stored number fall. This table does, exactly
      when an older request is shorter than the stored route. */
  lemma WhenNumbersFall(t: Table, q: Rreq, p: Rrep, source: Ip)
    ensures SeqOf(UpdateFromRreq(t, q, source), q.origIp) < SeqOf(t, q.origIp)
            <==> q.origSeq < SeqOf(t, q.origIp) && q.hopCount < HopsOf(t, q.origIp)
    ensures SeqOf(UpdateFromRrep(t, p, source), p.destIp) < SeqOf(t, p.destIp)
            <==> p.destSeq < SeqOf(t, p.destIp) && (p.hopCount < HopsOf(t, p.destIp) || !Active(t, p.destIp))
  {
  }

  class AodvRoutingTable {
    var entries: Table

    constructor ()
      ensures entries == map[]
    {
      entries := map[];
    }

    method GetNextHop(dest: Ip) returns (hop: Ip)
      ensures hop == NextHop(entries, dest)
    {
      if dest in entries {
        hop := entries[dest].nextHop;
      } else {
        hop := NO_HOP;
      }
    }

    method GetDestSequenceNumber(dest: Ip) returns (n: U32)
      ensures n == SeqOf(entries, dest)
    {
      if dest in entries {
        n := entries[dest].seqNum;
      } else {
        n := 0;
      }
    }

    method GetDestHopCount(dest: Ip) returns (n: U8)
      ensures n == HopsOf(entries, dest)
    {
      if dest in entries {
        n := entries[dest].hops;
      } else {
        n := 0;
      }
    }

    method GetIsRouteActive(dest: Ip) returns (b: bool)
      ensures b == Active(entries, dest)
    {
      if dest in entries {
        b := entries[dest].active;
      } else {
        b := false;
      }
    }

    method SetDestSequenceNumber(dest: Ip, n: U32)
      modifies this
      ensures entries ==
              if dest in old(entries) then old(entries)[dest := old(entries)[dest].(seqNum := n)] else old(entries)
    {
      if dest in entries {
        entries := entries[dest := entries[dest].(seqNum := n)];
      }
    }

    method SetHopCount(dest: Ip, n: U8)
      modifies this
      ensures entries ==
              if dest in old(entries) then old(entries)[dest := old(entries)[dest].(hops := n)] else old(entries)
    {
      if dest in entries {
        entries := entries[dest := entries[dest].(hops := n)];
      }
    }

    method SetLastRreqId(dest: Ip, id: U32)
      modifies this
      ensures entries ==
              if dest in old(entries) then old(entries)[dest := old(entries)[dest].(lastRreqId := id)] else old(entries)
    {
      if dest in entries {
        entries := entries[dest := entries[dest].(lastRreqId := id)];
      }
    }

    method SetIsRouteActive(dest: Ip, active: bool)
      modifies this
      ensures !active ==> entries == Deactivate(old(entries), dest)
      ensures active ==>
                entries == if dest in old(entries) then old(entries)[dest := old(entries)[dest].(active := true)]
                  else old(entries)
    {
      if dest in entries {
        entries := entries[dest := entries[dest].(active := active)];
      }
    }

    method UpdateTableEntry(dest: Ip, nextHop: Ip)
      modifies this
      ensures entries == UpdateEntry(old(entries), dest, nextHop)
    {
      if dest in entries {
        entries := entries[dest := entries[dest].(nextHop := nextHop)];
      } else {
        entries := entries[dest := Entry(nextHop, 0, 0, 0, false)];
      }
      entries := entries[dest := entries[dest].(active := true)];
    }

    method UpdateAodvRoutingTableFromRreq(q: Rreq, source: Ip)
      modifies this
      ensures entries == UpdateFromRreq(old(entries), q, source)
    {
      var known := GetDestSequenceNumber(q.origIp);
      var cost := GetDestHopCount(q.origIp);
      if q.origSeq > known || cost > q.hopCount {
        UpdateTableEntry(q.origIp, source);
        SetDestSequenceNumber(q.origIp, q.origSeq);
        SetHopCount(q.origIp, q.hopCount);
        SetLastRreqId(q.origIp, q.rreqId);
      }
    }

    method UpdateAodvRoutingTableFromRrep(p: Rrep, source: Ip)
      modifies this
      ensures entries == UpdateFromRrep(old(entries), p, source)
    {
      var known := GetDestSequenceNumber(p.destIp);
      var cost := GetDestHopCount(p.destIp);
      var active := GetIsRouteActive(p.destIp);
      if p.destSeq > known || cost > p.hopCount || !active {
        UpdateTableEntry(p.destIp, source);
        SetDestSequenceNumber(p.destIp, p.destSeq);
        SetHopCount(p.destIp, p.hopCount);
      }
    }
  }
}
