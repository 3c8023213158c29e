/** The messages AODV nodes exchange, with the widths of aodv/aodv_packets.h, and
    the 9-byte header a data packet carries. */
module Packets {

  type U8 = x: nat | x < 0x100
  type U32 = x: nat | x < 0x1_0000_0000
  type Ip = U32

  const MAX_U32: U32 := 0xFFFF_FFFF
  /** What `getNextHop` returns for an unknown destination. */
  const NO_HOP: Ip := 0
  /** 255.255.255.255; also the value of the default argument `origIP = -1`. */
  const BROADCAST: Ip := 0xFFFF_FFFF
  const ROUTING_PORT := 5969
  const HEADER_SIZE := 9

  /** `x++` on a `uint8_t`. */
  function Inc8(x: U8): U8 { (x + 1) % 0x100 }

  /** `++x` on a `uint32_t`. */
  function Inc32(x: U32): U32 { (x + 1) % 0x1_0000_0000 }

  datatype Rreq = Rreq(hopCount: U8, rreqId: U32, destIp: Ip, destSeq: U32, origIp: Ip, origSeq: U32)
  datatype Rrep = Rrep(hopCount: U8, destIp: Ip, destSeq: U32, origIp: Ip)
  datatype Rerr = Rerr(unreachableIp: Ip, unreachableSeq: U32, origIp: Ip)

  /** A data packet as it travels: type byte 0, destination, originator, payload. */
  type Frame = f: seq<U8> | |f| >= HEADER_SIZE && f[0] == 0 witness [0, 0, 0, 0, 0, 0, 0, 0, 0]

  datatype Packet =
    | RreqPacket(rreq: Rreq)
    | RrepPacket(rrep: Rrep)
    | RerrPacket(rerr: Rerr)
    | DataPacket(port: int, frame: Frame)

  /** The four bytes `memcpy` copies out of a little-endian address. */
  function EncodeIp(ip: Ip): (b: seq<U8>)
    ensures |b| == 4
  {
    [ip % 0x100, ip / 0x100 % 0x100, ip / 0x1_0000 % 0x100, ip / 0x100_0000]
  }

  function DecodeIp(b: seq<U8>): Ip
    requires |b| == 4
  {
    b[0] as int + 0x100 * b[1] as int + 0x1_0000 * b[2] as int + 0x100_0000 * b[3] as int
  }

  lemma DecodeEncodeIp(ip: Ip)
    ensures DecodeIp(EncodeIp(ip)) == ip
  {
    assert ip == ip % 0x100 + 0x100 * (ip / 0x100);
    assert ip / 0x1_0000 == ip / 0x100 / 0x100;
    assert ip / 0x100_0000 == ip / 0x1_0000 / 0x100;
  }

  /** The buffer `sendPacket` builds around a payload. */
  function MakeFrame(dest: Ip, orig: Ip, payload: seq<U8>): Frame {
    [0] + EncodeIp(dest) + EncodeIp(orig) + payload
  }

  function FrameDest(f: Frame): Ip { DecodeIp(f[1..5]) }

  function FrameOrig(f: Frame): Ip { DecodeIp(f[5..9]) }

  function FramePayload(f: Frame): seq<U8> { f[HEADER_SIZE..] }

  /** Where the bytes lie: nine of them before the payload, the lowest of an address first. */
  lemma FrameBytes(dest: Ip, orig: Ip, payload: seq<U8>)
    ensures var f: seq<nat> := MakeFrame(dest, orig, payload);
            && |f| == 9 + |payload| && f[0] == 0 && f[9..] == payload
            && dest == f[1] + 256 * f[2] + 256 * 256 * f[3] + 256 * 256 * 256 * f[4]
            && orig == f[5] + 256 * f[6] + 256 * 256 * f[7] + 256 * 256 * 256 * f[8]
  {
    DecodeEncodeIp(dest);
    DecodeEncodeIp(orig);
  }

  /** Stripping a frame gives back exactly what it was built from. */
  lemma FrameRoundTrip(dest: Ip, orig: Ip, payload: seq<U8>)
    ensures var f := MakeFrame(dest, orig, payload);
            FrameDest(f) == dest && FrameOrig(f) == orig && FramePayload(f) == payload
  {
    var f := MakeFrame(dest, orig, payload);
    assert f[1..5] == EncodeIp(dest);
    assert f[5..9] == EncodeIp(orig);
    assert f[9..] == payload;
    DecodeEncodeIp(dest);
    DecodeEncodeIp(orig);
  }
}
