/** Packet values and their wire enumerations (photontcp/packet/types.py, photontcp/packet/header.py). */
module Packets {
  import opened Prelude

  datatype PacketType = SYN | SYN_ACK | ACK | DATA | NACK | FIN | FIN_ACK | HEARTBEAT

  const PROTOCOL_VERSION := 1
  const FLAG_NONE := 0
  const FLAG_SYN := 1
  const FLAG_ACK := 2
  const FLAG_FIN := 4
  const FLAG_NACK := 8

  datatype Packet = Packet(
    ptype: PacketType,
    session: int,
    stream: int,
    seqno: int,
    ackno: int,
    window: int,
    flags: int,
    version: int,
    payload: bytes)

  /** A packet with no payload and the current protocol version. */
  function Bare(ptype: PacketType, session: int, stream: int, seqno: int, ackno: int, window: int, flags: int): Packet
  {
    Packet(ptype, session, stream, seqno, ackno, window, flags, PROTOCOL_VERSION, [])
  }
}
