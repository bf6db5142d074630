/** The wire format: a 22-byte big-endian header, then the payload (photontcp/packet/header.py). */
module Header {
  import opened Prelude
  import opened Packets
  import opened Crc

  const HEADER_SIZE := 22
  const CRC_OFFSET := 18

  function TypeCode(t: PacketType): (b: byte)
    ensures b < 8
  {
    match t
    case SYN => 0
    case SYN_ACK => 1
    case ACK => 2
    case DATA => 3
    case NACK => 4
    case FIN => 5
    case FIN_ACK => 6
    case HEARTBEAT => 7
  }

  function TypeOf(b: byte): Option<PacketType>
  {
    match b
    case 0 => Some(SYN)
    case 1 => Some(SYN_ACK)
    case 2 => Some(ACK)
    case 3 => Some(DATA)
    case 4 => Some(NACK)
    case 5 => Some(FIN)
    case 6 => Some(FIN_ACK)
    case 7 => Some(HEARTBEAT)
    case _ => None
  }

  predicate U8(n: int) { 0 <= n < 0x100 }
  predicate U16(n: int) { 0 <= n < 0x1_0000 }
  predicate U32(n: int) { 0 <= n < 0x1_0000_0000 }

  /** Every field fits its place in the header; outside, the encoder raises. */
  predicate InRange(p: Packet)
  {
    && U8(p.version) && U8(p.flags) && U16(p.session) && U8(p.stream)
    && U32(p.seqno) && U32(p.ackno) && U16(p.window) && U16(|p.payload|)
  }

  /** Digit `k` of `n` in base 256, the lowest being 0. */
  function Byte(n: int, k: nat): byte
  {
    (match k
     case 0 => n % 0x100
     case 1 => n / 0x100 % 0x100
     case 2 => n / 0x1_0000 % 0x100
     case _ => n / 0x100_0000 % 0x100) as byte
  }

  function Join2(b1: byte, b0: byte): (n: int)
    ensures U16(n)
  {
    (b1 as int) * 0x100 + b0 as int
  }

  function Join4(b3: byte, b2: byte, b1: byte, b0: byte): (n: int)
    ensures U32(n)
  {
    Join2(b3, b2) * 0x1_0000 + Join2(b1, b0)
  }

  function FourBytes(c: int): bytes
  {
    [Byte(c, 3), Byte(c, 2), Byte(c, 1), Byte(c, 0)]
  }

  /** Everything before the checksum field. */
  function Front(p: Packet): (bs: bytes)
    requires InRange(p)
    ensures |bs| == CRC_OFFSET
  {
    [p.version as byte, TypeCode(p.ptype), p.flags as byte, Byte(p.session, 1), Byte(p.session, 0), p.stream as byte,
     Byte(p.seqno, 3), Byte(p.seqno, 2), Byte(p.seqno, 1), Byte(p.seqno, 0),
     Byte(p.ackno, 3), Byte(p.ackno, 2), Byte(p.ackno, 1), Byte(p.ackno, 0),
     Byte(p.window, 1), Byte(p.window, 0), Byte(|p.payload|, 1), Byte(|p.payload|, 0)]
  }

  /** The checksum covers the whole frame with its own field taken as zero. */
  function Covered(front: bytes, payload: bytes): bytes
  {
    front + [0, 0, 0, 0] + payload
  }

  function Pack(p: Packet): Option<bytes>
  {
    if !InRange(p) then None
    else Some(Front(p) + FourBytes(Crc32(Covered(Front(p), p.payload))) + p.payload)
  }

  datatype Parsed = Good(p: Packet) | Malformed | BadChecksum | UnknownType

  function Unpack(raw: bytes): Parsed
  {
    if |raw| < HEADER_SIZE then Malformed
    else if Join2(raw[16], raw[17]) != |raw| - HEADER_SIZE then Malformed
    else if Crc32(Covered(raw[..CRC_OFFSET], raw[HEADER_SIZE..])) != Join4(raw[18], raw[19], raw[20], raw[21]) then BadChecksum
    else if TypeOf(raw[1]).None? then UnknownType
    else Good(Fields(raw))
  }

  function Fields(raw: bytes): Packet
    requires |raw| >= HEADER_SIZE && TypeOf(raw[1]).Some?
  {
    Packet(TypeOf(raw[1]).value, Join2(raw[3], raw[4]), raw[5] as int,
           Join4(raw[6], raw[7], raw[8], raw[9]), Join4(raw[10], raw[11], raw[12], raw[13]), Join2(raw[14], raw[15]),
           raw[2] as int, raw[0] as int, raw[HEADER_SIZE..])
  }

  // ---- fields ----------------------------------------------------------------------------------

  lemma TypeRoundTrip(t: PacketType, b: byte)
    ensures TypeOf(TypeCode(t)) == Some(t)
    ensures TypeOf(b) == Some(t) <==> b == TypeCode(t)
  {
  }

  lemma SplitJoin2(n: int)
    requires U16(n)
    ensures Join2(Byte(n, 1), Byte(n, 0)) == n
  {
  }

  lemma UpperHalf(n: int)
    requires U32(n)
    ensures U16(n / 0x1_0000)
    ensures Byte(n, 3) == Byte(n / 0x1_0000, 1) && Byte(n, 2) == Byte(n / 0x1_0000, 0)
  {
    assert n / 0x100_0000 == n / 0x1_0000 / 0x100;
  }

  lemma LowerHalf(hi: int, lo: int)
    requires U16(hi) && U16(lo)
    ensures var n := hi * 0x1_0000 + lo; Byte(n, 1) == Byte(lo, 1) && Byte(n, 0) == Byte(lo, 0)
  {
    var n := hi * 0x1_0000 + lo;
    assert n / 0x100 == hi * 0x100 + lo / 0x100;
  }

  lemma TwoHalves(n: int)
    requires U32(n)
    ensures U16(n / 0x1_0000) && U16(n % 0x1_0000)
    ensures Byte(n, 3) == Byte(n / 0x1_0000, 1) && Byte(n, 2) == Byte(n / 0x1_0000, 0)
    ensures Byte(n, 1) == Byte(n % 0x1_0000, 1) && Byte(n, 0) == Byte(n % 0x1_0000, 0)
  {
    UpperHalf(n);
    LowerHalf(n / 0x1_0000, n % 0x1_0000);
    assert n == n / 0x1_0000 * 0x1_0000 + n % 0x1_0000;
  }

  lemma SplitJoin4(n: int)
    requires U32(n)
    ensures Join4(Byte(n, 3), Byte(n, 2), Byte(n, 1), Byte(n, 0)) == n
  {
    TwoHalves(n);
    SplitJoin2(n / 0x1_0000);
    SplitJoin2(n % 0x1_0000);
  }

  lemma JoinSplit2(b1: byte, b0: byte)
    ensures Byte(Join2(b1, b0), 1) == b1 && Byte(Join2(b1, b0), 0) == b0
  {
  }

  lemma JoinSplit4(b3: byte, b2: byte, b1: byte, b0: byte)
    ensures var n := Join4(b3, b2, b1, b0);
      Byte(n, 3) == b3 && Byte(n, 2) == b2 && Byte(n, 1) == b1 && Byte(n, 0) == b0
  {
    var n := Join4(b3, b2, b1, b0);
    JoinSplit2(b3, b2);
    JoinSplit2(b1, b0);
    assert n / 0x1_0000 == Join2(b3, b2) && n % 0x1_0000 == Join2(b1, b0);
    TwoHalves(n);
  }

  // ---- round trips -----------------------------------------------------------------------------

  /** Byte by byte, the front of a frame. */
  predicate Laid(p: Packet, raw: bytes)
    requires InRange(p) && |raw| >= CRC_OFFSET
  {
    && raw[0] == p.version as byte && raw[1] == TypeCode(p.ptype) && raw[2] == p.flags as byte
    && raw[3] == Byte(p.session, 1) && raw[4] == Byte(p.session, 0) && raw[5] == p.stream as byte
    && raw[6] == Byte(p.seqno, 3) && raw[7] == Byte(p.seqno, 2) && raw[8] == Byte(p.seqno, 1) && raw[9] == Byte(p.seqno, 0)
    && raw[10] == Byte(p.ackno, 3) && raw[11] == Byte(p.ackno, 2) && raw[12] == Byte(p.ackno, 1) && raw[13] == Byte(p.ackno, 0)
    && raw[14] == Byte(p.window, 1) && raw[15] == Byte(p.window, 0)
    && raw[16] == Byte(|p.payload|, 1) && raw[17] == Byte(|p.payload|, 0)
  }

  lemma EighteenBytes(raw: bytes, b0: byte, b1: byte, b2: byte, b3: byte, b4: byte, b5: byte, b6: byte, b7: byte, b8: byte,
                      b9: byte, b10: byte, b11: byte, b12: byte, b13: byte, b14: byte, b15: byte, b16: byte, b17: byte)
    requires |raw| >= CRC_OFFSET
    ensures raw[..CRC_OFFSET] == [b0, b1, b2, b3, b4, b5, b6, b7, b8, b9, b10, b11, b12, b13, b14, b15, b16, b17] <==>
      && raw[0] == b0 && raw[1] == b1 && raw[2] == b2 && raw[3] == b3 && raw[4] == b4 && raw[5] == b5
      && raw[6] == b6 && raw[7] == b7 && raw[8] == b8 && raw[9] == b9 && raw[10] == b10 && raw[11] == b11
      && raw[12] == b12 && raw[13] == b13 && raw[14] == b14 && raw[15] == b15 && raw[16] == b16 && raw[17] == b17
  {
    var f := [b0, b1, b2, b3, b4, b5, b6, b7, b8, b9, b10, b11, b12, b13, b14, b15, b16, b17];
    if raw[..CRC_OFFSET] == f {
      forall k | 0 <= k < CRC_OFFSET ensures raw[k] == f[k] {
        assert raw[..CRC_OFFSET][k] == f[k];
      }
    }
  }

  lemma LaidOut(p: Packet, raw: bytes)
    requires InRange(p) && |raw| >= CRC_OFFSET
    ensures raw[..CRC_OFFSET] == Front(p) <==> Laid(p, raw)
  {
    EighteenBytes(raw, p.version as byte, TypeCode(p.ptype), p.flags as byte, Byte(p.session, 1), Byte(p.session, 0),
      p.stream as byte, Byte(p.seqno, 3), Byte(p.seqno, 2), Byte(p.seqno, 1), Byte(p.seqno, 0),
      Byte(p.ackno, 3), Byte(p.ackno, 2), Byte(p.ackno, 1), Byte(p.ackno, 0),
      Byte(p.window, 1), Byte(p.window, 0), Byte(|p.payload|, 1), Byte(|p.payload|, 0));
  }

  /** Every field of a packet is read back from its front. */
  lemma FrontDecodes(p: Packet, raw: bytes)
    requires InRange(p) && |raw| >= HEADER_SIZE && Laid(p, raw) && raw[HEADER_SIZE..] == p.payload
    ensures TypeOf(raw[1]).Some? && Fields(raw) == p && Join2(raw[16], raw[17]) == |p.payload|
  {
    TypeRoundTrip(p.ptype, raw[1]);
    SplitJoin2(p.session);
    SplitJoin4(p.seqno);
    SplitJoin4(p.ackno);
    SplitJoin2(p.window);
    SplitJoin2(|p.payload|);
  }

  /** The front of an accepted frame is the front of the packet read from it. */
  lemma FrontEncodes(raw: bytes)
    requires |raw| >= HEADER_SIZE && TypeOf(raw[1]).Some? && Join2(raw[16], raw[17]) == |raw| - HEADER_SIZE
    ensures InRange(Fields(raw)) && Laid(Fields(raw), raw)
  {
    TypeRoundTrip(Fields(raw).ptype, raw[1]);
    JoinSplit2(raw[3], raw[4]);
    JoinSplit4(raw[6], raw[7], raw[8], raw[9]);
    JoinSplit4(raw[10], raw[11], raw[12], raw[13]);
    JoinSplit2(raw[14], raw[15]);
    JoinSplit2(raw[16], raw[17]);
  }

  lemma PackLayout(p: Packet)
    requires InRange(p)
    ensures var raw := Pack(p).value; var c := Crc32(Covered(Front(p), p.payload));
      && |raw| == HEADER_SIZE + |p.payload|
      && raw[..CRC_OFFSET] == Front(p) && raw[HEADER_SIZE..] == p.payload
      && Join4(raw[18], raw[19], raw[20], raw[21]) == c
  {
    var c := Crc32(Covered(Front(p), p.payload));
    var bs := FourBytes(c);
    SplitJoin4(c);
    var raw := Front(p) + bs + p.payload;
    assert raw[18] == bs[0] && raw[19] == bs[1] && raw[20] == bs[2] && raw[21] == bs[3];
  }

  lemma PackThenUnpack(p: Packet)
    requires InRange(p)
    ensures Unpack(Pack(p).value) == Good(p)
  {
    PackLayout(p);
    LaidOut(p, Pack(p).value);
    FrontDecodes(p, Pack(p).value);
  }

  lemma UnpackThenPack(raw: bytes)
    requires Unpack(raw).Good?
    ensures Pack(Unpack(raw).p) == Some(raw)
  {
    FrontEncodes(raw);
    LaidOut(Fields(raw), raw);
    JoinSplit4(raw[18], raw[19], raw[20], raw[21]);
    assert raw == raw[..CRC_OFFSET] + [raw[18], raw[19], raw[20], raw[21]] + raw[HEADER_SIZE..];
  }

  /** Decoding and encoding are exact inverses: a frame decodes to `p` just when `p` encodes to it. */
  lemma RoundTrip(p: Packet, raw: bytes)
    ensures Unpack(raw) == Good(p) <==> Pack(p) == Some(raw)
  {
    if Pack(p) == Some(raw) {
      PackThenUnpack(p);
    }
    if Unpack(raw) == Good(p) {
      UnpackThenPack(raw);
    }
  }

  /** What cannot be encoded is exactly what is out of range. */
  lemma EncodesInRange(p: Packet)
    ensures Pack(p).Some? <==> InRange(p)
    ensures Pack(p).Some? ==> Unpack(Pack(p).value) == Good(p)
  {
    if InRange(p) {
      RoundTrip(p, Pack(p).value);
    }
  }

  /** The wire format, byte by byte, with the numbers the types have on the wire: what packs to a frame is
      what can be read off it. */
  lemma FieldsOnTheWire(p: Packet, raw: bytes)
    requires Pack(p) == Some(raw)
    ensures |raw| == 22 + |p.payload| && raw[22..] == p.payload
    ensures p.version == raw[0] as int && p.flags == raw[2] as int && p.stream == raw[5] as int
    ensures p.ptype == SYN <==> raw[1] == 0
    ensures p.ptype == SYN_ACK <==> raw[1] == 1
    ensures p.ptype == ACK <==> raw[1] == 2
    ensures p.ptype == DATA <==> raw[1] == 3
    ensures p.ptype == NACK <==> raw[1] == 4
    ensures p.ptype == FIN <==> raw[1] == 5
    ensures p.ptype == FIN_ACK <==> raw[1] == 6
    ensures p.ptype == HEARTBEAT <==> raw[1] == 7
    ensures p.session == 256 * raw[3] as int + raw[4] as int
    ensures p.seqno == 16777216 * raw[6] as int + 65536 * raw[7] as int + 256 * raw[8] as int + raw[9] as int
    ensures p.ackno == 16777216 * raw[10] as int + 65536 * raw[11] as int + 256 * raw[12] as int + raw[13] as int
    ensures p.window == 256 * raw[14] as int + raw[15] as int
    ensures |p.payload| == 256 * raw[16] as int + raw[17] as int
    ensures Crc32(raw[..18] + [0, 0, 0, 0] + raw[22..]) == 16777216 * raw[18] as int + 65536 * raw[19] as int + 256 * raw[20] as int + raw[21] as int
  {
    PackThenUnpack(p);
  }

  // ---- damage ----------------------------------------------------------------------------------

  predicate Rejected(raw: bytes)
  {
    Unpack(raw).Malformed? || Unpack(raw).BadChecksum?
  }

  /** `raw'` differs from `raw` only inside the `k` bytes from `i` on. */
  predicate DamagedAt(raw: bytes, raw': bytes, i: nat, k: nat)
  {
    && |raw'| == |raw| && i + k <= |raw|
    && raw'[..i] == raw[..i] && raw'[i + k..] == raw[i + k..]
    && raw' != raw
  }

  /** Damage to at most four consecutive bytes, all before the checksum field or all after it; or any
      damage inside the length and checksum fields. */
  predicate Detectable(i: nat, k: nat)
  {
    (k <= 4 && (i + k <= 18 || 22 <= i)) || (16 <= i && i + k <= 22)
  }

  lemma BurstAround(x: bytes, x': bytes, i: nat, k: nat)
    requires |x'| == |x| && i + k <= |x| && k <= 4 && x'[..i] == x[..i] && x'[i + k..] == x[i + k..]
    requires Crc32(x') == Crc32(x)
    ensures x' == x
  {
    var (u, v) := (x[i..i + k], x'[i..i + k]);
    assert x == x[..i] + u + x[i + k..];
    assert x' == x[..i] + v + x[i + k..];
    BurstsAreDetected(x[..i], u, v, x[i + k..]);
  }

  lemma SameOutside(raw: bytes, raw': bytes, i: nat, k: nat, j: nat)
    requires DamagedAt(raw, raw', i, k) && j < |raw|
    ensures j < i || i + k <= j ==> raw'[j] == raw[j]
  {
    if j < i {
      assert raw'[..i][j] == raw[..i][j];
    } else if i + k <= j {
      assert raw'[i + k..][j - i - k] == raw[i + k..][j - i - k];
    }
  }

  lemma LengthBytesDecide(a1: byte, a0: byte, b1: byte, b0: byte)
    ensures Join2(a1, a0) == Join2(b1, b0) ==> a1 == b1 && a0 == b0
  {
    JoinSplit2(a1, a0);
    JoinSplit2(b1, b0);
  }

  lemma ChecksumBytesDecide(a: bytes, b: bytes)
    requires |a| == 4 && |b| == 4
    ensures Join4(a[0], a[1], a[2], a[3]) == Join4(b[0], b[1], b[2], b[3]) ==> a == b
  {
    JoinSplit4(a[0], a[1], a[2], a[3]);
    JoinSplit4(b[0], b[1], b[2], b[3]);
  }

  /** A frame is decided by its three parts. */
  lemma PartsDecide(raw: bytes, raw': bytes)
    requires |raw| == |raw'| >= HEADER_SIZE
    ensures raw'[..CRC_OFFSET] == raw[..CRC_OFFSET] && raw'[18..22] == raw[18..22] && raw'[HEADER_SIZE..] == raw[HEADER_SIZE..]
      ==> raw' == raw
  {
    assert raw == raw[..CRC_OFFSET] + raw[18..22] + raw[HEADER_SIZE..];
    assert raw' == raw'[..CRC_OFFSET] + raw'[18..22] + raw'[HEADER_SIZE..];
  }

  lemma CoverDecides(a: bytes, b: bytes, x: bytes, y: bytes)
    requires |a| == |b|
    ensures Covered(a, x) == Covered(b, y) ==> a == b && x == y
  {
    var (u, v) := (Covered(a, x), Covered(b, y));
    assert u[..|a|] == a && v[..|b|] == b;
    assert u[|a| + 4..] == x && v[|b| + 4..] == y;
  }

  /** An honest frame: long enough, with the length and the checksum it claims. */
  predicate Consistent(raw: bytes)
  {
    && |raw| >= HEADER_SIZE
    && Join2(raw[16], raw[17]) == |raw| - HEADER_SIZE
    && Crc32(Covered(raw[..CRC_OFFSET], raw[HEADER_SIZE..])) == Join4(raw[18], raw[19], raw[20], raw[21])
  }

  /** A change of the length field alone, and one of the checksum field alone. */
  lemma ChangedClaims(raw: bytes, raw': bytes)
    requires Consistent(raw) && |raw'| == |raw| && raw' != raw && raw'[HEADER_SIZE..] == raw[HEADER_SIZE..]
    requires raw'[16] != raw[16] || raw'[17] != raw[17] || raw'[..CRC_OFFSET] == raw[..CRC_OFFSET]
    ensures Rejected(raw')
  {
    LengthBytesDecide(raw'[16], raw'[17], raw[16], raw[17]);
    if raw'[..CRC_OFFSET] == raw[..CRC_OFFSET] {
      assert raw'[..CRC_OFFSET][16] == raw'[16] && raw'[..CRC_OFFSET][17] == raw'[17];
      PartsDecide(raw, raw');
      ChecksumBytesDecide(raw'[18..22], raw[18..22]);
    }
  }

  lemma OutsideClaims(raw: bytes, raw': bytes, i: nat, k: nat)
    requires |raw| >= HEADER_SIZE && DamagedAt(raw, raw', i, k) && 16 <= i && i + k <= 22
    ensures raw'[..16] == raw[..16] && raw'[HEADER_SIZE..] == raw[HEADER_SIZE..]
  {
    assert raw'[..16] == raw'[..i][..16] && raw[..16] == raw[..i][..16];
    assert raw'[22..] == raw'[i + k..][22 - i - k..] && raw[22..] == raw[i + k..][22 - i - k..];
  }

  lemma FrontOfParts(raw: bytes)
    requires |raw| >= HEADER_SIZE
    ensures raw[..CRC_OFFSET] == raw[..16] + [raw[16], raw[17]]
  {
  }

  lemma DamagedClaims(raw: bytes, raw': bytes, i: nat, k: nat)
    requires Consistent(raw) && DamagedAt(raw, raw', i, k) && 16 <= i && i + k <= 22
    ensures Rejected(raw')
  {
    OutsideClaims(raw, raw', i, k);
    FrontOfParts(raw);
    FrontOfParts(raw');
    ChangedClaims(raw, raw');
  }

  /** Damage outside the checksum field shows in the covered bytes at the same place. */
  lemma CoverIsDamaged(raw: bytes, raw': bytes, i: nat, k: nat)
    requires |raw| >= HEADER_SIZE && DamagedAt(raw, raw', i, k) && (i + k <= 18 || 22 <= i)
    ensures raw'[18..22] == raw[18..22]
    ensures var x := Covered(raw[..CRC_OFFSET], raw[HEADER_SIZE..]); var x' := Covered(raw'[..CRC_OFFSET], raw'[HEADER_SIZE..]);
      |x'| == |x| == |raw| && x'[..i] == x[..i] && x'[i + k..] == x[i + k..]
  {
    forall j | 0 <= j < |raw| && (j < i || i + k <= j) ensures raw'[j] == raw[j] {
      SameOutside(raw, raw', i, k, j);
    }
  }

  lemma DamagedCover(raw: bytes, raw': bytes, i: nat, k: nat)
    requires Consistent(raw) && DamagedAt(raw, raw', i, k) && k <= 4 && (i + k <= 18 || 22 <= i)
    ensures Rejected(raw')
  {
    CoverIsDamaged(raw, raw', i, k);
    ChecksumStays(raw, raw');
    if Crc32(Covered(raw'[..CRC_OFFSET], raw'[HEADER_SIZE..])) == Crc32(Covered(raw[..CRC_OFFSET], raw[HEADER_SIZE..])) {
      UndamagedCover(raw, raw', i, k);
    }
  }

  lemma UndamagedCover(raw: bytes, raw': bytes, i: nat, k: nat)
    requires |raw| >= HEADER_SIZE && |raw'| == |raw| && k <= 4 && i + k <= |raw| && raw'[18..22] == raw[18..22]
    requires var x := Covered(raw[..CRC_OFFSET], raw[HEADER_SIZE..]); var x' := Covered(raw'[..CRC_OFFSET], raw'[HEADER_SIZE..]);
      x'[..i] == x[..i] && x'[i + k..] == x[i + k..] && Crc32(x') == Crc32(x)
    ensures raw' == raw
  {
    BurstAround(Covered(raw[..CRC_OFFSET], raw[HEADER_SIZE..]), Covered(raw'[..CRC_OFFSET], raw'[HEADER_SIZE..]), i, k);
    CoverDecides(raw[..CRC_OFFSET], raw'[..CRC_OFFSET], raw[HEADER_SIZE..], raw'[HEADER_SIZE..]);
    PartsDecide(raw, raw');
  }

  lemma ChecksumStays(raw: bytes, raw': bytes)
    requires |raw| == |raw'| >= HEADER_SIZE && raw'[18..22] == raw[18..22]
    ensures Join4(raw'[18], raw'[19], raw'[20], raw'[21]) == Join4(raw[18], raw[19], raw[20], raw[21])
  {
    var (a, b) := (raw'[18..22], raw[18..22]);
    assert a[0] == b[0] && a[1] == b[1] && a[2] == b[2] && a[3] == b[3];
  }

  lemma AcceptedIsConsistent(p: Packet, raw: bytes)
    requires Pack(p) == Some(raw)
    ensures Consistent(raw)
  {
    PackThenUnpack(p);
  }

  /** Every such damage to a packed frame is rejected. */
  lemma DamageIsRejected(p: Packet, raw: bytes, raw': bytes, i: nat, k: nat)
    requires Pack(p) == Some(raw) && DamagedAt(raw, raw', i, k) && Detectable(i, k)
    ensures Rejected(raw')
  {
    AcceptedIsConsistent(p, raw);
    if 16 <= i && i + k <= 22 {
      DamagedClaims(raw, raw', i, k);
    } else {
      DamagedCover(raw, raw', i, k);
    }
  }

  /** So is every packed frame that comes with fewer bytes than were sent, or with more behind them. */
  lemma WrongLengthIsRejected(p: Packet, raw: bytes, raw': bytes)
    requires Pack(p) == Some(raw) && raw' != raw && (raw' <= raw || raw <= raw')
    ensures Unpack(raw').Malformed?
  {
    AcceptedIsConsistent(p, raw);
    if |raw'| >= HEADER_SIZE {
      assert raw'[16] == raw[16] && raw'[17] == raw[17];
    }
  }

  /** The loopback channel's corruption: one byte XORed with a mask (photontcp/channel/loopback.py). */
  ghost predicate Corrupts(frame: bytes, frame': bytes, idx: nat, mask: bv8)
  {
    && idx < |frame| && mask != 0
    && |frame'| == |frame|
    && (forall j :: 0 <= j < |frame| && j != idx ==> frame'[j] == frame[j])
    && Octet(frame'[idx]) == Octet(frame[idx]) ^ mask
  }

  lemma XorChanges(b: bv8, mask: bv8)
    ensures mask != 0 ==> b ^ mask != b
  {
  }

  lemma CorruptionIsDamage(raw: bytes, raw': bytes, idx: nat, mask: bv8)
    requires Corrupts(raw, raw', idx, mask)
    ensures DamagedAt(raw, raw', idx, 1) && Detectable(idx, 1)
  {
    XorChanges(Octet(raw[idx]), mask);
    assert raw'[idx] != raw[idx];
    assert raw'[..idx] == raw[..idx] && raw'[idx + 1..] == raw[idx + 1..];
  }

  /** Whatever byte of whatever packed frame it hits, a non-zero mask makes the decoder reject the frame. */
  lemma CorruptionIsRejected(p: Packet, raw: bytes, raw': bytes, idx: nat, mask: bv8)
    requires Pack(p) == Some(raw) && Corrupts(raw, raw', idx, mask)
    ensures Rejected(raw')
  {
    CorruptionIsDamage(raw, raw', idx, mask);
    DamageIsRejected(p, raw, raw', idx, 1);
  }

  // ---- a link that damages frames --------------------------------------------------------------

  /** What a link may make of a frame: some damage of the kinds above, or some bytes at the end lost or added. */
  ghost predicate Impaired(raw: bytes, raw': bytes)
  {
    || (exists i: nat, k: nat :: Detectable(i, k) && DamagedAt(raw, raw', i, k))
    || (raw' != raw && (raw' <= raw || raw <= raw'))
  }

  /** What arrives when `sent` was sent: the frame of one of those packets, as it was or impaired. */
  ghost predicate Arrives(raw: bytes, sent: seq<Packet>)
  {
    exists p :: p in sent && (Pack(p) == Some(raw) || (Pack(p).Some? && Impaired(Pack(p).value, raw)))
  }

  lemma ImpairmentIsRejected(p: Packet, raw: bytes, raw': bytes)
    requires Pack(p) == Some(raw) && Impaired(raw, raw')
    ensures Rejected(raw')
  {
    if raw' != raw && (raw' <= raw || raw <= raw') {
      WrongLengthIsRejected(p, raw, raw');
    } else {
      var i: nat, k: nat :| Detectable(i, k) && DamagedAt(raw, raw', i, k);
      DamageIsRejected(p, raw, raw', i, k);
    }
  }

  /** What the decoder makes of such a link: a packet that was sent, or nothing at all. */
  lemma ArrivesSoundOrNotAtAll(raw: bytes, sent: seq<Packet>)
    requires Arrives(raw, sent)
    ensures Rejected(raw) || (Unpack(raw).Good? && Unpack(raw).p in sent)
  {
    var p :| p in sent && (Pack(p) == Some(raw) || (Pack(p).Some? && Impaired(Pack(p).value, raw)));
    if Pack(p) == Some(raw) {
      RoundTrip(p, raw);
    } else {
      ImpairmentIsRejected(p, Pack(p).value, raw);
    }
  }
}
