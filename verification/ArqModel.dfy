/** What one Selective Repeat endpoint does on each input (photontcp/reliability/arq.py), written once
    for two kinds of sequence numbers: the 32-bit serials the code uses, and unbounded positions. */
module ArqModel {
  import opened Prelude
  import opened Packets
  import opened Serial
  import opened Rto

  datatype Arith = Serial32 | Unbounded

  function Add(m: Arith, a: int, n: int): int
  {
    if m.Serial32? then SeqAdd(a, n) else a + n
  }

  predicate Lt(m: Arith, a: int, b: int)
  {
    if m.Serial32? then SeqLt(a, b) else a < b
  }

  function Diff(m: Arith, a: int, b: int): int
  {
    if m.Serial32? then SeqDiff(a, b) else a - b
  }

  datatype Outstanding = Outstanding(packet: Packet, sendTime: real, retx: nat)

  datatype ArqEvent = SEND_FAILED

  /** `raised` marks the one exception the engine lets escape: a negative round-trip sample. */
  datatype ArqOutput = ArqOutput(packets: seq<Packet>, delivered: seq<bytes>, events: seq<ArqEvent>, raised: bool)

  const NOTHING := ArqOutput([], [], [], false)

  /** Settings fixed at construction; the constructor refuses a window or payload size below 1. */
  datatype Config = Config(stream: int, window: pos, maxPayload: pos, maxRetx: nat)

  /** Sending half. `out` is the insertion-ordered dictionary of unacknowledged packets, keyed by seqno. */
  datatype Sender = Sender(
    next: int,
    out: seq<Outstanding>,
    peerWindow: int,
    pending: seq<bytes>,
    ackedBytes: nat,
    failed: bool,
    rto: Estimate)

  /** Receiving half. */
  datatype Receiver = Receiver(base: int, reorder: map<int, bytes>, nacked: set<int>)

  datatype Arq = Arq(session: int, cfg: Config, snd: Sender, rcv: Receiver)

  datatype Result = Result(ep: Arq, output: ArqOutput)

  function NewEndpoint(session: int, cfg: Config, sendIsn: int, recvIsn: int, rto: Estimate): Arq
  {
    Arq(session, cfg, Sender(sendIsn, [], cfg.window, [], 0, false, rto), Receiver(recvIsn, map[], {}))
  }

  // ---- windows -------------------------------------------------------------------------------

  function Advertised(window: pos, r: Receiver): nat
  {
    if window > |r.reorder| then window - |r.reorder| else 0
  }

  predicate CanSend(window: pos, s: Sender)
  {
    |s.out| < (if window < s.peerWindow then window else s.peerWindow)
  }

  // ---- packets -------------------------------------------------------------------------------

  function DataPacket(e: Arq, seqno: int, chunk: bytes): Packet
  {
    Packet(DATA, e.session, e.cfg.stream, seqno, e.rcv.base, Advertised(e.cfg.window, e.rcv),
           FLAG_NONE, PROTOCOL_VERSION, chunk)
  }

  function AckPacket(e: Arq): Packet
  {
    Bare(ACK, e.session, e.cfg.stream, e.snd.next, e.rcv.base, Advertised(e.cfg.window, e.rcv), FLAG_NONE)
  }

  function NackPacket(e: Arq, missing: int): Packet
  {
    Bare(NACK, e.session, e.cfg.stream, e.snd.next, missing, Advertised(e.cfg.window, e.rcv), FLAG_NACK)
  }

  // ---- sending -------------------------------------------------------------------------------
  // While packets are emitted only the sending half changes, so `e` below stands for the headers.

  datatype Emitted = Emitted(snd: Sender, packets: seq<Packet>)

  /** Dictionary assignment: an existing key keeps its place, a new one goes last. */
  function Put(out: seq<Outstanding>, o: Outstanding): seq<Outstanding>
  {
    if out == [] then [o]
    else if out[0].packet.seqno == o.packet.seqno then [o] + out[1..]
    else [out[0]] + Put(out[1..], o)
  }

  function Emit(m: Arith, e: Arq, s: Sender, chunk: bytes, now: real): Sender
  {
    s.(out := Put(s.out, Outstanding(DataPacket(e, s.next, chunk), now, 0)), next := Add(m, s.next, 1))
  }

  function SendChunks(m: Arith, e: Arq, s: Sender, chunks: seq<bytes>, now: real): Emitted
    decreases |chunks|
  {
    if chunks == [] then Emitted(s, [])
    else if CanSend(e.cfg.window, s) then
      var r := SendChunks(m, e, Emit(m, e, s, chunks[0], now), chunks[1..], now);
      r.(packets := [DataPacket(e, s.next, chunks[0])] + r.packets)
    else
      SendChunks(m, e, s.(pending := s.pending + [chunks[0]]), chunks[1..], now)
  }

  function Send(m: Arith, e: Arq, data: bytes, now: real): Result
  {
    var r := SendChunks(m, e, e.snd, Chunks(data, e.cfg.maxPayload), now);
    Result(e.(snd := r.snd), NOTHING.(packets := r.packets))
  }

  function Flush(m: Arith, e: Arq, s: Sender, now: real): Emitted
    decreases |s.pending|
  {
    if s.pending != [] && CanSend(e.cfg.window, s) then
      var r := Flush(m, e, Emit(m, e, s.(pending := s.pending[1..]), s.pending[0], now), now);
      r.(packets := [DataPacket(e, s.next, s.pending[0])] + r.packets)
    else Emitted(s, [])
  }

  // ---- receiving -----------------------------------------------------------------------------

  datatype Drained = Drained(base: int, reorder: map<int, bytes>, chunks: seq<bytes>)

  /** Pop buffered chunks for as long as the next expected one is there. */
  function Drain(m: Arith, base: int, reorder: map<int, bytes>): Drained
    decreases |reorder|
  {
    if base in reorder then
      assert |reorder - {base}| < |reorder| by { assert reorder.Keys == (reorder - {base}).Keys + {base}; }
      var d := Drain(m, Add(m, base, 1), reorder - {base});
      d.(chunks := [reorder[base]] + d.chunks)
    else Drained(base, reorder, [])
  }

  datatype Accepted = Accepted(rcv: Receiver, delivered: seq<bytes>)

  function Accept(m: Arith, window: pos, r: Receiver, p: Packet): Accepted
  {
    if p.seqno == r.base then
      var d := Drain(m, Add(m, r.base, 1), r.reorder);
      Accepted(Receiver(d.base, d.reorder, set k | k in r.nacked && Lt(m, d.base, k)), [p.payload] + d.chunks)
    else if Lt(m, r.base, p.seqno) && Diff(m, p.seqno, r.base) < window && p.seqno !in r.reorder then
      Accepted(r.(reorder := r.reorder[p.seqno := p.payload]), [])
    else
      Accepted(r, [])
  }

  /** A hole is asked for once. In every state the endpoint can be in, the lowest hole below the
      buffered chunks is `base` itself, which is never buffered. */
  predicate AsksForHole(r: Receiver)
  {
    r.reorder != map[] && r.base !in r.nacked
  }

  function OnData(m: Arith, e: Arq, p: Packet): Result
  {
    var a := Accept(m, e.cfg.window, e.rcv, p);
    var e1 := e.(rcv := a.rcv);
    if AsksForHole(a.rcv) then
      Result(e.(rcv := a.rcv.(nacked := a.rcv.nacked + {a.rcv.base})),
             ArqOutput([AckPacket(e1), NackPacket(e1, a.rcv.base)], a.delivered, [], false))
    else
      Result(e1, ArqOutput([AckPacket(e1)], a.delivered, [], false))
  }

  // ---- acknowledgements ----------------------------------------------------------------------

  datatype Acked = Acked(kept: seq<Outstanding>, bytes: nat, rto: Estimate, raised: bool)

  /** Drop every entry before `ack`, counting its bytes and sampling the ones never retransmitted
      (Karn); a negative sample raises and leaves the rest of the dictionary as it is. */
  function AckScan(m: Arith, out: seq<Outstanding>, ack: int, now: real, bytes: nat, rto: Estimate): Acked
    decreases |out|
  {
    if out == [] then Acked([], bytes, rto, false)
    else
      var o := out[0];
      if !Lt(m, o.packet.seqno, ack) then
        var r := AckScan(m, out[1..], ack, now, bytes, rto);
        r.(kept := [o] + r.kept)
      else if o.retx == 0 && now < o.sendTime then
        Acked(out[1..], bytes + |o.packet.payload|, rto, true)
      else
        AckScan(m, out[1..], ack, now, bytes + |o.packet.payload|, Sampled(o, now, rto))
  }

  function Sampled(o: Outstanding, now: real, rto: Estimate): Estimate
  {
    if o.retx == 0 then Sample(rto, now - o.sendTime) else rto
  }

  function OnAck(m: Arith, e: Arq, p: Packet, now: real): Result
  {
    var a := AckScan(m, e.snd.out, p.ackno, now, e.snd.ackedBytes, e.snd.rto);
    var s := e.snd.(peerWindow := p.window, out := a.kept, ackedBytes := a.bytes, rto := a.rto);
    if a.raised then Result(e.(snd := s), NOTHING.(raised := true))
    else
      var r := Flush(m, e, s, now);
      Result(e.(snd := r.snd), NOTHING.(packets := r.packets))
  }

  /** Position of a key in the dictionary, or its length when absent. */
  function IndexOf(out: seq<Outstanding>, key: int): (i: nat)
    ensures i <= |out|
    ensures i < |out| ==> out[i].packet.seqno == key
    ensures forall j :: 0 <= j < i ==> out[j].packet.seqno != key
  {
    if out == [] || out[0].packet.seqno == key then 0 else 1 + IndexOf(out[1..], key)
  }

  function Resent(o: Outstanding, now: real): Outstanding
  {
    o.(sendTime := now, retx := o.retx + 1)
  }

  function OnNack(e: Arq, p: Packet, now: real): Result
  {
    var s := e.snd.(peerWindow := p.window);
    var i := IndexOf(s.out, p.ackno);
    if i < |s.out| then
      Result(e.(snd := s.(out := s.out[i := Resent(s.out[i], now)])), NOTHING.(packets := [s.out[i].packet]))
    else Result(e.(snd := s), NOTHING)
  }

  function OnPacket(m: Arith, e: Arq, p: Packet, now: real): Result
  {
    if p.session != e.session then Result(e, NOTHING)
    else match p.ptype
      case DATA => OnData(m, e, p)
      case ACK => OnAck(m, e, p, now)
      case NACK => OnNack(e, p, now)
      case _ => Result(e, NOTHING)
  }

  // ---- timers --------------------------------------------------------------------------------

  predicate Expired(o: Outstanding, now: real, rto: real)
  {
    now - o.sendTime >= rto
  }

  datatype Ticked = Ticked(out: seq<Outstanding>, packets: seq<Packet>, exhausted: bool)

  /** Resend the expired entries in order, stopping at the first whose budget is spent. */
  function TickScan(out: seq<Outstanding>, now: real, rto: real, maxRetx: nat): Ticked
  {
    if out == [] then Ticked([], [], false)
    else if !Expired(out[0], now, rto) then
      var r := TickScan(out[1..], now, rto, maxRetx);
      r.(out := [out[0]] + r.out)
    else if out[0].retx >= maxRetx then
      Ticked(out, [], true)
    else
      var r := TickScan(out[1..], now, rto, maxRetx);
      r.(out := [Resent(out[0], now)] + r.out, packets := [out[0].packet] + r.packets)
  }

  predicate NoneExpired(s: Sender, now: real)
  {
    forall i :: 0 <= i < |s.out| ==> !Expired(s.out[i], now, s.rto.rto)
  }

  function OnTick(e: Arq, now: real): Result
  {
    if e.snd.failed || NoneExpired(e.snd, now) then Result(e, NOTHING)
    else
      var t := TickScan(e.snd.out, now, e.snd.rto.rto, e.cfg.maxRetx);
      if t.exhausted then
        Result(e.(snd := e.snd.(out := t.out, failed := true)), ArqOutput(t.packets, [], [SEND_FAILED], false))
      else
        Result(e.(snd := e.snd.(out := t.out, rto := Backoff(e.snd.rto))), NOTHING.(packets := t.packets))
  }
}
