/** What one endpoint puts in its packets: a property shared by everything it can make and everything it
    stores is shared by everything it ever sends. */
module ArqStored {
  import opened Prelude
  import opened Packets
  import opened Rto
  import opened ArqModel
  import opened ArqSafety

  predicate AllSatisfy(packets: seq<Packet>, ok: Packet -> bool)
  {
    forall i :: 0 <= i < |packets| ==> ok(packets[i])
  }

  predicate AllStored(out: seq<Outstanding>, ok: Packet -> bool)
  {
    forall i :: 0 <= i < |out| ==> ok(out[i].packet)
  }

  ghost predicate AllMade(e: Arq, ok: Packet -> bool)
  {
    forall seqno, chunk :: ok(DataPacket(e, seqno, chunk))
  }

  lemma {:induction false} PutStores(out: seq<Outstanding>, o: Outstanding, ok: Packet -> bool)
    requires AllStored(out, ok) && ok(o.packet)
    ensures AllStored(Put(out, o), ok)
  {
    if out != [] && out[0].packet.seqno != o.packet.seqno {
      PutStores(out[1..], o, ok);
    }
  }

  lemma {:induction false} SendChunksStores(m: Arith, e: Arq, s: Sender, chunks: seq<bytes>, now: real, ok: Packet -> bool)
    requires AllMade(e, ok) && AllStored(s.out, ok)
    ensures var f := SendChunks(m, e, s, chunks, now); AllStored(f.snd.out, ok) && AllSatisfy(f.packets, ok)
    decreases |chunks|
  {
    if chunks != [] {
      if CanSend(e.cfg.window, s) {
        PutStores(s.out, Outstanding(DataPacket(e, s.next, chunks[0]), now, 0), ok);
        SendChunksStores(m, e, Emit(m, e, s, chunks[0], now), chunks[1..], now, ok);
      } else {
        SendChunksStores(m, e, s.(pending := s.pending + [chunks[0]]), chunks[1..], now, ok);
      }
    }
  }

  lemma {:induction false} FlushStores(m: Arith, e: Arq, s: Sender, now: real, ok: Packet -> bool)
    requires AllMade(e, ok) && AllStored(s.out, ok)
    ensures var f := Flush(m, e, s, now); AllStored(f.snd.out, ok) && AllSatisfy(f.packets, ok)
    decreases |s.pending|
  {
    if s.pending != [] && CanSend(e.cfg.window, s) {
      PutStores(s.out, Outstanding(DataPacket(e, s.next, s.pending[0]), now, 0), ok);
      FlushStores(m, e, Emit(m, e, s.(pending := s.pending[1..]), s.pending[0], now), now, ok);
    }
  }

  lemma {:induction false} AckScanStores(m: Arith, out: seq<Outstanding>, ack: int, now: real, acked: nat, rto: Estimate, ok: Packet -> bool)
    requires AllStored(out, ok)
    ensures AllStored(AckScan(m, out, ack, now, acked, rto).kept, ok)
    decreases |out|
  {
    if out != [] {
      var o := out[0];
      if !Lt(m, o.packet.seqno, ack) {
        AckScanStores(m, out[1..], ack, now, acked, rto, ok);
      } else if !(o.retx == 0 && now < o.sendTime) {
        AckScanStores(m, out[1..], ack, now, acked + |o.packet.payload|, Sampled(o, now, rto), ok);
      }
    }
  }

  lemma {:induction false} TickScanStores(out: seq<Outstanding>, now: real, rto: real, maxRetx: nat, ok: Packet -> bool)
    requires AllStored(out, ok)
    ensures var t := TickScan(out, now, rto, maxRetx); AllStored(t.out, ok) && AllSatisfy(t.packets, ok)
  {
    if out != [] {
      TickScanStores(out[1..], now, rto, maxRetx, ok);
    }
  }

  lemma AckStores(m: Arith, e: Arq, p: Packet, now: real, ok: Packet -> bool)
    requires AllMade(e, ok) && AllStored(e.snd.out, ok)
    ensures var r := OnAck(m, e, p, now); AllStored(r.ep.snd.out, ok) && AllSatisfy(r.output.packets, ok)
  {
    AckScanStores(m, e.snd.out, p.ackno, now, e.snd.ackedBytes, e.snd.rto, ok);
    var a := AckScan(m, e.snd.out, p.ackno, now, e.snd.ackedBytes, e.snd.rto);
    FlushStores(m, e, e.snd.(peerWindow := p.window, out := a.kept, ackedBytes := a.bytes, rto := a.rto), now, ok);
  }

  /** Replies to data are the endpoint's own. */
  ghost predicate AllReplies(e: Arq, ok: Packet -> bool)
  {
    forall p: Packet :: p.stream == e.cfg.stream && p.session == e.session ==> ok(p)
  }

  lemma ReactKeeps(m: Arith, e: Arq, input: Input, now: real, ok: Packet -> bool)
    requires AllReplies(e, ok) && AllStored(e.snd.out, ok)
    ensures var r := React(m, e, input, now);
      AllStored(r.ep.snd.out, ok) && AllSatisfy(r.output.packets, ok) && r.ep.session == e.session && r.ep.cfg == e.cfg
  {
    assert AllMade(e, ok);
    match input
    case Submit(data) => SendChunksStores(m, e, e.snd, Chunks(data, e.cfg.maxPayload), now, ok);
    case Receive(p) =>
      if p.session == e.session && p.ptype == ACK {
        AckStores(m, e, p, now, ok);
      }
    case Tick => TickScanStores(e.snd.out, now, e.snd.rto.rto, e.cfg.maxRetx, ok);
  }

  function UnderSession(sid: int): Packet -> bool
  {
    (p: Packet) => p.session == sid
  }

  /** An endpoint speaks under its own session only, once everything it stores does. */
  lemma ReactSpeaks(m: Arith, e: Arq, input: Input, now: real)
    requires AllStored(e.snd.out, UnderSession(e.session))
    ensures var r := React(m, e, input, now);
      AllStored(r.ep.snd.out, UnderSession(e.session)) && AllSatisfy(r.output.packets, UnderSession(e.session))
  {
    ReactKeeps(m, e, input, now, UnderSession(e.session));
  }
}
