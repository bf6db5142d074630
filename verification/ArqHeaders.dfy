/** What the packets of an endpoint say, field by field, and how the window they advertise is kept. */
module ArqHeaders {
  import opened Prelude
  import opened Packets
  import opened Rto
  import opened ArqModel
  import opened ArqSafety
  import opened ArqSystem
  import opened ArqTheorems
  import opened ArqStored

  // ---- every packet ever sent ------------------------------------------------------------------

  /** The fields that are the same in all packets of one kind. */
  predicate HeaderOk(q: Packet, session: int, cfg: Config)
  {
    && q.session == session && q.stream == cfg.stream && q.version == 1 && 0 <= q.window <= cfg.window
    && match q.ptype
       case DATA => q.flags == 0
       case ACK => q.flags == 0 && q.payload == []
       case NACK => q.flags == 8 && q.payload == []
       case _ => false
  }

  function HeaderFor(session: int, cfg: Config): Packet -> bool
  {
    q => HeaderOk(q, session, cfg)
  }

  lemma DataHasHeader(m: Arith, e: Arq, p: Packet)
    ensures AllSatisfy(OnData(m, e, p).output.packets, HeaderFor(e.session, e.cfg))
  {
  }

  /** Whatever an endpoint does, all it sends and keeps has its header. */
  lemma HeadersKept(m: Arith, e: Arq, input: Input, now: real)
    requires AllStored(e.snd.out, HeaderFor(e.session, e.cfg))
    ensures var r := React(m, e, input, now); var ok := HeaderFor(e.session, e.cfg);
      r.ep.session == e.session && r.ep.cfg == e.cfg && AllStored(r.ep.snd.out, ok) && AllSatisfy(r.output.packets, ok)
  {
    var ok := HeaderFor(e.session, e.cfg);
    HalvesAreIndependent(m, e, input, now);
    assert AllMade(e, ok);
    match input
    case Submit(data) => SendChunksStores(m, e, e.snd, Chunks(data, e.cfg.maxPayload), now, ok);
    case Tick => TickScanStores(e.snd.out, now, e.snd.rto.rto, e.cfg.maxRetx, ok);
    case Receive(p) =>
      if p.session == e.session && p.ptype == ACK {
        AckStores(m, e, p, now, ok);
      } else if p.session == e.session && p.ptype == DATA {
        DataHasHeader(m, e, p);
      }
  }

  ghost predicate SpeaksWell(x: Peer, session: int, cfg: Config)
  {
    && x.ep.session == session && x.ep.cfg == cfg && AllStored(x.ep.snd.out, HeaderFor(session, cfg))
    && forall q :: q in x.sent ==> HeaderOk(q, session, cfg)
  }

  lemma StepSpeaksWell(m: Arith, x: Peer, input: Input, now: real, session: int, cfg: Config)
    requires SpeaksWell(x, session, cfg)
    ensures SpeaksWell(StepPeer(m, x, input, now), session, cfg)
  {
    var packets := React(m, x.ep, input, now).output.packets;
    HeadersKept(m, x.ep, input, now);
    forall i | 0 <= i < |packets| ensures HeaderOk(packets[i], session, cfg) {
      assert HeaderFor(session, cfg)(packets[i]);
    }
  }

  lemma {:induction false} RunSpeaksWell(m: Arith, s: Sys, run: seq<Label>, session: int, cfgA: Config, cfgB: Config)
    requires SpeaksWell(s.a, session, cfgA) && SpeaksWell(s.b, session, cfgB)
    ensures var t := Run(m, s, run); SpeaksWell(t.a, session, cfgA) && SpeaksWell(t.b, session, cfgB)
    decreases |run|
  {
    if run != [] {
      if run[0].side.A? {
        StepSpeaksWell(m, s.a, run[0].input, run[0].now, session, cfgA);
      } else {
        StepSpeaksWell(m, s.b, run[0].input, run[0].now, session, cfgB);
      }
      RunSpeaksWell(m, StepSys(m, s, run[0]), run[1..], session, cfgA, cfgB);
    }
  }

  /** In every run, over positions or over 32-bit serials, every packet either side ever sends is DATA, ACK
      or NACK of the session and stream, with the flags of its kind, version 1 and no more window than
      the side has. */
  lemma EveryPacketHasItsHeader(m: Arith, session: int, cfgA: Config, cfgB: Config, isnA: int, isnB: int,
                                rtoA: Estimate, rtoB: Estimate, run: seq<Label>)
    ensures var t := Run(m, Start(session, cfgA, cfgB, isnA, isnB, rtoA, rtoB), run);
      && (forall q :: q in t.a.sent ==> HeaderOk(q, session, cfgA))
      && (forall q :: q in t.b.sent ==> HeaderOk(q, session, cfgB))
  {
    RunSpeaksWell(m, Start(session, cfgA, cfgB, isnA, isnB, rtoA, rtoB), run, session, cfgA, cfgB);
  }

  // ---- what a packet says when it is made ------------------------------------------------------

  /** Free places in the receive window, as the next packet has to say it. */
  function Free(e: Arq): int
  {
    e.cfg.window - |e.rcv.reorder|
  }

  /** Data is answered by an ACK that names the next number to send, the next one expected and the free
      places, all as they are after the data was taken in; and at most one NACK, which names the hole. */
  lemma RepliesSayWhereWeAre(m: Arith, e: Arq, p: Packet, now: real)
    requires p.ptype == DATA && p.session == e.session
    ensures var r := OnPacket(m, e, p, now); var packets := r.output.packets;
      var free := if Free(r.ep) > 0 then Free(r.ep) else 0;
      && 1 <= |packets| <= 2
      && packets[0] == Packet(ACK, e.session, e.cfg.stream, e.snd.next, r.ep.rcv.base, free, 0, 1, [])
      && (|packets| == 2 ==>
            packets[1] == Packet(NACK, e.session, e.cfg.stream, e.snd.next, r.ep.rcv.base, free, 8, 1, []))
  {
  }

  /** New data carries the next expected number and the free places of the moment. */
  predicate SaysNow(q: Packet, e: Arq)
  {
    q.ptype == DATA && q.ackno == e.rcv.base && q.window == if Free(e) > 0 then Free(e) else 0
  }

  lemma {:induction false} SendSaysNow(m: Arith, e: Arq, s: Sender, chunks: seq<bytes>, now: real)
    ensures forall q :: q in SendChunks(m, e, s, chunks, now).packets ==> SaysNow(q, e)
    decreases |chunks|
  {
    if chunks != [] {
      if CanSend(e.cfg.window, s) {
        SendSaysNow(m, e, Emit(m, e, s, chunks[0], now), chunks[1..], now);
      } else {
        SendSaysNow(m, e, s.(pending := s.pending + [chunks[0]]), chunks[1..], now);
      }
    }
  }

  lemma {:induction false} FlushSaysNow(m: Arith, e: Arq, s: Sender, now: real)
    ensures forall q :: q in Flush(m, e, s, now).packets ==> SaysNow(q, e)
    decreases |s.pending|
  {
    if s.pending != [] && CanSend(e.cfg.window, s) {
      FlushSaysNow(m, e, Emit(m, e, s.(pending := s.pending[1..]), s.pending[0], now), now);
    }
  }

  lemma NewDataSaysNow(m: Arith, e: Arq, input: Input, now: real)
    requires SendsNewData(input)
    ensures forall q :: q in React(m, e, input, now).output.packets ==> SaysNow(q, e)
  {
    if input.Submit? {
      SendSaysNow(m, e, e.snd, Chunks(input.data, e.cfg.maxPayload), now);
    } else {
      var a := AckScan(m, e.snd.out, input.p.ackno, now, e.snd.ackedBytes, e.snd.rto);
      FlushSaysNow(m, e, e.snd.(peerWindow := input.p.window, out := a.kept, ackedBytes := a.bytes, rto := a.rto), now);
    }
  }

  // ---- flow control ----------------------------------------------------------------------------

  /** An acknowledgement or a NACK of the session brings a window with it. */
  predicate BringsWindow(input: Input, session: int)
  {
    input.Receive? && (input.p.ptype == ACK || input.p.ptype == NACK) && input.p.session == session
  }

  /** The window a side was told last, `w` at first. */
  function LastWindow(run: seq<Label>, side: Side, session: int, w: int): int
    decreases |run|
  {
    if run == [] then w
    else LastWindow(run[1..], side, session,
                    if run[0].side == side && BringsWindow(run[0].input, session) then run[0].input.p.window else w)
  }

  function Limit(e: Arq): int
  {
    if e.cfg.window < e.snd.peerWindow then e.cfg.window else e.snd.peerWindow
  }

  lemma {:induction false} PutAddsOne(out: seq<Outstanding>, o: Outstanding)
    ensures |out| <= |Put(out, o)| <= |out| + 1
  {
    if out != [] && out[0].packet.seqno != o.packet.seqno {
      PutAddsOne(out[1..], o);
    }
  }

  /** What emitting may do to a sender: fill its window, no more, and not without room. */
  predicate Fills(w: pos, s: Sender, t: Sender, packets: seq<Packet>)
  {
    && t.peerWindow == s.peerWindow
    && (|t.out| <= |s.out| || (|t.out| <= w && |t.out| <= s.peerWindow))
    && (packets != [] ==> |t.out| <= w && |t.out| <= s.peerWindow)
  }

  lemma {:induction false} SendFills(m: Arith, e: Arq, s: Sender, chunks: seq<bytes>, now: real)
    ensures var f := SendChunks(m, e, s, chunks, now); Fills(e.cfg.window, s, f.snd, f.packets)
    decreases |chunks|
  {
    if chunks != [] {
      if CanSend(e.cfg.window, s) {
        PutAddsOne(s.out, Outstanding(DataPacket(e, s.next, chunks[0]), now, 0));
        SendFills(m, e, Emit(m, e, s, chunks[0], now), chunks[1..], now);
      } else {
        SendFills(m, e, s.(pending := s.pending + [chunks[0]]), chunks[1..], now);
      }
    }
  }

  lemma {:induction false} FlushFills(m: Arith, e: Arq, s: Sender, now: real)
    ensures var f := Flush(m, e, s, now); Fills(e.cfg.window, s, f.snd, f.packets)
    decreases |s.pending|
  {
    if s.pending != [] && CanSend(e.cfg.window, s) {
      PutAddsOne(s.out, Outstanding(DataPacket(e, s.next, s.pending[0]), now, 0));
      FlushFills(m, e, Emit(m, e, s.(pending := s.pending[1..]), s.pending[0], now), now);
    }
  }

  lemma {:induction false} AckScanDrops(m: Arith, out: seq<Outstanding>, ack: int, now: real, b: nat, rto: Estimate)
    ensures |AckScan(m, out, ack, now, b, rto).kept| <= |out|
    decreases |out|
  {
    if out != [] {
      var o := out[0];
      if !Lt(m, o.packet.seqno, ack) {
        AckScanDrops(m, out[1..], ack, now, b, rto);
      } else if !(o.retx == 0 && now < o.sendTime) {
        AckScanDrops(m, out[1..], ack, now, b + |o.packet.payload|, Sampled(o, now, rto));
      }
    }
  }

  lemma {:induction false} ScanKeepsLength(out: seq<Outstanding>, now: real, rto: real, maxRetx: nat)
    ensures |TickScan(out, now, rto, maxRetx).out| == |out|
  {
    if out != [] {
      ScanKeepsLength(out[1..], now, rto, maxRetx);
    }
  }

  /** One step: the window moves only with what brings one, and new data leaves only into it. */
  lemma StepKeepsWindow(m: Arith, e: Arq, input: Input, now: real)
    ensures var r := React(m, e, input, now);
      && r.ep.snd.peerWindow == (if BringsWindow(input, e.session) then input.p.window else e.snd.peerWindow)
      && (|r.ep.snd.out| <= |e.snd.out| || |r.ep.snd.out| <= Limit(r.ep))
      && (SendsNewData(input) && r.output.packets != [] ==> |r.ep.snd.out| <= Limit(r.ep))
  {
    match input
    case Submit(data) => SendFills(m, e, e.snd, Chunks(data, e.cfg.maxPayload), now);
    case Tick => ScanKeepsLength(e.snd.out, now, e.snd.rto.rto, e.cfg.maxRetx);
    case Receive(p) =>
      if p.session == e.session && p.ptype == ACK {
        var a := AckScan(m, e.snd.out, p.ackno, now, e.snd.ackedBytes, e.snd.rto);
        AckScanDrops(m, e.snd.out, p.ackno, now, e.snd.ackedBytes, e.snd.rto);
        FlushFills(m, e, e.snd.(peerWindow := p.window, out := a.kept, ackedBytes := a.bytes, rto := a.rto), now);
      }
  }

  lemma {:induction false} WindowIsTheLast(m: Arith, s: Sys, run: seq<Label>)
    ensures var t := Run(m, s, run);
      && t.a.ep.session == s.a.ep.session && t.a.ep.cfg == s.a.ep.cfg
      && t.b.ep.session == s.b.ep.session && t.b.ep.cfg == s.b.ep.cfg
      && t.a.ep.snd.peerWindow == LastWindow(run, A, s.a.ep.session, s.a.ep.snd.peerWindow)
      && t.b.ep.snd.peerWindow == LastWindow(run, B, s.b.ep.session, s.b.ep.snd.peerWindow)
    decreases |run|
  {
    if run != [] {
      var e := if run[0].side.A? then s.a.ep else s.b.ep;
      StepKeepsWindow(m, e, run[0].input, run[0].now);
      HalvesAreIndependent(m, e, run[0].input, run[0].now);
      WindowIsTheLast(m, StepSys(m, s, run[0]), run[1..]);
    }
  }

  /** Flow control over whole runs, over positions or over 32-bit serials: whenever a side sends new data,
      no more is in flight afterwards than its own window and the window it was told last. */
  lemma EveryWindowIsKept(m: Arith, session: int, cfgA: Config, cfgB: Config, isnA: int, isnB: int,
                          rtoA: Estimate, rtoB: Estimate, run: seq<Label>, input: Input, now: real)
    requires SendsNewData(input)
    ensures var t := Run(m, Start(session, cfgA, cfgB, isnA, isnB, rtoA, rtoB), run); var r := React(m, t.a.ep, input, now);
      r.output.packets != [] ==>
        |r.ep.snd.out| <= cfgA.window && |r.ep.snd.out| <= LastWindow(run + [Label(A, input, now)], A, session, cfgA.window)
    ensures var t := Run(m, Start(session, cfgA, cfgB, isnA, isnB, rtoA, rtoB), run); var r := React(m, t.b.ep, input, now);
      r.output.packets != [] ==>
        |r.ep.snd.out| <= cfgB.window && |r.ep.snd.out| <= LastWindow(run + [Label(B, input, now)], B, session, cfgB.window)
  {
    var s := Start(session, cfgA, cfgB, isnA, isnB, rtoA, rtoB);
    var t := Run(m, s, run);
    WindowIsTheLast(m, s, run);
    StepKeepsWindow(m, t.a.ep, input, now);
    StepKeepsWindow(m, t.b.ep, input, now);
    LastOfMore(run, Label(A, input, now), A, session, cfgA.window);
    LastOfMore(run, Label(B, input, now), B, session, cfgB.window);
    HalvesAreIndependent(m, t.a.ep, input, now);
    HalvesAreIndependent(m, t.b.ep, input, now);
  }

  lemma {:induction false} LastOfMore(run: seq<Label>, l: Label, side: Side, session: int, w: int)
    ensures LastWindow(run + [l], side, session, w)
      == if l.side == side && BringsWindow(l.input, session) then l.input.p.window else LastWindow(run, side, session, w)
    decreases |run|
  {
    if run == [] {
      assert (run + [l])[1..] == [];
    } else {
      assert (run + [l])[1..] == run[1..] + [l];
      LastOfMore(run[1..], l, side, session,
                 if run[0].side == side && BringsWindow(run[0].input, session) then run[0].input.p.window else w);
    }
  }
}
