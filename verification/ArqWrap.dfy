/** The endpoint over 32-bit serials refines the endpoint over unbounded positions, across any number
    of wraps, as long as no delivered packet is 2^31 or more positions stale. */
module ArqWrap {
  import opened Prelude
  import opened Packets
  import opened Serial
  import opened Rto
  import opened ArqModel
  import opened ArqSafety
  import opened ArqSystem
  import opened ArqTheorems

  // ---- the wire image ------------------------------------------------------------------------

  function WirePacket(p: Packet): Packet
  {
    p.(seqno := p.seqno % SEQ_MOD, ackno := p.ackno % SEQ_MOD)
  }

  function WireEntry(o: Outstanding): Outstanding
  {
    o.(packet := WirePacket(o.packet))
  }

  function WireOut(out: seq<Outstanding>): (r: seq<Outstanding>)
    ensures |r| == |out|
    ensures forall i :: 0 <= i < |r| ==> r[i] == WireEntry(out[i])
  {
    seq(|out|, i requires 0 <= i < |out| => WireEntry(out[i]))
  }

  function WirePackets(packets: seq<Packet>): (r: seq<Packet>)
    ensures |r| == |packets|
    ensures forall i :: 0 <= i < |r| ==> r[i] == WirePacket(packets[i])
  {
    seq(|packets|, i requires 0 <= i < |packets| => WirePacket(packets[i]))
  }

  function WireSender(s: Sender): Sender
  {
    s.(next := s.next % SEQ_MOD, out := WireOut(s.out))
  }

  /** The reorder dictionary keyed by serials holds the same chunks as the one keyed by positions. */
  predicate SameBuffer(c: map<int, bytes>, i: map<int, bytes>)
  {
    && |c| == |i|
    && (forall k :: k in i ==> k % SEQ_MOD in c && c[k % SEQ_MOD] == i[k])
    && (forall w :: w in c ==> exists k :: k in i && k % SEQ_MOD == w)
  }

  predicate RefinesReceiver(c: Receiver, i: Receiver)
  {
    && c.base == i.base % SEQ_MOD
    && SameBuffer(c.reorder, i.reorder)
    && c.nacked == (if i.nacked == {} then {} else {c.base})
  }

  predicate Refines(c: Arq, i: Arq)
  {
    c.session == i.session && c.cfg == i.cfg && c.snd == WireSender(i.snd) && RefinesReceiver(c.rcv, i.rcv)
  }

  predicate SameOutput(c: ArqOutput, i: ArqOutput)
  {
    c == i.(packets := WirePackets(i.packets))
  }

  // ---- what the refinement needs of an unbounded endpoint --------------------------------------

  predicate TidySender(w: pos, s: Sender)
  {
    |s.out| <= w < SEQ_HALF && forall i :: 0 <= i < |s.out| ==> s.out[i].packet.seqno == Una(s) + i
  }

  predicate TidyReceiver(w: pos, r: Receiver)
  {
    w < SEQ_HALF && (forall k :: k in r.reorder ==> r.base < k < r.base + w) && r.nacked <= {r.base}
  }

  predicate Tidy(e: Arq)
  {
    TidySender(e.cfg.window, e.snd) && TidyReceiver(e.cfg.window, e.rcv)
  }

  /** Less than half the sequence space behind the endpoint that receives it. */
  predicate NotStale(e: Arq, p: Packet)
  {
    && (p.ptype == DATA ==> e.rcv.base - SEQ_HALF < p.seqno)
    && (p.ptype == ACK || p.ptype == NACK ==> e.snd.next - SEQ_HALF < p.ackno)
  }

  /** Less than half the sequence space away from it, behind or ahead. */
  predicate FreshFor(e: Arq, p: Packet)
  {
    && NotStale(e, p)
    && (p.ptype == DATA ==> p.seqno < e.rcv.base + SEQ_HALF)
    && (p.ptype == ACK || p.ptype == NACK ==> p.ackno <= e.snd.next)
  }

  // ---- sending -------------------------------------------------------------------------------

  lemma DataPacketWires(c: Arq, i: Arq, next: int, chunk: bytes)
    requires Refines(c, i)
    ensures DataPacket(c, next % SEQ_MOD, chunk) == WirePacket(DataPacket(i, next, chunk))
  {
  }

  lemma {:induction false} PutWires(out: seq<Outstanding>, o: Outstanding)
    requires forall j :: 0 <= j < |out| ==> -SEQ_HALF < out[j].packet.seqno - o.packet.seqno < SEQ_HALF
    ensures Put(WireOut(out), WireEntry(o)) == WireOut(Put(out, o))
  {
    if out != [] {
      ComparisonsUnwrap(out[0].packet.seqno, o.packet.seqno);
      assert WireOut(out)[1..] == WireOut(out[1..]);
      PutWires(out[1..], o);
      assert Put(WireOut(out), WireEntry(o)) == WireOut(Put(out, o));
    }
  }

  lemma EmitWires(c: Arq, i: Arq, s: Sender, chunk: bytes, now: real)
    requires Refines(c, i) && TidySender(i.cfg.window, s) && CanSend(i.cfg.window, s)
    ensures Emit(Serial32, c, WireSender(s), chunk, now) == WireSender(Emit(Unbounded, i, s, chunk, now))
    ensures TidySender(i.cfg.window, Emit(Unbounded, i, s, chunk, now))
  {
    var o := Outstanding(DataPacket(i, s.next, chunk), now, 0);
    DataPacketWires(c, i, s.next, chunk);
    PutWires(s.out, o);
    PutNewKey(s.out, o);
    AdditionUnwraps(s.next, 1);
  }

  lemma WirePacketsCons(p: Packet, rest: seq<Packet>)
    ensures WirePackets([p] + rest) == [WirePacket(p)] + WirePackets(rest)
  {
  }

  lemma {:induction false} FlushWires(c: Arq, i: Arq, s: Sender, now: real)
    requires Refines(c, i) && TidySender(i.cfg.window, s)
    ensures var f := Flush(Unbounded, i, s, now);
      Flush(Serial32, c, WireSender(s), now) == Emitted(WireSender(f.snd), WirePackets(f.packets))
    decreases |s.pending|
  {
    if s.pending != [] && CanSend(i.cfg.window, s) {
      var s0 := s.(pending := s.pending[1..]);
      EmitWires(c, i, s0, s.pending[0], now);
      DataPacketWires(c, i, s.next, s.pending[0]);
      var s1 := Emit(Unbounded, i, s0, s.pending[0], now);
      FlushWires(c, i, s1, now);
      WirePacketsCons(DataPacket(i, s.next, s.pending[0]), Flush(Unbounded, i, s1, now).packets);
    }
  }

  lemma {:induction false} SendWires(c: Arq, i: Arq, s: Sender, chunks: seq<bytes>, now: real)
    requires Refines(c, i) && TidySender(i.cfg.window, s)
    ensures var f := SendChunks(Unbounded, i, s, chunks, now);
      SendChunks(Serial32, c, WireSender(s), chunks, now) == Emitted(WireSender(f.snd), WirePackets(f.packets))
    decreases |chunks|
  {
    if chunks != [] {
      if CanSend(i.cfg.window, s) {
        EmitWires(c, i, s, chunks[0], now);
        DataPacketWires(c, i, s.next, chunks[0]);
        var s1 := Emit(Unbounded, i, s, chunks[0], now);
        SendWires(c, i, s1, chunks[1..], now);
        WirePacketsCons(DataPacket(i, s.next, chunks[0]), SendChunks(Unbounded, i, s1, chunks[1..], now).packets);
      } else {
        SendWires(c, i, s.(pending := s.pending + [chunks[0]]), chunks[1..], now);
      }
    }
  }

  // ---- acknowledgements and timers -------------------------------------------------------------

  predicate Near(out: seq<Outstanding>, key: int)
  {
    forall j :: 0 <= j < |out| ==> -SEQ_HALF < out[j].packet.seqno - key < SEQ_HALF
  }

  lemma {:induction false} AckScanWires(out: seq<Outstanding>, ack: int, now: real, b: nat, rto: Estimate)
    requires Near(out, ack)
    ensures var a := AckScan(Unbounded, out, ack, now, b, rto);
      AckScan(Serial32, WireOut(out), ack % SEQ_MOD, now, b, rto) == a.(kept := WireOut(a.kept))
    decreases |out|
  {
    if out != [] {
      var o := out[0];
      ComparisonsUnwrap(o.packet.seqno, ack);
      assert WireOut(out)[1..] == WireOut(out[1..]);
      if o.packet.seqno >= ack {
        AckScanWires(out[1..], ack, now, b, rto);
        var rest := AckScan(Unbounded, out[1..], ack, now, b, rto).kept;
        assert WireOut([o] + rest) == [WireEntry(o)] + WireOut(rest);
      } else {
        AckScanWires(out[1..], ack, now, b + |o.packet.payload|, Sampled(o, now, rto));
      }
    }
  }

  lemma {:induction false} IndexOfWires(out: seq<Outstanding>, key: int)
    requires Near(out, key)
    ensures IndexOf(WireOut(out), key % SEQ_MOD) == IndexOf(out, key)
  {
    if out != [] {
      ComparisonsUnwrap(out[0].packet.seqno, key);
      assert WireOut(out)[1..] == WireOut(out[1..]);
      IndexOfWires(out[1..], key);
    }
  }

  lemma {:induction false} TickScanWires(out: seq<Outstanding>, now: real, rto: real, maxRetx: nat)
    ensures var t := TickScan(out, now, rto, maxRetx);
      TickScan(WireOut(out), now, rto, maxRetx) == Ticked(WireOut(t.out), WirePackets(t.packets), t.exhausted)
  {
    if out != [] {
      assert WireOut(out)[1..] == WireOut(out[1..]);
      TickScanWires(out[1..], now, rto, maxRetx);
      var t := TickScan(out[1..], now, rto, maxRetx);
      var o := out[0];
      assert WireOut([o] + t.out) == [WireEntry(o)] + WireOut(t.out);
      assert WireOut([Resent(o, now)] + t.out) == [WireEntry(Resent(o, now))] + WireOut(t.out);
      WirePacketsCons(o.packet, t.packets);
    }
  }

  lemma AckWires(c: Arq, i: Arq, p: Packet, now: real)
    requires Refines(c, i) && Tidy(i) && p.ptype == ACK && FreshFor(i, p)
    ensures var rc, ri := OnAck(Serial32, c, WirePacket(p), now), OnAck(Unbounded, i, p, now);
      Refines(rc.ep, ri.ep) && SameOutput(rc.output, ri.output)
  {
    var s := i.snd;
    AckScanWires(s.out, p.ackno, now, s.ackedBytes, s.rto);
    var a := AckScan(Unbounded, s.out, p.ackno, now, s.ackedBytes, s.rto);
    var t := s.(peerWindow := p.window, out := a.kept, ackedBytes := a.bytes, rto := a.rto);
    if !a.raised {
      KeptIsTidy(i.cfg.window, s, p.ackno, now, s.ackedBytes, s.rto);
      FlushWires(c, i, t, now);
    }
  }

  /** What an acknowledgement leaves is still a run of consecutive positions ending at `next`. */
  lemma KeptIsTidy(w: pos, s: Sender, ack: int, now: real, b: nat, rto: Estimate)
    requires TidySender(w, s)
    requires var a := AckScan(Unbounded, s.out, ack, now, b, rto); !a.raised
    ensures var a := AckScan(Unbounded, s.out, ack, now, b, rto); TidySender(w, s.(out := a.kept))
  {
    KeptIsSuffix(s.out, Una(s), ack, now, b, rto);
  }

  lemma {:induction false} KeptIsSuffix(out: seq<Outstanding>, first: int, ack: int, now: real, b: nat, rto: Estimate)
    requires forall j :: 0 <= j < |out| ==> out[j].packet.seqno == first + j
    ensures var a := AckScan(Unbounded, out, ack, now, b, rto);
      !a.raised ==> |a.kept| <= |out| && a.kept == out[|out| - |a.kept|..]
    ensures first >= ack ==> AckScan(Unbounded, out, ack, now, b, rto).kept == out
    decreases |out|
  {
    if out != [] {
      if first >= ack {
        KeptIsSuffix(out[1..], first + 1, ack, now, b, rto);
        assert [out[0]] + out[1..] == out;
      } else {
        KeptIsSuffix(out[1..], first + 1, ack, now, b + |out[0].packet.payload|, Sampled(out[0], now, rto));
      }
    }
  }

  lemma NackWires(c: Arq, i: Arq, p: Packet, now: real)
    requires Refines(c, i) && Tidy(i) && p.ptype == NACK && FreshFor(i, p)
    ensures var rc, ri := OnNack(c, WirePacket(p), now), OnNack(i, p, now);
      Refines(rc.ep, ri.ep) && SameOutput(rc.output, ri.output)
  {
    IndexOfWires(i.snd.out, p.ackno);
    var k := IndexOf(i.snd.out, p.ackno);
    if k < |i.snd.out| {
      var o := i.snd.out[k];
      assert WireOut(i.snd.out)[k := Resent(WireEntry(o), now)] == WireOut(i.snd.out[k := Resent(o, now)]);
      assert WirePackets([o.packet]) == [WirePacket(o.packet)];
    }
  }

  lemma TickWires(c: Arq, i: Arq, now: real)
    requires Refines(c, i)
    ensures var rc, ri := OnTick(c, now), OnTick(i, now);
      Refines(rc.ep, ri.ep) && SameOutput(rc.output, ri.output)
  {
    TickScanWires(i.snd.out, now, i.snd.rto.rto, i.cfg.maxRetx);
    assert NoneExpired(c.snd, now) <==> NoneExpired(i.snd, now) by {
      assert forall j :: 0 <= j < |i.snd.out| ==> c.snd.out[j] == WireEntry(i.snd.out[j]);
    }
  }

  // ---- receiving -----------------------------------------------------------------------------

  lemma BufferedAlike(c: map<int, bytes>, i: map<int, bytes>, k: int, lo: int, hi: int)
    requires SameBuffer(c, i)
    requires forall j :: j in i ==> lo <= j <= hi
    requires hi - lo < SEQ_HALF && lo <= k <= hi
    ensures k % SEQ_MOD in c <==> k in i
  {
    if k % SEQ_MOD in c {
      var j :| j in i && j % SEQ_MOD == k % SEQ_MOD;
      ComparisonsUnwrap(j, k);
    }
  }

  lemma BufferWithout(c: map<int, bytes>, i: map<int, bytes>, k: int, lo: int, hi: int)
    requires SameBuffer(c, i) && k in i
    requires forall j :: j in i ==> lo <= j <= hi
    requires hi - lo < SEQ_HALF
    ensures SameBuffer(c - {k % SEQ_MOD}, i - {k})
  {
    var c', i' := c - {k % SEQ_MOD}, i - {k};
    assert c.Keys == c'.Keys + {k % SEQ_MOD} && i.Keys == i'.Keys + {k};
    assert |c'.Keys| == |i'.Keys|;
    forall j | j in i'
      ensures j % SEQ_MOD in c' && c'[j % SEQ_MOD] == i'[j]
    {
      ComparisonsUnwrap(j, k);
    }
    forall w | w in c'
      ensures exists j :: j in i' && j % SEQ_MOD == w
    {
      var j :| j in i && j % SEQ_MOD == w;
      assert j in i';
    }
  }

  lemma BufferWith(c: map<int, bytes>, i: map<int, bytes>, k: int, wire: int, chunk: bytes)
    requires SameBuffer(c, i) && k !in i && wire !in c && wire == k % SEQ_MOD
    ensures SameBuffer(c[wire := chunk], i[k := chunk])
  {
    var c', i' := c[wire := chunk], i[k := chunk];
    assert c'.Keys == c.Keys + {wire} && i'.Keys == i.Keys + {k};
    assert |c'.Keys| == |i'.Keys|;
    forall w | w in c'
      ensures exists j :: j in i' && j % SEQ_MOD == w
    {
      if w == wire {
        assert k in i';
      } else {
        var j :| j in i && j % SEQ_MOD == w;
        assert j in i';
      }
    }
  }

  predicate SameDrain(dc: Drained, di: Drained, base: int, hi: int)
  {
    && dc.base == di.base % SEQ_MOD && dc.chunks == di.chunks && SameBuffer(dc.reorder, di.reorder)
    && base <= di.base <= hi + 1 && (forall k :: k in di.reorder ==> di.base < k <= hi)
  }

  lemma DrainOneWires(c: map<int, bytes>, i: map<int, bytes>, wire: int, base: int, hi: int)
    requires SameBuffer(c, i) && wire == base % SEQ_MOD && base in i
    requires forall k :: k in i ==> base <= k <= hi
    requires hi - base < SEQ_HALF
    ensures wire in c && c[wire] == i[base]
    ensures SameBuffer(c - {wire}, i - {base}) && SeqAdd(wire, 1) == (base + 1) % SEQ_MOD
    ensures |i - {base}| < |i|
  {
    BufferWithout(c, i, base, base, hi);
    AdditionUnwraps(base, 1);
    assert i.Keys == (i - {base}).Keys + {base};
  }

  lemma FirstDrained(m: Arith, base: int, next: int, reorder: map<int, bytes>, rest: map<int, bytes>)
    requires base in reorder && next == Add(m, base, 1) && rest == reorder - {base}
    ensures var d := Drain(m, next, rest); Drain(m, base, reorder) == d.(chunks := [reorder[base]] + d.chunks)
  {
  }

  lemma {:induction false} DrainWires(c: map<int, bytes>, i: map<int, bytes>, wire: int, base: int, hi: int)
    requires SameBuffer(c, i) && wire == base % SEQ_MOD
    requires forall k :: k in i ==> base <= k <= hi
    requires base <= hi + 1 && hi - base < SEQ_HALF - 1
    ensures SameDrain(Drain(Serial32, wire, c), Drain(Unbounded, base, i), base, hi)
    decreases |i|
  {
    BufferedAlike(c, i, base, base, hi + 1);
    if base in i {
      var (c', i', next) := (c - {wire}, i - {base}, SeqAdd(wire, 1));
      DrainOneWires(c, i, wire, base, hi);
      DrainWires(c', i', next, base + 1, hi);
      FirstDrained(Serial32, wire, next, c, c');
      FirstDrained(Unbounded, base, base + 1, i, i');
    }
  }

  lemma AcceptNextWires(w: pos, c: Receiver, i: Receiver, p: Packet)
    requires RefinesReceiver(c, i) && TidyReceiver(w, i) && p.seqno == i.base
    ensures var ac, ai := Accept(Serial32, w, c, WirePacket(p)), Accept(Unbounded, w, i, p);
      RefinesReceiver(ac.rcv, ai.rcv) && ac.delivered == ai.delivered && ai.rcv.nacked <= {ai.rcv.base}
  {
    AdditionUnwraps(i.base, 1);
    DrainWires(c.reorder, i.reorder, SeqAdd(c.base, 1), i.base + 1, i.base + w - 1);
    var di := Drain(Unbounded, i.base + 1, i.reorder);
    ComparisonsUnwrap(di.base, i.base);
    assert (set k | k in i.nacked && Lt(Unbounded, di.base, k)) == {};
    assert (set k | k in c.nacked && Lt(Serial32, di.base % SEQ_MOD, k)) == {};
  }

  lemma AcceptWires(w: pos, c: Receiver, i: Receiver, p: Packet)
    requires RefinesReceiver(c, i) && TidyReceiver(w, i)
    requires -SEQ_HALF < p.seqno - i.base < SEQ_HALF
    ensures var ac, ai := Accept(Serial32, w, c, WirePacket(p)), Accept(Unbounded, w, i, p);
      RefinesReceiver(ac.rcv, ai.rcv) && ac.delivered == ai.delivered && ai.rcv.nacked <= {ai.rcv.base}
  {
    ComparisonsUnwrap(p.seqno, i.base);
    ComparisonsUnwrap(i.base, p.seqno);
    if p.seqno == i.base {
      AcceptNextWires(w, c, i, p);
    } else if i.base < p.seqno < i.base + w {
      BufferedAlike(c.reorder, i.reorder, p.seqno, i.base, i.base + w - 1);
      if p.seqno !in i.reorder {
        BufferWith(c.reorder, i.reorder, p.seqno, p.seqno % SEQ_MOD, p.payload);
      }
    }
  }

  lemma DataWires(c: Arq, i: Arq, p: Packet)
    requires Refines(c, i) && Tidy(i) && p.ptype == DATA && FreshFor(i, p)
    ensures var rc, ri := OnData(Serial32, c, WirePacket(p)), OnData(Unbounded, i, p);
      Refines(rc.ep, ri.ep) && SameOutput(rc.output, ri.output)
  {
    AcceptWires(i.cfg.window, c.rcv, i.rcv, p);
    var ai := Accept(Unbounded, i.cfg.window, i.rcv, p);
    var ac := Accept(Serial32, i.cfg.window, c.rcv, WirePacket(p));
    assert ac.rcv.reorder == map[] <==> ai.rcv.reorder == map[] by {
      assert ac.rcv.reorder == map[] <==> |ac.rcv.reorder| == 0;
      assert ai.rcv.reorder == map[] <==> |ai.rcv.reorder| == 0;
    }
    var ei := i.(rcv := ai.rcv);
    WirePacketsCons(AckPacket(ei), []);
    WirePacketsCons(AckPacket(ei), [NackPacket(ei, ai.rcv.base)]);
    WirePacketsCons(NackPacket(ei, ai.rcv.base), []);
  }

  /** One endpoint, any input: same decisions, same deliveries, and the same packets modulo 2^32. */
  lemma ReactionWires(c: Arq, i: Arq, input: Input, now: real)
    requires Refines(c, i) && Tidy(i)
    requires input.Receive? ==> FreshFor(i, input.p)
    ensures var rc, ri := React(Serial32, c, WireInput(input), now), React(Unbounded, i, input, now);
      Refines(rc.ep, ri.ep) && SameOutput(rc.output, ri.output)
  {
    match input
    case Submit(data) => SendWires(c, i, i.snd, Chunks(data, i.cfg.maxPayload), now);
    case Tick => TickWires(c, i, now);
    case Receive(p) =>
      if p.session == i.session {
        match p.ptype
        case DATA => DataWires(c, i, p);
        case ACK => AckWires(c, i, p, now);
        case NACK => NackWires(c, i, p, now);
        case _ =>
      }
  }

  function WireInput(input: Input): Input
  {
    if input.Receive? then Receive(WirePacket(input.p)) else input
  }

  // ---- whole runs ----------------------------------------------------------------------------

  predicate RefinesPeer(c: Peer, i: Peer)
  {
    && Refines(c.ep, i.ep)
    && c.sent == (set p | p in i.sent :: WirePacket(p))
    && c.submitted == i.submitted && c.emitted == i.emitted && c.delivered == i.delivered && c.raised == i.raised
  }

  predicate RefinesSys(c: Sys, i: Sys)
  {
    RefinesPeer(c.a, i.a) && RefinesPeer(c.b, i.b) && c.clock == i.clock
  }

  function WireLabel(l: Label): Label
  {
    l.(input := WireInput(l.input))
  }

  function WireRun(run: seq<Label>): (r: seq<Label>)
    ensures |r| == |run|
    ensures forall j :: 0 <= j < |r| ==> r[j] == WireLabel(run[j])
  {
    seq(|run|, j requires 0 <= j < |run| => WireLabel(run[j]))
  }

  /** What the step delivers, if it delivers anything, is less than 2^31 positions stale. */
  predicate StepNotStale(s: Sys, l: Label)
  {
    l.input.Receive? ==> NotStale((if l.side.A? then s.a else s.b).ep, l.input.p)
  }

  /** Every packet the run delivers is less than 2^31 positions stale when it arrives. */
  predicate NeverStale(s: Sys, run: seq<Label>)
    decreases |run|
  {
    run == [] || (StepNotStale(s, run[0]) && NeverStale(StepSys(Unbounded, s, run[0]), run[1..]))
  }

  /** The other bound holds in every run: a sender is never a window ahead of what the receiver expects,
      and nothing is acknowledged that was not emitted. So a packet that is not stale is fresh. */
  lemma NeverFarAhead(s: Sys, isnA: int, isnB: int, l: Label)
    requires Inv(s, isnA, isnB) && s.a.ep.cfg.window < SEQ_HALF && s.b.ep.cfg.window < SEQ_HALF
    requires Enabled(s, l) && l.input.Receive?
    ensures var x := if l.side.A? then s.a else s.b; FreshFor(x.ep, l.input.p) <==> NotStale(x.ep, l.input.p)
  {
    var p := l.input.p;
    var (y, isnX, isnY) := if l.side.A? then (s.b, isnA, isnB) else (s.a, isnB, isnA);
    assert DataOk(p, isnY, y.emitted) && AckOk(p, isnX, y.ep.rcv.base);
  }

  lemma PeerWires(c: Peer, i: Peer, input: Input, now: real)
    requires RefinesPeer(c, i) && Tidy(i.ep)
    requires input.Receive? ==> FreshFor(i.ep, input.p)
    ensures RefinesPeer(StepPeer(Serial32, c, WireInput(input), now), StepPeer(Unbounded, i, input, now))
  {
    ReactionWires(c.ep, i.ep, input, now);
    var c', i' := StepPeer(Serial32, c, WireInput(input), now), StepPeer(Unbounded, i, input, now);
    var pi := React(Unbounded, i.ep, input, now).output.packets;
    var pc := React(Serial32, c.ep, WireInput(input), now).output.packets;
    assert Payloads(pc) == Payloads(pi);
    forall q
      ensures q in c'.sent <==> q in (set p | p in i'.sent :: WirePacket(p))
    {
      if q in pc {
        var j :| 0 <= j < |pc| && pc[j] == q;
        assert q == WirePacket(pi[j]) && pi[j] in i'.sent;
      }
      if q in (set p | p in i'.sent :: WirePacket(p)) {
        var p :| p in i'.sent && WirePacket(p) == q;
        if p in pi {
          var j :| 0 <= j < |pi| && pi[j] == p;
          assert pc[j] == q;
        }
      }
    }
  }

  lemma FlowIsTidy(x: Peer, y: Peer, isnX: int, isnY: int, clock: real)
    requires Flow(x, y, isnX, clock) && Flow(y, x, isnY, clock) && x.ep.cfg.window < SEQ_HALF
    ensures Tidy(x.ep)
  {
    KeysAreBelow(x.ep.cfg.window, x.ep.snd, isnX, x.emitted, clock);
  }

  lemma WireRunRest(run: seq<Label>)
    requires run != []
    ensures WireRun(run) != [] && WireRun(run)[0] == WireLabel(run[0]) && WireRun(run)[1..] == WireRun(run[1..])
  {
  }

  lemma WireStepEnabled(c: Sys, i: Sys, l: Label)
    requires RefinesSys(c, i) && Enabled(i, l)
    ensures Enabled(c, WireLabel(l))
  {
  }

  lemma {:induction false} RunWires(c: Sys, i: Sys, isnA: int, isnB: int, run: seq<Label>)
    requires RefinesSys(c, i) && Inv(i, isnA, isnB) && Legal(Unbounded, i, run) && NeverStale(i, run)
    requires i.a.ep.cfg.window < SEQ_HALF && i.b.ep.cfg.window < SEQ_HALF
    ensures Legal(Serial32, c, WireRun(run))
    ensures RefinesSys(Run(Serial32, c, WireRun(run)), Run(Unbounded, i, run))
    decreases |run|
  {
    if run != [] {
      var l := run[0];
      RunFirst(Unbounded, i, run);
      StepWires(c, i, isnA, isnB, l);
      WireStepEnabled(c, i, l);
      StepKeepsInv(i, isnA, isnB, l);
      RunWires(StepSys(Serial32, c, WireLabel(l)), StepSys(Unbounded, i, l), isnA, isnB, run[1..]);
      WireRunRest(run);
      RunFirst(Serial32, c, WireRun(run));
    }
  }

  /** What the applications and the sequence numbers of two 32-bit endpoints show. */
  predicate WireDelivers(c: Sys, isnA: int, isnB: int)
  {
    && c.b.delivered <= c.a.emitted && c.a.delivered <= c.b.emitted
    && c.b.ep.rcv.base == (isnA + |c.b.delivered|) % SEQ_MOD && c.a.ep.rcv.base == (isnB + |c.a.delivered|) % SEQ_MOD
    && c.a.ep.snd.next == (isnA + |c.a.emitted|) % SEQ_MOD && c.b.ep.snd.next == (isnB + |c.b.emitted|) % SEQ_MOD
    && !c.a.raised && !c.b.raised
  }

  lemma ImageDelivers(c: Sys, i: Sys, isnA: int, isnB: int)
    requires RefinesSys(c, i) && DeliversPrefix(i.a, i.b, isnA) && DeliversPrefix(i.b, i.a, isnB)
    requires !i.a.raised && !i.b.raised
    ensures WireDelivers(c, isnA, isnB)
  {
  }

  lemma StartIsItsOwnImage(session: int, cfgA: Config, cfgB: Config, isnA: int, isnB: int, rtoA: Estimate, rtoB: Estimate)
    requires IsSerial(isnA) && IsSerial(isnB)
    ensures var s := Start(session, cfgA, cfgB, isnA, isnB, rtoA, rtoB); RefinesSys(s, s)
  {
    assert WireOut([]) == [];
  }

  /** Nothing a wire run can do is out of reach: whatever packet the 32-bit network can deliver is the
      image of one the unbounded network can deliver. */
  lemma EveryWirePacketHasAnOrigin(c: Peer, i: Peer, q: Packet)
    requires RefinesPeer(c, i) && q in c.sent
    ensures exists p :: p in i.sent && WirePacket(p) == q
  {
  }

  /** With fewer than 2^31 chunks emitted each way, every packet ever sent is fresh: no assumption on
      the network is left. */
  lemma ShortTransfersAreAlwaysFresh(s: Sys, isnA: int, isnB: int, p: Packet)
    requires Inv(s, isnA, isnB)
    requires |s.a.emitted| < SEQ_HALF && |s.b.emitted| < SEQ_HALF
    ensures p in s.b.sent ==> FreshFor(s.a.ep, p)
    ensures p in s.a.sent ==> FreshFor(s.b.ep, p)
  {
    if p in s.b.sent {
      assert DataOk(p, isnB, s.b.emitted) && AckOk(p, isnA, s.b.ep.rcv.base);
    }
    if p in s.a.sent {
      assert DataOk(p, isnA, s.a.emitted) && AckOk(p, isnB, s.a.ep.rcv.base);
    }
  }

  // ---- from wire runs back to unbounded ones ---------------------------------------------------

  /** `k` is an unbounded step that a given wire step is the image of; what it delivers was sent, and is
      less than 2^31 positions stale. */
  predicate OriginOf(i: Sys, l: Label, k: Label)
  {
    && WireLabel(k) == l && StepNotStale(i, k)
    && (k.input.Receive? ==> k.input.p in (if k.side.A? then i.b else i.a).sent)
  }

  /** Each packet the wire run delivers comes from one that is not stale where it arrives. */
  ghost predicate HasFreshOrigins(i: Sys, run: seq<Label>)
    decreases |run|
  {
    run == [] || exists k :: OriginOf(i, run[0], k) && HasFreshOrigins(StepSys(Unbounded, i, k), run[1..])
  }

  lemma StepFirst(i: Sys, k: Label, rest: seq<Label>)
    requires StepNotStale(i, k) && NeverStale(StepSys(Unbounded, i, k), rest)
    ensures NeverStale(i, [k] + rest)
    ensures WireRun([k] + rest) == [WireLabel(k)] + WireRun(rest)
    ensures Run(Unbounded, i, [k] + rest) == Run(Unbounded, StepSys(Unbounded, i, k), rest)
    ensures Enabled(i, k) && Legal(Unbounded, StepSys(Unbounded, i, k), rest) ==> Legal(Unbounded, i, [k] + rest)
  {
    var run := [k] + rest;
    assert run[1..] == rest;
    RunFirst(Unbounded, i, run);
  }

  /** The state the two pairs are in, and what is left of the run, once its first step is lifted. */
  lemma LiftFirst(c: Sys, i: Sys, isnA: int, isnB: int, run: seq<Label>) returns (k: Label)
    requires RefinesSys(c, i) && Inv(i, isnA, isnB) && Legal(Serial32, c, run) && run != [] && HasFreshOrigins(i, run)
    requires i.a.ep.cfg.window < SEQ_HALF && i.b.ep.cfg.window < SEQ_HALF
    ensures WireLabel(k) == run[0] && Enabled(i, k) && StepNotStale(i, k)
    ensures var c', i' := StepSys(Serial32, c, run[0]), StepSys(Unbounded, i, k);
      && RefinesSys(c', i') && Inv(i', isnA, isnB) && Legal(Serial32, c', run[1..]) && HasFreshOrigins(i', run[1..])
      && i'.a.ep.cfg == i.a.ep.cfg && i'.b.ep.cfg == i.b.ep.cfg && Run(Serial32, c, run) == Run(Serial32, c', run[1..])
  {
    k :| OriginOf(i, run[0], k) && HasFreshOrigins(StepSys(Unbounded, i, k), run[1..]);
    StepWires(c, i, isnA, isnB, k);
    StepKeepsInv(i, isnA, isnB, k);
  }

  /** The wire run is the image of an unbounded one that delivers nothing stale, and ends in its image. */
  predicate Lifts(c: Sys, i: Sys, run: seq<Label>, lift: seq<Label>)
  {
    && Legal(Unbounded, i, lift) && NeverStale(i, lift) && WireRun(lift) == run
    && RefinesSys(Run(Serial32, c, run), Run(Unbounded, i, lift))
  }

  lemma LiftsFirst(c: Sys, i: Sys, run: seq<Label>, k: Label, rest: seq<Label>)
    requires run != [] && WireLabel(k) == run[0] && Enabled(i, k) && StepNotStale(i, k)
    requires Run(Serial32, c, run) == Run(Serial32, StepSys(Serial32, c, run[0]), run[1..])
    requires Lifts(StepSys(Serial32, c, run[0]), StepSys(Unbounded, i, k), run[1..], rest)
    ensures Lifts(c, i, run, [k] + rest)
  {
    StepFirst(i, k, rest);
    assert run == [run[0]] + run[1..];
  }

  /** Every such run is the image of an unbounded run, over any number of wraps. */
  lemma {:induction false} LiftRun(c: Sys, i: Sys, isnA: int, isnB: int, run: seq<Label>) returns (lift: seq<Label>)
    requires RefinesSys(c, i) && Inv(i, isnA, isnB) && Legal(Serial32, c, run) && HasFreshOrigins(i, run)
    requires i.a.ep.cfg.window < SEQ_HALF && i.b.ep.cfg.window < SEQ_HALF
    ensures Lifts(c, i, run, lift)
    decreases |run|
  {
    if run == [] {
      return [];
    }
    var k := LiftFirst(c, i, isnA, isnB, run);
    var c', i' := StepSys(Serial32, c, run[0]), StepSys(Unbounded, i, k);
    var rest := LiftRun(c', i', isnA, isnB, run[1..]);
    LiftsFirst(c, i, run, k, rest);
    return [k] + rest;
  }

  /** And only such runs are: the image of an unbounded run that delivers nothing stale has its origins. */
  lemma {:induction false} ImagesHaveFreshOrigins(i: Sys, run: seq<Label>)
    requires Legal(Unbounded, i, run) && NeverStale(i, run)
    ensures HasFreshOrigins(i, WireRun(run))
    decreases |run|
  {
    if run != [] {
      WireRunRest(run);
      assert OriginOf(i, WireRun(run)[0], run[0]);
      ImagesHaveFreshOrigins(StepSys(Unbounded, i, run[0]), run[1..]);
    }
  }

  lemma {:induction false} EmittedGrows(m: Arith, s: Sys, run: seq<Label>)
    ensures |s.a.emitted| <= |Run(m, s, run).a.emitted| && |s.b.emitted| <= |Run(m, s, run).b.emitted|
    decreases |run|
  {
    if run != [] {
      EmittedGrows(m, StepSys(m, s, run[0]), run[1..]);
    }
  }

  lemma ShortStepHasOrigin(c: Sys, i: Sys, isnA: int, isnB: int, l: Label) returns (k: Label)
    requires RefinesSys(c, i) && Inv(i, isnA, isnB) && Enabled(c, l)
    requires |i.a.emitted| < SEQ_HALF && |i.b.emitted| < SEQ_HALF
    ensures OriginOf(i, l, k) && Enabled(i, k)
  {
    k := l;
    if l.input.Receive? {
      var (to, from) := if l.side.A? then (c.b, i.b) else (c.a, i.a);
      EveryWirePacketHasAnOrigin(to, from, l.input.p);
      var p :| p in from.sent && WirePacket(p) == l.input.p;
      ShortTransfersAreAlwaysFresh(i, isnA, isnB, p);
      k := l.(input := Receive(p));
    }
  }

  /** With nothing assumed of the network, every 32-bit run that emits fewer than 2^31 chunks each way
      has fresh origins. */
  lemma {:induction false} ShortRunsHaveFreshOrigins(c: Sys, i: Sys, isnA: int, isnB: int, run: seq<Label>)
    requires RefinesSys(c, i) && Inv(i, isnA, isnB) && Legal(Serial32, c, run)
    requires i.a.ep.cfg.window < SEQ_HALF && i.b.ep.cfg.window < SEQ_HALF
    requires |Run(Serial32, c, run).a.emitted| < SEQ_HALF && |Run(Serial32, c, run).b.emitted| < SEQ_HALF
    ensures HasFreshOrigins(i, run)
    decreases |run|
  {
    if run != [] {
      RunFirst(Serial32, c, run);
      EmittedGrows(Serial32, c, run);
      var k := ShortStepHasOrigin(c, i, isnA, isnB, run[0]);
      StepWires(c, i, isnA, isnB, k);
      StepKeepsInv(i, isnA, isnB, k);
      ShortRunsHaveFreshOrigins(StepSys(Serial32, c, run[0]), StepSys(Unbounded, i, k), isnA, isnB, run[1..]);
    }
  }

  lemma StepWires(c: Sys, i: Sys, isnA: int, isnB: int, l: Label)
    requires RefinesSys(c, i) && Inv(i, isnA, isnB)
    requires i.a.ep.cfg.window < SEQ_HALF && i.b.ep.cfg.window < SEQ_HALF
    requires Enabled(i, l) && StepNotStale(i, l)
    ensures var i' := StepSys(Unbounded, i, l);
      && RefinesSys(StepSys(Serial32, c, WireLabel(l)), i')
      && i'.a.ep.cfg == i.a.ep.cfg && i'.b.ep.cfg == i.b.ep.cfg
  {
    FlowIsTidy(i.a, i.b, isnA, isnB, i.clock);
    FlowIsTidy(i.b, i.a, isnB, isnA, i.clock);
    if l.input.Receive? {
      NeverFarAhead(i, isnA, isnB, l);
    }
    if l.side.A? {
      PeerWires(c.a, i.a, l.input, l.now);
      HalvesAreIndependent(Unbounded, i.a.ep, l.input, l.now);
    } else {
      PeerWires(c.b, i.b, l.input, l.now);
      HalvesAreIndependent(Unbounded, i.b.ep, l.input, l.now);
    }
  }

  /** The start of a pair with 32-bit initial numbers: its own image, satisfying the invariant. */
  lemma StartIsReady(session: int, cfgA: Config, cfgB: Config, isnA: int, isnB: int, rtoA: Estimate, rtoB: Estimate)
    requires IsSerial(isnA) && IsSerial(isnB)
    ensures var s := Start(session, cfgA, cfgB, isnA, isnB, rtoA, rtoB); RefinesSys(s, s) && Inv(s, isnA, isnB)
  {
    StartIsItsOwnImage(session, cfgA, cfgB, isnA, isnB, rtoA, rtoB);
    StartInv(session, cfgA, cfgB, isnA, isnB, rtoA, rtoB);
  }

  /** Any legal run of the 32-bit endpoints, however many wraps long, delivers in order, never raises, and
      loses or invents no chunk on the way from submission to emission, as long as no packet reaches its
      receiver 2^31 or more positions late. */
  lemma EveryWireRunDeliversInOrder(session: int, cfgA: Config, cfgB: Config, isnA: int, isnB: int,
                                    rtoA: Estimate, rtoB: Estimate, run: seq<Label>)
    requires IsSerial(isnA) && IsSerial(isnB) && cfgA.window < SEQ_HALF && cfgB.window < SEQ_HALF
    requires Legal(Serial32, Start(session, cfgA, cfgB, isnA, isnB, rtoA, rtoB), run)
    requires HasFreshOrigins(Start(session, cfgA, cfgB, isnA, isnB, rtoA, rtoB), run)
    ensures var c := Run(Serial32, Start(session, cfgA, cfgB, isnA, isnB, rtoA, rtoB), run);
      WireDelivers(c, isnA, isnB) && Conserved(c.a) && Conserved(c.b)
  {
    var s0 := Start(session, cfgA, cfgB, isnA, isnB, rtoA, rtoB);
    StartIsReady(session, cfgA, cfgB, isnA, isnB, rtoA, rtoB);
    var lift := LiftRun(s0, s0, isnA, isnB, run);
    RunKeepsInv(s0, isnA, isnB, lift);
    EveryRunDeliversInOrder(session, cfgA, cfgB, isnA, isnB, rtoA, rtoB, lift);
    ImageDelivers(Run(Serial32, s0, run), Run(Unbounded, s0, lift), isnA, isnB);
  }

  /** Fewer than 2^31 chunks emitted each way: nothing is assumed of the network. */
  predicate ShortRun(c: Sys, run: seq<Label>)
  {
    |Run(Serial32, c, run).a.emitted| < SEQ_HALF && |Run(Serial32, c, run).b.emitted| < SEQ_HALF
  }

  lemma ShortRunsFromStart(session: int, cfgA: Config, cfgB: Config, isnA: int, isnB: int,
                           rtoA: Estimate, rtoB: Estimate, run: seq<Label>)
    requires IsSerial(isnA) && IsSerial(isnB) && cfgA.window < SEQ_HALF && cfgB.window < SEQ_HALF
    requires Legal(Serial32, Start(session, cfgA, cfgB, isnA, isnB, rtoA, rtoB), run)
    requires ShortRun(Start(session, cfgA, cfgB, isnA, isnB, rtoA, rtoB), run)
    ensures HasFreshOrigins(Start(session, cfgA, cfgB, isnA, isnB, rtoA, rtoB), run)
  {
    var s0 := Start(session, cfgA, cfgB, isnA, isnB, rtoA, rtoB);
    StartIsReady(session, cfgA, cfgB, isnA, isnB, rtoA, rtoB);
    ShortRunsHaveFreshOrigins(s0, s0, isnA, isnB, run);
  }

  /** Nothing assumed of the network: the same for every run that emits fewer than 2^31 chunks each way. */
  lemma EveryShortWireRunDeliversInOrder(session: int, cfgA: Config, cfgB: Config, isnA: int, isnB: int,
                                         rtoA: Estimate, rtoB: Estimate, run: seq<Label>)
    requires IsSerial(isnA) && IsSerial(isnB) && cfgA.window < SEQ_HALF && cfgB.window < SEQ_HALF
    requires Legal(Serial32, Start(session, cfgA, cfgB, isnA, isnB, rtoA, rtoB), run)
    requires ShortRun(Start(session, cfgA, cfgB, isnA, isnB, rtoA, rtoB), run)
    ensures var c := Run(Serial32, Start(session, cfgA, cfgB, isnA, isnB, rtoA, rtoB), run);
      WireDelivers(c, isnA, isnB) && Conserved(c.a) && Conserved(c.b)
  {
    ShortRunsFromStart(session, cfgA, cfgB, isnA, isnB, rtoA, rtoB, run);
    EveryWireRunDeliversInOrder(session, cfgA, cfgB, isnA, isnB, rtoA, rtoB, run);
  }

  // ---- the order of submission -----------------------------------------------------------------

  lemma SameWidening(c: Sys, i: Sys, l: Label)
    requires RefinesSys(c, i)
    ensures WidensByNack(if l.side.A? then c.a else c.b, WireInput(l.input)) <==> WidensByNack(if l.side.A? then i.a else i.b, l.input)
  {
  }

  lemma {:induction false} LiftNeverWidens(c: Sys, i: Sys, isnA: int, isnB: int, run: seq<Label>)
    requires RefinesSys(c, i) && Inv(i, isnA, isnB) && Legal(Unbounded, i, run) && NeverStale(i, run)
    requires i.a.ep.cfg.window < SEQ_HALF && i.b.ep.cfg.window < SEQ_HALF
    requires NeverWidens(Serial32, c, WireRun(run))
    ensures NeverWidens(Unbounded, i, run)
    decreases |run|
  {
    if run != [] {
      WireRunRest(run);
      StepWires(c, i, isnA, isnB, run[0]);
      StepKeepsInv(i, isnA, isnB, run[0]);
      SameWidening(c, i, run[0]);
      LiftNeverWidens(StepSys(Serial32, c, WireLabel(run[0])), StepSys(Unbounded, i, run[0]), isnA, isnB, run[1..]);
    }
  }

  /** End to end on the wire: as long as no NACK opens the window over a queue, the applications of the
      32-bit endpoints see exactly the chunks submitted on the other side, in that order. */
  lemma WireDeliveryFollowsSubmission(session: int, cfgA: Config, cfgB: Config, isnA: int, isnB: int,
                                      rtoA: Estimate, rtoB: Estimate, run: seq<Label>)
    requires IsSerial(isnA) && IsSerial(isnB) && cfgA.window < SEQ_HALF && cfgB.window < SEQ_HALF
    requires Legal(Serial32, Start(session, cfgA, cfgB, isnA, isnB, rtoA, rtoB), run)
    requires HasFreshOrigins(Start(session, cfgA, cfgB, isnA, isnB, rtoA, rtoB), run)
    requires NeverWidens(Serial32, Start(session, cfgA, cfgB, isnA, isnB, rtoA, rtoB), run)
    ensures var c := Run(Serial32, Start(session, cfgA, cfgB, isnA, isnB, rtoA, rtoB), run);
      c.b.delivered <= c.a.submitted && c.a.delivered <= c.b.submitted
  {
    var s0 := Start(session, cfgA, cfgB, isnA, isnB, rtoA, rtoB);
    StartIsReady(session, cfgA, cfgB, isnA, isnB, rtoA, rtoB);
    var lift := LiftRun(s0, s0, isnA, isnB, run);
    LiftNeverWidens(s0, s0, isnA, isnB, lift);
    DeliveryFollowsSubmission(session, cfgA, cfgB, isnA, isnB, rtoA, rtoB, lift);
  }

  // ---- how much a run can emit -----------------------------------------------------------------

  lemma {:induction false} SendCounts(m: Arith, e: Arq, s: Sender, chunks: seq<bytes>, now: real)
    ensures var f := SendChunks(m, e, s, chunks, now); |f.packets| + |f.snd.pending| == |s.pending| + |chunks|
    decreases |chunks|
  {
    if chunks != [] {
      if CanSend(e.cfg.window, s) {
        SendCounts(m, e, Emit(m, e, s, chunks[0], now), chunks[1..], now);
      } else {
        SendCounts(m, e, s.(pending := s.pending + [chunks[0]]), chunks[1..], now);
      }
    }
  }

  lemma {:induction false} FlushCounts(m: Arith, e: Arq, s: Sender, now: real)
    ensures var f := Flush(m, e, s, now); |f.packets| + |f.snd.pending| == |s.pending|
    decreases |s.pending|
  {
    if s.pending != [] && CanSend(e.cfg.window, s) {
      FlushCounts(m, e, Emit(m, e, s.(pending := s.pending[1..]), s.pending[0], now), now);
    }
  }

  predicate Counted(x: Peer)
  {
    |x.emitted| + |x.ep.snd.pending| == |x.submitted|
  }

  lemma AckCounts(m: Arith, e: Arq, p: Packet, now: real)
    ensures var r := OnAck(m, e, p, now); |r.output.packets| + |r.ep.snd.pending| == |e.snd.pending|
  {
    var a := AckScan(m, e.snd.out, p.ackno, now, e.snd.ackedBytes, e.snd.rto);
    FlushCounts(m, e, e.snd.(peerWindow := p.window, out := a.kept, ackedBytes := a.bytes, rto := a.rto), now);
  }

  lemma StepCounts(m: Arith, x: Peer, input: Input, now: real)
    requires Counted(x)
    ensures Counted(StepPeer(m, x, input, now))
  {
    match input
    case Submit(data) => SendCounts(m, x.ep, x.ep.snd, Chunks(data, x.ep.cfg.maxPayload), now);
    case Tick =>
    case Receive(p) => AckCounts(m, x.ep, p, now);
  }

  /** Whatever the arithmetic, no more chunks are emitted than were submitted. */
  lemma {:induction false} RunCounts(m: Arith, s: Sys, run: seq<Label>)
    requires Counted(s.a) && Counted(s.b)
    ensures Counted(Run(m, s, run).a) && Counted(Run(m, s, run).b)
    decreases |run|
  {
    if run != [] {
      StepCounts(m, if run[0].side.A? then s.a else s.b, run[0].input, run[0].now);
      RunCounts(m, StepSys(m, s, run[0]), run[1..]);
    }
  }
}
