/** The joint invariant of the two endpoints, for every run over the adversarial network. */
module ArqSystem {
  import opened Prelude
  import opened Packets
  import opened Rto
  import opened ArqModel
  import opened ArqSafety

  datatype Side = A | B

  /** One step: one endpoint reacts to one input, at a time no earlier than the step before. */
  datatype Label = Label(side: Side, input: Input, now: real)

  datatype Sys = Sys(a: Peer, b: Peer, clock: real)

  function NewPeer(ep: Arq): Peer
  {
    Peer(ep, {}, [], [], [], [], [], false)
  }

  /** Each side's receiver expects what the other side's sender starts from. */
  function Start(session: int, cfgA: Config, cfgB: Config, isnA: int, isnB: int, rtoA: Estimate, rtoB: Estimate): Sys
  {
    Sys(NewPeer(NewEndpoint(session, cfgA, isnA, isnB, rtoA)), NewPeer(NewEndpoint(session, cfgB, isnB, isnA, rtoB)), 0.0)
  }

  /** Any packet the other side ever sent may arrive. */
  predicate Enabled(s: Sys, l: Label)
  {
    && s.clock <= l.now
    && (l.input.Receive? ==> l.input.p in (if l.side.A? then s.b.sent else s.a.sent))
  }

  function StepSys(m: Arith, s: Sys, l: Label): Sys
  {
    if l.side.A? then Sys(StepPeer(m, s.a, l.input, l.now), s.b, l.now)
    else Sys(s.a, StepPeer(m, s.b, l.input, l.now), l.now)
  }

  predicate Legal(m: Arith, s: Sys, run: seq<Label>)
    decreases |run|
  {
    run == [] || (Enabled(s, run[0]) && Legal(m, StepSys(m, s, run[0]), run[1..]))
  }

  function Run(m: Arith, s: Sys, run: seq<Label>): Sys
    decreases |run|
  {
    if run == [] then s else Run(m, StepSys(m, s, run[0]), run[1..])
  }

  lemma RunFirst(m: Arith, s: Sys, run: seq<Label>)
    requires run != []
    ensures Run(m, s, run) == Run(m, StepSys(m, s, run[0]), run[1..])
    ensures Legal(m, s, run) <==> Enabled(s, run[0]) && Legal(m, StepSys(m, s, run[0]), run[1..])
  {
  }

  lemma {:induction false} RunAppend(m: Arith, s: Sys, r1: seq<Label>, r2: seq<Label>)
    ensures Run(m, s, r1 + r2) == Run(m, Run(m, s, r1), r2)
    ensures Legal(m, s, r1) && Legal(m, Run(m, s, r1), r2) ==> Legal(m, s, r1 + r2)
    decreases |r1|
  {
    if r1 == [] {
      assert r1 + r2 == r2;
    } else {
      assert (r1 + r2)[1..] == r1[1..] + r2;
      RunAppend(m, StepSys(m, s, r1[0]), r1[1..], r2);
    }
  }

  // ---- one direction -------------------------------------------------------------------------

  predicate AckOk(p: Packet, isn: int, base: int)
  {
    p.ptype == ACK || p.ptype == NACK ==> isn <= p.ackno <= base && p.window >= 1
  }

  predicate AllDataOk(sent: set<Packet>, isn: int, emitted: seq<bytes>)
  {
    forall p :: p in sent ==> DataOk(p, isn, emitted)
  }

  predicate AllAckOk(sent: set<Packet>, isn: int, base: int)
  {
    forall p :: p in sent ==> AckOk(p, isn, base)
  }

  /** Everything submitted is on the wire or in the queue, once. */
  predicate Conserved(x: Peer)
  {
    && multiset(x.emitted) + multiset(x.ep.snd.pending) == multiset(x.submitted)
    && Size(x.emitted) + Size(x.ep.snd.pending) == Size(x.submitted)
  }

  /** The flow of data from `x` to `y`, whose first sequence number is `isn`. */
  predicate Flow(x: Peer, y: Peer, isn: int, clock: real)
  {
    && SenderOk(x.ep.cfg.window, x.ep.snd, isn, x.emitted, clock)
    && NoDeadlock(x.ep.snd)
    && ReceiverOk(y.ep.cfg.window, y.ep.rcv, isn, x.emitted, y.delivered)
    && Una(x.ep.snd) <= y.ep.rcv.base
    && AllDataOk(x.sent, isn, x.emitted)
    && AllAckOk(y.sent, isn, y.ep.rcv.base)
    && Conserved(x)
    && !x.raised
  }

  predicate Inv(s: Sys, isnA: int, isnB: int)
  {
    Flow(s.a, s.b, isnA, s.clock) && Flow(s.b, s.a, isnB, s.clock)
  }

  // ---- what a step leaves alone ----------------------------------------------------------------

  /** Data only moves the receiving half, everything else only the sending half. */
  lemma HalvesAreIndependent(m: Arith, e: Arq, input: Input, now: real)
    ensures var r := React(m, e, input, now);
      && r.ep.session == e.session && r.ep.cfg == e.cfg
      && (if input.Receive? && input.p.ptype == DATA then r.ep.snd == e.snd else r.ep.rcv == e.rcv && r.output.delivered == [])
  {
  }

  lemma LogsGrowOnlyWithData(m: Arith, x: Peer, input: Input, now: real)
    ensures !input.Submit? ==> StepPeer(m, x, input, now).submitted == x.submitted
    ensures !SendsNewData(input) ==> StepPeer(m, x, input, now).emitted == x.emitted
  {
    assert x.submitted + [] == x.submitted && x.emitted + [] == x.emitted;
  }

  /** A peer told something new about its sending half only. */
  lemma SenderGrew(x: Peer, y: Peer, x': Peer, isn: int, clock: real, now: real, more: seq<bytes>, packets: seq<Packet>)
    requires Flow(x, y, isn, clock) && clock <= now
    requires x'.ep.cfg == x.ep.cfg
    requires x'.emitted == x.emitted + more && x'.sent == x.sent + (set p | p in packets) && !x'.raised
    requires SenderOk(x.ep.cfg.window, x'.ep.snd, isn, x'.emitted, now) && NoDeadlock(x'.ep.snd)
    requires AllData(packets, isn, x'.emitted)
    requires Una(x'.ep.snd) <= y.ep.rcv.base
    requires Conserved(x')
    ensures Flow(x', y, isn, now)
  {
    ReceiverGrows(y.ep.cfg.window, y.ep.rcv, isn, x.emitted, y.delivered, more);
    forall p | p in x'.sent
      ensures DataOk(p, isn, x'.emitted)
    {
      if p in x.sent {
        assert DataOk(p, isn, x.emitted);
      }
    }
  }

  /** Nothing about the sending half changed, and only acknowledgements were sent. */
  lemma SenderIdle(x: Peer, y: Peer, x': Peer, isn: int, clock: real, now: real)
    requires Flow(x, y, isn, clock) && clock <= now
    requires x'.ep.cfg == x.ep.cfg && x'.ep.snd == x.ep.snd
    requires x'.emitted == x.emitted && x'.submitted == x.submitted && !x'.raised
    requires forall p :: p in x'.sent ==> p in x.sent || p.ptype != DATA
    ensures Flow(x', y, isn, now)
  {
    forall i | 0 <= i < |x.ep.snd.out|
      ensures EntryOk(x'.ep.snd.out[i], isn, x.emitted, |x.emitted| - |x.ep.snd.out| + i, now)
    {
      assert EntryOk(x.ep.snd.out[i], isn, x.emitted, |x.emitted| - |x.ep.snd.out| + i, clock);
    }
  }

  /** Packets sent again: the window's contents are stamped, nothing enters or leaves it. */
  lemma SenderRepeated(x: Peer, y: Peer, x': Peer, isn: int, clock: real, now: real, packets: seq<Packet>)
    requires Flow(x, y, isn, clock) && clock <= now
    requires x'.ep.cfg == x.ep.cfg && x'.ep.snd.next == x.ep.snd.next && x'.ep.snd.pending == x.ep.snd.pending
    requires |x'.ep.snd.out| == |x.ep.snd.out|
    requires x'.emitted == x.emitted && x'.submitted == x.submitted && !x'.raised
    requires x'.sent == x.sent + (set p | p in packets)
    requires SenderOk(x.ep.cfg.window, x'.ep.snd, isn, x.emitted, now) && AllData(packets, isn, x.emitted)
    ensures Flow(x', y, isn, now)
  {
    assert x'.emitted == x.emitted + [];
    SenderGrew(x, y, x', isn, clock, now, [], packets);
  }

  lemma MovedFromQueue(x: Peer, x': Peer, n: nat)
    requires Conserved(x) && n <= |x.ep.snd.pending|
    requires x'.submitted == x.submitted
    requires x'.emitted == x.emitted + x.ep.snd.pending[..n] && x'.ep.snd.pending == x.ep.snd.pending[n..]
    ensures Conserved(x')
  {
    var q := x.ep.snd.pending;
    assert q == q[..n] + q[n..];
    SizeAppend(x.emitted, q[..n]);
    SizeAppend(q[..n], q[n..]);
  }

  lemma Submitted(x: Peer, x': Peer, chunks: seq<bytes>, n: nat)
    requires Conserved(x) && n <= |chunks|
    requires x'.submitted == x.submitted + chunks
    requires x'.emitted == x.emitted + chunks[..n] && x'.ep.snd.pending == x.ep.snd.pending + chunks[n..]
    ensures Conserved(x')
  {
    assert chunks == chunks[..n] + chunks[n..];
    SizeAppend(x.emitted, chunks[..n]);
    SizeAppend(x.ep.snd.pending, chunks[n..]);
    SizeAppend(chunks[..n], chunks[n..]);
    SizeAppend(x.submitted, chunks);
  }

  // ---- one step, seen by the stream its peer sends -------------------------------------------

  lemma SubmitKeeps(x: Peer, y: Peer, isn: int, clock: real, data: bytes, now: real)
    requires Flow(x, y, isn, clock) && clock <= now
    ensures Flow(StepPeer(Unbounded, x, Submit(data), now), y, isn, now)
  {
    var x' := StepPeer(Unbounded, x, Submit(data), now);
    var chunks := Chunks(data, x.ep.cfg.maxPayload);
    var n := Least(Room(x.ep.cfg.window, x.ep.snd), |chunks|);
    SendKeeps(x.ep, isn, x.emitted, data, now);
    Submitted(x, x', chunks, n);
    SenderGrew(x, y, x', isn, clock, now, chunks[..n], Send(Unbounded, x.ep, data, now).output.packets);
  }

  lemma SenderOkLater(w: pos, s: Sender, isn: int, emitted: seq<bytes>, clock: real, now: real)
    requires SenderOk(w, s, isn, emitted, clock) && clock <= now
    ensures SenderOk(w, s, isn, emitted, now)
  {
    forall i | 0 <= i < |s.out| ensures EntryOk(s.out[i], isn, emitted, |emitted| - |s.out| + i, now) {
      assert EntryOk(s.out[i], isn, emitted, |emitted| - |s.out| + i, clock);
    }
  }

  lemma TickKeepsFlow(x: Peer, y: Peer, isn: int, clock: real, now: real)
    requires Flow(x, y, isn, clock) && clock <= now
    ensures Flow(StepPeer(Unbounded, x, Tick, now), y, isn, now)
  {
    var x' := StepPeer(Unbounded, x, Tick, now);
    LogsGrowOnlyWithData(Unbounded, x, Tick, now);
    SenderOkLater(x.ep.cfg.window, x.ep.snd, isn, x.emitted, clock, now);
    TickKeeps(x.ep, isn, x.emitted, now);
    TickSendsData(x.ep, isn, x.emitted, now);
    SenderRepeated(x, y, x', isn, clock, now, OnTick(x.ep, now).output.packets);
  }

  lemma AckKeepsFlow(x: Peer, y: Peer, isn: int, clock: real, p: Packet, now: real)
    requires Flow(x, y, isn, clock) && clock <= now
    requires p in y.sent && p.ptype == ACK && p.session == x.ep.session
    ensures Flow(StepPeer(Unbounded, x, Receive(p), now), y, isn, now)
  {
    var x' := StepPeer(Unbounded, x, Receive(p), now);
    LogsGrowOnlyWithData(Unbounded, x, Receive(p), now);
    assert AckOk(p, isn, y.ep.rcv.base);
    AckKeeps(x.ep, isn, x.emitted, p, now);
    var n := Least(Room(x.ep.cfg.window, Trimmed(x.ep.snd, p, now)), |x.ep.snd.pending|);
    MovedFromQueue(x, x', n);
    SenderGrew(x, y, x', isn, clock, now, x.ep.snd.pending[..n], OnAck(Unbounded, x.ep, p, now).output.packets);
  }

  lemma NackKeepsFlow(x: Peer, y: Peer, isn: int, clock: real, p: Packet, now: real)
    requires Flow(x, y, isn, clock) && clock <= now
    requires p in y.sent && p.ptype == NACK && p.session == x.ep.session
    ensures Flow(StepPeer(Unbounded, x, Receive(p), now), y, isn, now)
  {
    var x' := StepPeer(Unbounded, x, Receive(p), now);
    LogsGrowOnlyWithData(Unbounded, x, Receive(p), now);
    assert AckOk(p, isn, y.ep.rcv.base);
    NackKeeps(x.ep, isn, x.emitted, p, now);
    SenderRepeated(x, y, x', isn, clock, now, OnNack(x.ep, p, now).output.packets);
  }

  /** Data, and packets the endpoint ignores, change nothing about the stream the peer sends. */
  lemma DataKeepsOtherFlow(x: Peer, y: Peer, isn: int, clock: real, p: Packet, now: real)
    requires Flow(x, y, isn, clock) && clock <= now
    requires p.session != x.ep.session || (p.ptype != ACK && p.ptype != NACK)
    ensures Flow(StepPeer(Unbounded, x, Receive(p), now), y, isn, now)
  {
    var x' := StepPeer(Unbounded, x, Receive(p), now);
    LogsGrowOnlyWithData(Unbounded, x, Receive(p), now);
    assert x'.emitted == x.emitted + [] == x.emitted;
    SenderIdle(x, y, x', isn, clock, now);
  }

  lemma OutgoingFlowKept(x: Peer, y: Peer, isn: int, clock: real, input: Input, now: real)
    requires Flow(x, y, isn, clock) && clock <= now
    requires input.Receive? ==> input.p in y.sent
    ensures Flow(StepPeer(Unbounded, x, input, now), y, isn, now)
  {
    match input
    case Submit(data) => SubmitKeeps(x, y, isn, clock, data, now);
    case Tick => TickKeepsFlow(x, y, isn, clock, now);
    case Receive(p) =>
      if p.session == x.ep.session && p.ptype == ACK {
        AckKeepsFlow(x, y, isn, clock, p, now);
      } else if p.session == x.ep.session && p.ptype == NACK {
        NackKeepsFlow(x, y, isn, clock, p, now);
      } else {
        DataKeepsOtherFlow(x, y, isn, clock, p, now);
      }
  }

  // ---- one step, seen by the stream its peer receives ------------------------------------------

  /** Only data moves the receiving half; other packets a peer sends are not acknowledgements. */
  lemma OtherInputsKeepIncoming(x: Peer, y: Peer, isn: int, clock: real, input: Input, now: real, isnX: int)
    requires Flow(y, x, isn, clock) && Flow(x, y, isnX, clock) && clock <= now
    requires input.Receive? ==> input.p in y.sent && input.p.ptype != DATA
    ensures Flow(y, StepPeer(Unbounded, x, input, now), isn, now)
  {
    var x' := StepPeer(Unbounded, x, input, now);
    HalvesAreIndependent(Unbounded, x.ep, input, now);
    SendsOnlyData(x, y, isnX, clock, input, now);
    assert x'.delivered == x.delivered;
    forall p | p in x'.sent
      ensures AckOk(p, isn, x'.ep.rcv.base)
    {
      if p in x.sent {
        assert AckOk(p, isn, x.ep.rcv.base);
      }
    }
  }

  lemma SendsOnlyData(x: Peer, y: Peer, isn: int, clock: real, input: Input, now: real)
    requires Flow(x, y, isn, clock) && clock <= now
    requires input.Receive? ==> input.p in y.sent && input.p.ptype != DATA
    ensures forall p :: p in React(Unbounded, x.ep, input, now).output.packets ==> p.ptype == DATA
  {
    SenderOkLater(x.ep.cfg.window, x.ep.snd, isn, x.emitted, clock, now);
    match input
    case Submit(data) => SendKeeps(x.ep, isn, x.emitted, data, now);
    case Tick => TickSendsData(x.ep, isn, x.emitted, now);
    case Receive(p) =>
      assert AckOk(p, isn, y.ep.rcv.base);
      RepliesSendOnlyData(x.ep, isn, x.emitted, p, now);
  }

  lemma RepliesSendOnlyData(e: Arq, isn: int, emitted: seq<bytes>, p: Packet, now: real)
    requires SenderOk(e.cfg.window, e.snd, isn, emitted, now)
    requires p.ptype != DATA && (p.ptype == ACK || p.ptype == NACK ==> isn <= p.ackno <= e.snd.next && p.window >= 1)
    ensures forall q :: q in OnPacket(Unbounded, e, p, now).output.packets ==> q.ptype == DATA
  {
    if p.session == e.session && p.ptype == ACK {
      AckKeeps(e, isn, emitted, p, now);
    } else if p.session == e.session && p.ptype == NACK {
      NackKeeps(e, isn, emitted, p, now);
    }
  }

  lemma DataKeepsIncoming(x: Peer, y: Peer, isn: int, clock: real, p: Packet, now: real)
    requires Flow(y, x, isn, clock) && clock <= now
    requires p in y.sent && p.ptype == DATA
    ensures Flow(y, StepPeer(Unbounded, x, Receive(p), now), isn, now)
  {
    var x' := StepPeer(Unbounded, x, Receive(p), now);
    if p.session == x.ep.session {
      assert DataOk(p, isn, y.emitted);
      AcceptKeeps(x.ep.cfg.window, x.ep.rcv, isn, y.emitted, x.delivered, p);
      var a := Accept(Unbounded, x.ep.cfg.window, x.ep.rcv, p);
      AdvertisesRoom(x.ep.cfg.window, a.rcv, isn, y.emitted, x.delivered + a.delivered);
      forall q | q in x'.sent
        ensures AckOk(q, isn, x'.ep.rcv.base)
      {
        if q in x.sent {
          assert AckOk(q, isn, x.ep.rcv.base);
        }
      }
    } else {
      assert x'.sent == x.sent && x'.delivered == x.delivered;
    }
  }

  lemma StepKeepsInv(s: Sys, isnA: int, isnB: int, l: Label)
    requires Inv(s, isnA, isnB) && Enabled(s, l)
    ensures Inv(StepSys(Unbounded, s, l), isnA, isnB)
  {
    var (x, y, isnX, isnY) := if l.side.A? then (s.a, s.b, isnA, isnB) else (s.b, s.a, isnB, isnA);
    OutgoingFlowKept(x, y, isnX, s.clock, l.input, l.now);
    if l.input.Receive? && l.input.p.ptype == DATA {
      DataKeepsIncoming(x, y, isnY, s.clock, l.input.p, l.now);
    } else {
      OtherInputsKeepIncoming(x, y, isnY, s.clock, l.input, l.now, isnX);
    }
  }

  lemma {:induction false} RunKeepsInv(s: Sys, isnA: int, isnB: int, run: seq<Label>)
    requires Inv(s, isnA, isnB) && Legal(Unbounded, s, run)
    ensures Inv(Run(Unbounded, s, run), isnA, isnB)
    decreases |run|
  {
    if run != [] {
      StepKeepsInv(s, isnA, isnB, run[0]);
      RunKeepsInv(StepSys(Unbounded, s, run[0]), isnA, isnB, run[1..]);
    }
  }
}
