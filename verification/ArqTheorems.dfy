/** What every run of two endpoints guarantees to the applications above them. */
module ArqTheorems {
  import opened Prelude
  import opened Packets
  import opened Rto
  import opened ArqModel
  import opened ArqSafety
  import opened ArqSystem

  lemma StartInv(session: int, cfgA: Config, cfgB: Config, isnA: int, isnB: int, rtoA: Estimate, rtoB: Estimate)
    ensures Inv(Start(session, cfgA, cfgB, isnA, isnB, rtoA, rtoB), isnA, isnB)
  {
  }

  /** What `y` has handed up is, chunk for chunk, the beginning of what `x` put on the wire. */
  predicate DeliversPrefix(x: Peer, y: Peer, isn: int)
  {
    && y.delivered <= x.emitted
    && y.ep.rcv.base == isn + |y.delivered|
    && Una(x.ep.snd) <= y.ep.rcv.base <= x.ep.snd.next
    && x.ep.snd.next == isn + |x.emitted|
    && (forall k :: k in y.ep.rcv.reorder ==> isn <= k < x.ep.snd.next && y.ep.rcv.reorder[k] == x.emitted[k - isn])
    && (forall p :: p in x.sent && p.ptype == DATA ==> isn <= p.seqno < x.ep.snd.next && p.payload == x.emitted[p.seqno - isn])
  }

  lemma FlowDelivers(x: Peer, y: Peer, isn: int, clock: real)
    requires Flow(x, y, isn, clock)
    ensures DeliversPrefix(x, y, isn)
  {
    assert forall p :: p in x.sent ==> DataOk(p, isn, x.emitted);
  }

  /** Safety over every lossy, duplicating, reordering run, both directions at once: each delivered
      stream is a prefix of the emitted one, nothing raises, and a receiver always leaves room. */
  lemma EveryRunDeliversInOrder(session: int, cfgA: Config, cfgB: Config, isnA: int, isnB: int,
                                rtoA: Estimate, rtoB: Estimate, run: seq<Label>)
    requires Legal(Unbounded, Start(session, cfgA, cfgB, isnA, isnB, rtoA, rtoB), run)
    ensures var s := Run(Unbounded, Start(session, cfgA, cfgB, isnA, isnB, rtoA, rtoB), run);
      && DeliversPrefix(s.a, s.b, isnA) && DeliversPrefix(s.b, s.a, isnB)
      && !s.a.raised && !s.b.raised
  {
    var s0 := Start(session, cfgA, cfgB, isnA, isnB, rtoA, rtoB);
    StartInv(session, cfgA, cfgB, isnA, isnB, rtoA, rtoB);
    RunKeepsInv(s0, isnA, isnB, run);
    var s := Run(Unbounded, s0, run);
    FlowDelivers(s.a, s.b, isnA, s.clock);
    FlowDelivers(s.b, s.a, isnB, s.clock);
  }

  /** No zero-window deadlock: both ends always advertise room, every acknowledgement ever sent did
      too, and whatever is queued has something in flight that will release it. */
  lemma NoZeroWindowDeadlock(s: Sys, isnA: int, isnB: int)
    requires Inv(s, isnA, isnB)
    ensures Advertised(s.a.ep.cfg.window, s.a.ep.rcv) >= 1 && Advertised(s.b.ep.cfg.window, s.b.ep.rcv) >= 1
    ensures forall p :: p in s.a.sent + s.b.sent && (p.ptype == ACK || p.ptype == NACK) ==> p.window >= 1
    ensures s.a.ep.snd.pending != [] ==> s.a.ep.snd.out != []
    ensures s.b.ep.snd.pending != [] ==> s.b.ep.snd.out != []
  {
    AdvertisesRoom(s.a.ep.cfg.window, s.a.ep.rcv, isnB, s.b.emitted, s.a.delivered);
    AdvertisesRoom(s.b.ep.cfg.window, s.b.ep.rcv, isnA, s.a.emitted, s.b.delivered);
    forall p | p in s.a.sent + s.b.sent && (p.ptype == ACK || p.ptype == NACK)
      ensures p.window >= 1
    {
      if p in s.a.sent {
        assert AckOk(p, isnB, s.a.ep.rcv.base);
      } else {
        assert AckOk(p, isnA, s.b.ep.rcv.base);
      }
    }
  }

  // ---- conservation --------------------------------------------------------------------------

  /** Every submitted byte is acknowledged, in flight or queued; and no byte is reported acknowledged
      before the peer has handed it up. */
  lemma BytesAreConserved(x: Peer, y: Peer, isn: int, clock: real)
    requires Flow(x, y, isn, clock)
    ensures x.ep.snd.ackedBytes + OutBytes(x.ep.snd.out) + Size(x.ep.snd.pending) == Size(x.submitted)
    ensures x.ep.snd.ackedBytes <= Size(y.delivered)
  {
    var n := |x.ep.snd.out|;
    BytesOfPrefix(x.ep.cfg.window, x.ep.snd, isn, x.emitted, n, clock);
    assert x.ep.snd.out[..n] == x.ep.snd.out && x.emitted[..|x.emitted|] == x.emitted;
    var acked := |x.emitted| - n;
    SizeAppend(x.emitted[..acked], x.emitted[acked..|y.delivered|]);
    assert y.delivered == x.emitted[..acked] + x.emitted[acked..|y.delivered|];
  }

  // ---- submission order ----------------------------------------------------------------------

  /** What has left, followed by what is queued, is what was submitted, in order. */
  predicate InOrder(x: Peer)
  {
    x.emitted + x.ep.snd.pending == x.submitted
  }

  /** Nothing is queued while the window has room: a later submission cannot overtake. */
  predicate CannotOvertake(x: Peer)
  {
    x.ep.snd.pending == [] || !CanSend(x.ep.cfg.window, x.ep.snd)
  }

  /** The one input after which a queued chunk can be overtaken: a NACK, which changes the window
      without flushing the queue. */
  predicate WidensByNack(x: Peer, input: Input)
  {
    && input.Receive? && input.p.ptype == NACK && input.p.session == x.ep.session
    && x.ep.snd.pending != []
    && CanSend(x.ep.cfg.window, x.ep.snd.(peerWindow := input.p.window))
  }

  /** In a state that is in order, the next submission keeps it so, whatever its bytes, exactly when
      nothing can be overtaken. */
  lemma OrderSurvivesEverySubmission(x: Peer, y: Peer, isn: int, clock: real, now: real)
    requires Flow(x, y, isn, clock) && clock <= now && InOrder(x)
    ensures CannotOvertake(x) <==> forall data :: InOrder(StepPeer(Unbounded, x, Submit(data), now))
  {
    var w := x.ep.cfg.window;
    var pending := x.ep.snd.pending;
    if CannotOvertake(x) {
      forall data
        ensures InOrder(StepPeer(Unbounded, x, Submit(data), now))
      {
        SubmitInOrder(x, y, isn, clock, data, now);
      }
    } else {
      var b: byte := 0;
      var data := if pending[0] == [b] then [b + 1] else [b];
      var x' := StepPeer(Unbounded, x, Submit(data), now);
      SendKeeps(x.ep, isn, x.emitted, data, now);
      assert Chunks(data, x.ep.cfg.maxPayload) == [data];
      assert x'.emitted == x.emitted + [data];
      assert (x'.emitted + x'.ep.snd.pending)[|x.emitted|] == data;
      assert x'.submitted == x.emitted + pending + [data];
      assert x'.submitted[|x.emitted|] == pending[0];
      assert !InOrder(x');
    }
  }

  lemma Rejoin<T>(front: seq<T>, queue: seq<T>, more: seq<T>, n: nat)
    requires n <= |more| && (queue == [] || n == 0)
    ensures front + more[..n] + (queue + more[n..]) == front + queue + more
  {
  }

  lemma SubmitInOrder(x: Peer, y: Peer, isn: int, clock: real, data: bytes, now: real)
    requires Flow(x, y, isn, clock) && clock <= now && InOrder(x) && CannotOvertake(x)
    ensures var x' := StepPeer(Unbounded, x, Submit(data), now); InOrder(x') && CannotOvertake(x')
  {
    var chunks := Chunks(data, x.ep.cfg.maxPayload);
    var n := Least(Room(x.ep.cfg.window, x.ep.snd), |chunks|);
    SendKeeps(x.ep, isn, x.emitted, data, now);
    Rejoin(x.emitted, x.ep.snd.pending, chunks, n);
  }

  lemma AckFlushesInOrder(e: Arq, isn: int, emitted: seq<bytes>, p: Packet, now: real)
    requires SenderOk(e.cfg.window, e.snd, isn, emitted, now)
    requires isn <= p.ackno <= e.snd.next && p.window >= 1
    ensures var r := OnAck(Unbounded, e, p, now);
      && emitted + Payloads(r.output.packets) + r.ep.snd.pending == emitted + e.snd.pending
      && r.ep.cfg == e.cfg && (r.ep.snd.pending == [] || !CanSend(e.cfg.window, r.ep.snd))
  {
    var n := Least(Room(e.cfg.window, Trimmed(e.snd, p, now)), |e.snd.pending|);
    AckKeeps(e, isn, emitted, p, now);
    Rejoin(emitted, [], e.snd.pending, n);
  }

  lemma AckInOrder(x: Peer, y: Peer, isn: int, clock: real, p: Packet, now: real)
    requires Flow(x, y, isn, clock) && clock <= now && InOrder(x)
    requires p in y.sent && p.ptype == ACK && p.session == x.ep.session
    ensures var x' := StepPeer(Unbounded, x, Receive(p), now); InOrder(x') && CannotOvertake(x')
  {
    assert AckOk(p, isn, y.ep.rcv.base);
    AckFlushesInOrder(x.ep, isn, x.emitted, p, now);
    LogsGrowOnlyWithData(Unbounded, x, Receive(p), now);
  }

  lemma TickInOrder(x: Peer, y: Peer, isn: int, clock: real, now: real)
    requires Flow(x, y, isn, clock) && clock <= now && InOrder(x) && CannotOvertake(x)
    ensures var x' := StepPeer(Unbounded, x, Tick, now); InOrder(x') && CannotOvertake(x')
  {
    LogsGrowOnlyWithData(Unbounded, x, Tick, now);
    SenderOkLater(x.ep.cfg.window, x.ep.snd, isn, x.emitted, clock, now);
    TickKeeps(x.ep, isn, x.emitted, now);
  }

  lemma StepKeepsOrder(x: Peer, y: Peer, isn: int, clock: real, input: Input, now: real)
    requires Flow(x, y, isn, clock) && clock <= now && InOrder(x) && CannotOvertake(x)
    requires !WidensByNack(x, input)
    requires input.Receive? ==> input.p in y.sent
    ensures var x' := StepPeer(Unbounded, x, input, now); InOrder(x') && CannotOvertake(x')
  {
    match input
    case Submit(data) => SubmitInOrder(x, y, isn, clock, data, now);
    case Tick => TickInOrder(x, y, isn, clock, now);
    case Receive(p) =>
      if p.session == x.ep.session && p.ptype == ACK {
        AckInOrder(x, y, isn, clock, p, now);
      } else {
        OtherInOrder(x, p, now);
      }
  }

  lemma OtherInOrder(x: Peer, p: Packet, now: real)
    requires InOrder(x) && CannotOvertake(x) && !WidensByNack(x, Receive(p))
    requires p.session != x.ep.session || p.ptype != ACK
    ensures var x' := StepPeer(Unbounded, x, Receive(p), now); InOrder(x') && CannotOvertake(x')
  {
    assert x.emitted + [] == x.emitted && x.submitted + [] == x.submitted;
  }

  /** No step of the run is a NACK that opens the window over a queue. */
  predicate NeverWidens(m: Arith, s: Sys, run: seq<Label>)
    decreases |run|
  {
    run == [] ||
    (!WidensByNack(if run[0].side.A? then s.a else s.b, run[0].input) && NeverWidens(m, StepSys(m, s, run[0]), run[1..]))
  }

  lemma {:induction false} RunKeepsOrder(s: Sys, isnA: int, isnB: int, run: seq<Label>)
    requires Inv(s, isnA, isnB) && Legal(Unbounded, s, run) && NeverWidens(Unbounded, s, run)
    requires InOrder(s.a) && CannotOvertake(s.a) && InOrder(s.b) && CannotOvertake(s.b)
    ensures var t := Run(Unbounded, s, run);
      InOrder(t.a) && InOrder(t.b) && t.b.delivered <= t.a.submitted && t.a.delivered <= t.b.submitted
    decreases |run|
  {
    if run == [] {
      assert s.b.delivered <= s.a.emitted <= s.a.submitted;
      assert s.a.delivered <= s.b.emitted <= s.b.submitted;
    } else {
      var l := run[0];
      StepKeepsInv(s, isnA, isnB, l);
      if l.side.A? {
        StepKeepsOrder(s.a, s.b, isnA, s.clock, l.input, l.now);
      } else {
        StepKeepsOrder(s.b, s.a, isnB, s.clock, l.input, l.now);
      }
      RunKeepsOrder(StepSys(Unbounded, s, l), isnA, isnB, run[1..]);
    }
  }

  /** End to end: as long as no NACK opens the window over a queue, the applications see exactly the
      chunks submitted on the other side, in the order they were submitted. */
  lemma DeliveryFollowsSubmission(session: int, cfgA: Config, cfgB: Config, isnA: int, isnB: int,
                                  rtoA: Estimate, rtoB: Estimate, run: seq<Label>)
    requires Legal(Unbounded, Start(session, cfgA, cfgB, isnA, isnB, rtoA, rtoB), run)
    requires NeverWidens(Unbounded, Start(session, cfgA, cfgB, isnA, isnB, rtoA, rtoB), run)
    ensures var s := Run(Unbounded, Start(session, cfgA, cfgB, isnA, isnB, rtoA, rtoB), run);
      s.b.delivered <= s.a.submitted && s.a.delivered <= s.b.submitted
  {
    StartInv(session, cfgA, cfgB, isnA, isnB, rtoA, rtoB);
    RunKeepsOrder(Start(session, cfgA, cfgB, isnA, isnB, rtoA, rtoB), isnA, isnB, run);
  }
}
