/** Two muxes of one session over the adversarial network: every stream, on its own, is delivered in order. */
module MuxPair {
  import opened Prelude
  import opened Packets
  import opened Serial
  import opened Rto
  import opened ArqModel
  import opened ArqSafety
  import opened ArqSystem
  import opened ArqTheorems
  import opened ArqWrap
  import opened Mux
  import opened MuxStreams

  datatype Label2 = Label2(side: Side, inp: MuxInput, now: real)

  datatype Muxes = Muxes(a: Track, b: Track, clock: real)

  predicate Allowed(s: Muxes, l: Label2)
  {
    && s.clock <= l.now
    && !l.inp.Adopting?
    && (l.inp.Arriving? ==> l.inp.p in (if l.side.A? then s.b.packets else s.a.packets))
  }

  function StepMuxes(m: Arith, s: Muxes, l: Label2): Muxes
  {
    if l.side.A? then Muxes(StepTrack(m, s.a, Timed(l.inp, l.now)), s.b, l.now)
    else Muxes(s.a, StepTrack(m, s.b, Timed(l.inp, l.now)), l.now)
  }

  predicate LegalMuxes(m: Arith, s: Muxes, run: seq<Label2>)
    decreases |run|
  {
    run == [] || (Allowed(s, run[0]) && LegalMuxes(m, StepMuxes(m, s, run[0]), run[1..]))
  }

  function RunMuxes(m: Arith, s: Muxes, run: seq<Label2>): Muxes
    decreases |run|
  {
    if run == [] then s else RunMuxes(m, StepMuxes(m, s, run[0]), run[1..])
  }

  function NewTrack(session: int, initiator: bool, window: pos, maxPayload: pos, rto: Estimate): Track
  {
    Track(NewMux(session, initiator, window, maxPayload, rto), [], map[])
  }

  function StartMuxes(session: int, windowA: pos, windowB: pos, payloadA: pos, payloadB: pos, rtoA: Estimate, rtoB: Estimate): Muxes
  {
    Muxes(NewTrack(session, true, windowA, payloadA, rtoA), NewTrack(session, false, windowB, payloadB, rtoB), 0.0)
  }

  /** The run of the two stand-alone endpoints of stream `k` inside a run of the muxes. */
  function StreamRun(run: seq<Label2>, k: int): seq<Label>
  {
    if run == [] then []
    else
      match Concerning(run[0].inp, k)
      case Some(Act(input)) => [Label(run[0].side, input, run[0].now)] + StreamRun(run[1..], k)
      case _ => StreamRun(run[1..], k)
  }

  /** Stream `k` of a mux and a stand-alone peer with the same endpoint, packets and deliveries. */
  ghost predicate Mirrors(x: Track, y: Peer, k: int)
  {
    && MuxOk(x.mux)
    && StreamOf(x.mux, k) == y.ep
    && Log(x.delivered, k) == y.delivered
    && forall p: Packet :: p.stream == k ==> (p in x.packets <==> p in y.sent)
  }

  ghost predicate MirrorsSys(s: Muxes, y: Sys, k: int)
  {
    Mirrors(s.a, y.a, k) && Mirrors(s.b, y.b, k) && y.clock <= s.clock
  }

  lemma {:induction false} OnStreamMembers(packets: seq<Packet>, k: int)
    ensures forall p: Packet :: p in OnStream(packets, k) <==> p in packets && p.stream == k
  {
    if packets != [] {
      OnStreamMembers(packets[1..], k);
    }
  }

  /** The stand-alone peer after what concerns its stream. */
  function Moved(m: Arith, y: Peer, c: Option<StreamInput>, now: real): Peer
  {
    match c
    case Some(Act(input)) => StepPeer(m, y, input, now)
    case _ => y
  }

  lemma StepMirrors(m: Arith, x: Track, y: Peer, t: Timed, k: int)
    requires Mirrors(x, y, k) && !t.inp.Adopting?
    ensures Mirrors(StepTrack(m, x, t), Moved(m, y, Concerning(t.inp, k), t.now), k)
  {
    StepAddsToLane(m, x, t, k);
    var r := Step(m, x.mux, t.inp, t.now);
    StepShows(m, x.mux, t.inp, t.now, k);
    OnStreamMembers(r.out.packets, k);
    assert Log(x.delivered, k) + [] == Log(x.delivered, k);
  }

  /** A mux step is one legal step of the stand-alone pair of stream `k`, or none. */
  lemma StepMirrorsSys(m: Arith, s: Muxes, y: Sys, l: Label2, k: int)
    requires MirrorsSys(s, y, k) && Allowed(s, l)
    ensures match Concerning(l.inp, k)
      case Some(Act(input)) =>
        Enabled(y, Label(l.side, input, l.now)) && MirrorsSys(StepMuxes(m, s, l), StepSys(m, y, Label(l.side, input, l.now)), k)
      case _ => MirrorsSys(StepMuxes(m, s, l), y, k)
  {
    var t := Timed(l.inp, l.now);
    if l.side.A? {
      StepMirrors(m, s.a, y.a, t, k);
    } else {
      StepMirrors(m, s.b, y.b, t, k);
    }
  }

  lemma {:induction false} RunMirrors(m: Arith, s: Muxes, y: Sys, run: seq<Label2>, k: int)
    requires MirrorsSys(s, y, k) && LegalMuxes(m, s, run)
    ensures Legal(m, y, StreamRun(run, k)) && MirrorsSys(RunMuxes(m, s, run), Run(m, y, StreamRun(run, k)), k)
    decreases |run|
  {
    if run != [] {
      var l := run[0];
      StepMirrorsSys(m, s, y, l, k);
      match Concerning(l.inp, k) {
        case Some(Act(input)) =>
          var one := Label(l.side, input, l.now);
          assert StreamRun(run, k)[1..] == StreamRun(run[1..], k);
          RunMirrors(m, StepMuxes(m, s, l), StepSys(m, y, one), run[1..], k);
        case _ =>
          RunMirrors(m, StepMuxes(m, s, l), y, run[1..], k);
      }
    }
  }

  /** The stand-alone pair that stream `k` amounts to. */
  function StartOfStream(windowA: pos, windowB: pos, payloadA: pos, payloadB: pos, rtoA: Estimate, rtoB: Estimate,
                         session: int, k: int): Sys
  {
    Start(session, Config(k, windowA, payloadA, DEFAULT_MAX_RETX), Config(k, windowB, payloadB, DEFAULT_MAX_RETX),
          0, 0, rtoA, rtoB)
  }

  lemma StartMirrors(session: int, windowA: pos, windowB: pos, payloadA: pos, payloadB: pos, rtoA: Estimate, rtoB: Estimate, k: int)
    ensures MirrorsSys(StartMuxes(session, windowA, windowB, payloadA, payloadB, rtoA, rtoB),
      StartOfStream(windowA, windowB, payloadA, payloadB, rtoA, rtoB, session, k), k)
  {
  }

  /** In every run of two muxes, whatever is lost, repeated or reordered and however streams interleave,
      what each stream handed up is a prefix of what the peer's endpoint of that stream emitted, which is
      the prefix a stand-alone pair given that stream's inputs alone would have delivered. */
  lemma EveryStreamDeliversInOrder(session: int, windowA: pos, windowB: pos, payloadA: pos, payloadB: pos,
                                   rtoA: Estimate, rtoB: Estimate, run: seq<Label2>, k: int)
    requires LegalMuxes(Unbounded, StartMuxes(session, windowA, windowB, payloadA, payloadB, rtoA, rtoB), run)
    ensures var s := RunMuxes(Unbounded, StartMuxes(session, windowA, windowB, payloadA, payloadB, rtoA, rtoB), run);
      var y0 := StartOfStream(windowA, windowB, payloadA, payloadB, rtoA, rtoB, session, k);
      var y := Run(Unbounded, y0, StreamRun(run, k));
      && Legal(Unbounded, y0, StreamRun(run, k)) && MirrorsSys(s, y, k)
      && Log(s.b.delivered, k) == y.b.delivered <= y.a.emitted
      && Log(s.a.delivered, k) == y.a.delivered <= y.b.emitted
  {
    var s0 := StartMuxes(session, windowA, windowB, payloadA, payloadB, rtoA, rtoB);
    var y0 := StartOfStream(windowA, windowB, payloadA, payloadB, rtoA, rtoB, session, k);
    var cfgA := Config(k, windowA, payloadA, DEFAULT_MAX_RETX);
    var cfgB := Config(k, windowB, payloadB, DEFAULT_MAX_RETX);
    StartMirrors(session, windowA, windowB, payloadA, payloadB, rtoA, rtoB, k);
    RunMirrors(Unbounded, s0, y0, run, k);
    EveryRunDeliversInOrder(session, cfgA, cfgB, 0, 0, rtoA, rtoB, StreamRun(run, k));
  }

  /** The same for the 32-bit muxes themselves, on every stream none of whose packets arrives 2^31 or more
      positions late; with fewer than 2^31 chunks each way, none can. */
  lemma EveryWireStreamDeliversInOrder(session: int, windowA: pos, windowB: pos, payloadA: pos, payloadB: pos,
                                       rtoA: Estimate, rtoB: Estimate, run: seq<Label2>, k: int)
    requires windowA < SEQ_HALF && windowB < SEQ_HALF
    requires LegalMuxes(Serial32, StartMuxes(session, windowA, windowB, payloadA, payloadB, rtoA, rtoB), run)
    requires var y0 := StartOfStream(windowA, windowB, payloadA, payloadB, rtoA, rtoB, session, k);
      HasFreshOrigins(y0, StreamRun(run, k)) || ShortRun(y0, StreamRun(run, k))
    ensures var s := RunMuxes(Serial32, StartMuxes(session, windowA, windowB, payloadA, payloadB, rtoA, rtoB), run);
      var y := Run(Serial32, StartOfStream(windowA, windowB, payloadA, payloadB, rtoA, rtoB, session, k), StreamRun(run, k));
      && MirrorsSys(s, y, k)
      && Log(s.b.delivered, k) == y.b.delivered <= y.a.emitted
      && Log(s.a.delivered, k) == y.a.delivered <= y.b.emitted
  {
    var s0 := StartMuxes(session, windowA, windowB, payloadA, payloadB, rtoA, rtoB);
    var y0 := StartOfStream(windowA, windowB, payloadA, payloadB, rtoA, rtoB, session, k);
    var cfgA := Config(k, windowA, payloadA, DEFAULT_MAX_RETX);
    var cfgB := Config(k, windowB, payloadB, DEFAULT_MAX_RETX);
    StartMirrors(session, windowA, windowB, payloadA, payloadB, rtoA, rtoB, k);
    RunMirrors(Serial32, s0, y0, run, k);
    if ShortRun(y0, StreamRun(run, k)) {
      ShortRunsFromStart(session, cfgA, cfgB, 0, 0, rtoA, rtoB, StreamRun(run, k));
    }
    EveryWireRunDeliversInOrder(session, cfgA, cfgB, 0, 0, rtoA, rtoB, StreamRun(run, k));
  }
}
