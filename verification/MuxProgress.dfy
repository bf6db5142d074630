/** Progress of a whole mux: one round in which nothing is lost is such a round on every stream at once. */
module MuxProgress {
  import opened Prelude
  import opened Packets
  import opened Serial
  import opened Rto
  import opened ArqModel
  import opened ArqSafety
  import opened ArqSystem
  import opened ArqWrap
  import opened ArqProgress
  import opened ArqHistory
  import opened ArqLiveness
  import opened Mux
  import opened MuxStreams
  import opened MuxPair

  function MuxArrivals(side: Side, packets: seq<Packet>, now: real): (r: seq<Label2>)
    ensures |r| == |packets|
  {
    seq(|packets|, i requires 0 <= i < |packets| => Label2(side, Arriving(packets[i]), now))
  }

  /** Everything the mux at B sends in answer to `packets`. */
  function MuxAnswers(m: Arith, s: Muxes, packets: seq<Packet>, now: real): seq<Packet>
    decreases |packets|
  {
    if packets == [] then []
    else Step(m, s.b.mux, Arriving(packets[0]), now).out.packets
         + MuxAnswers(m, StepMuxes(m, s, Label2(B, Arriving(packets[0]), now)), packets[1..], now)
  }

  /** The timers of A run, everything they resend arrives in order, and every answer comes back. */
  function MuxRound(m: Arith, s: Muxes, now: real): seq<Label2>
  {
    var resent := Step(m, s.a.mux, Ticking, now).out.packets;
    var s1 := StepMuxes(m, s, Label2(A, Ticking, now));
    [Label2(A, Ticking, now)] + (MuxArrivals(B, resent, now) + MuxArrivals(A, MuxAnswers(m, s1, resent, now), now))
  }

  function MuxRounds(m: Arith, s: Muxes, times: seq<real>): Muxes
    decreases |times|
  {
    if times == [] then s else MuxRounds(m, RunMuxes(m, s, MuxRound(m, s, times[0])), times[1..])
  }

  // ---- a round is legal ------------------------------------------------------------------------

  lemma MuxArrivalsFirst(side: Side, p: Packet, rest: seq<Packet>, now: real)
    ensures MuxArrivals(side, [p] + rest, now) == [Label2(side, Arriving(p), now)] + MuxArrivals(side, rest, now)
  {
  }

  lemma MuxesFirst(m: Arith, s: Muxes, l: Label2, rest: seq<Label2>)
    ensures RunMuxes(m, s, [l] + rest) == RunMuxes(m, StepMuxes(m, s, l), rest)
    ensures LegalMuxes(m, s, [l] + rest) <==> Allowed(s, l) && LegalMuxes(m, StepMuxes(m, s, l), rest)
  {
    assert ([l] + rest)[1..] == rest;
  }

  lemma {:induction false} StreamRunAppend(a: seq<Label2>, b: seq<Label2>, k: int)
    ensures StreamRun(a + b, k) == StreamRun(a, k) + StreamRun(b, k)
  {
    if a == [] {
      assert a + b == b;
    } else {
      assert (a + b)[1..] == a[1..] + b;
      StreamRunAppend(a[1..], b, k);
    }
  }

  lemma {:induction false} MuxesAppend(m: Arith, s: Muxes, a: seq<Label2>, b: seq<Label2>)
    ensures RunMuxes(m, s, a + b) == RunMuxes(m, RunMuxes(m, s, a), b)
    ensures LegalMuxes(m, s, a) && LegalMuxes(m, RunMuxes(m, s, a), b) ==> LegalMuxes(m, s, a + b)
    decreases |a|
  {
    if a == [] {
      assert a + b == b;
    } else {
      var (l, rest) := (a[0], a[1..]);
      assert a == [l] + rest && a + b == [l] + (rest + b);
      MuxesFirst(m, s, l, rest);
      MuxesFirst(m, s, l, rest + b);
      MuxesAppend(m, StepMuxes(m, s, l), rest, b);
    }
  }

  predicate AllAmong(packets: seq<Packet>, sent: seq<Packet>)
  {
    forall i :: 0 <= i < |packets| ==> packets[i] in sent
  }

  lemma {:induction false} ArrivalsAreLegal(m: Arith, s: Muxes, side: Side, packets: seq<Packet>, now: real)
    requires s.clock <= now && AllAmong(packets, if side.A? then s.b.packets else s.a.packets)
    ensures LegalMuxes(m, s, MuxArrivals(side, packets, now))
    ensures RunMuxes(m, s, MuxArrivals(side, packets, now)).clock <= now
    decreases |packets|
  {
    if packets != [] {
      var l := Label2(side, Arriving(packets[0]), now);
      assert packets == [packets[0]] + packets[1..];
      MuxArrivalsFirst(side, packets[0], packets[1..], now);
      MuxesFirst(m, s, l, MuxArrivals(side, packets[1..], now));
      ArrivalsAreLegal(m, StepMuxes(m, s, l), side, packets[1..], now);
    }
  }

  lemma {:induction false} AnswersAreSent(m: Arith, s: Muxes, packets: seq<Packet>, now: real)
    ensures var t := RunMuxes(m, s, MuxArrivals(B, packets, now));
      AllAmong(MuxAnswers(m, s, packets, now), t.b.packets) && AllAmong(s.b.packets, t.b.packets)
    decreases |packets|
  {
    if packets != [] {
      var l := Label2(B, Arriving(packets[0]), now);
      var s1 := StepMuxes(m, s, l);
      assert packets == [packets[0]] + packets[1..];
      MuxArrivalsFirst(B, packets[0], packets[1..], now);
      MuxesFirst(m, s, l, MuxArrivals(B, packets[1..], now));
      AnswersAreSent(m, s1, packets[1..], now);
      var t := RunMuxes(m, s1, MuxArrivals(B, packets[1..], now));
      var first := Step(m, s.b.mux, Arriving(packets[0]), now).out.packets;
      assert s1.b.packets == s.b.packets + first;
      forall i | 0 <= i < |first| ensures first[i] in t.b.packets {
        assert s1.b.packets[|s.b.packets| + i] == first[i];
      }
      forall i | 0 <= i < |s.b.packets| ensures s.b.packets[i] in t.b.packets {
        assert s1.b.packets[i] == s.b.packets[i];
      }
    }
  }

  lemma MuxRoundIsLegal(m: Arith, s: Muxes, now: real)
    requires s.clock <= now
    ensures LegalMuxes(m, s, MuxRound(m, s, now)) && RunMuxes(m, s, MuxRound(m, s, now)).clock <= now
  {
    var tick := Label2(A, Ticking, now);
    var resent := Step(m, s.a.mux, Ticking, now).out.packets;
    var s1 := StepMuxes(m, s, tick);
    var (there, back) := (MuxArrivals(B, resent, now), MuxArrivals(A, MuxAnswers(m, s1, resent, now), now));
    forall i | 0 <= i < |resent| ensures resent[i] in s1.a.packets {
      assert s1.a.packets[|s.a.packets| + i] == resent[i];
    }
    ArrivalsAreLegal(m, s1, B, resent, now);
    AnswersAreSent(m, s1, resent, now);
    ArrivalsAreLegal(m, RunMuxes(m, s1, there), A, MuxAnswers(m, s1, resent, now), now);
    MuxesAppend(m, s1, there, back);
    MuxesFirst(m, s, tick, there + back);
  }

  // ---- what a round is to one stream -----------------------------------------------------------

  lemma {:induction false} ArrivalsOfStream(side: Side, packets: seq<Packet>, now: real, k: int)
    requires k != CONTROL_STREAM_ID
    ensures StreamRun(MuxArrivals(side, packets, now), k) == Arrivals(side, OnStream(packets, k), now)
    decreases |packets|
  {
    if packets != [] {
      var (p, rest) := (packets[0], packets[1..]);
      assert packets == [p] + rest;
      MuxArrivalsFirst(side, p, rest, now);
      assert MuxArrivals(side, packets, now)[1..] == MuxArrivals(side, rest, now);
      ArrivalsOfStream(side, rest, now, k);
      if p.stream == k {
        ArrivalsCons(side, [p] + OnStream(rest, k), now);
        assert ([p] + OnStream(rest, k))[1..] == OnStream(rest, k);
      }
    }
  }

  /** One arrival at B, seen from stream `k`. */
  lemma ArrivalOfStream(m: Arith, s: Muxes, y: Sys, p: Packet, now: real, k: int)
    requires MirrorsSys(s, y, k) && s.clock <= now && p in s.a.packets && k != CONTROL_STREAM_ID
    ensures OnStream(Step(m, s.b.mux, Arriving(p), now).out.packets, k)
      == if p.stream == k then OnPacket(m, y.b.ep, p, now).output.packets else []
    ensures MirrorsSys(StepMuxes(m, s, Label2(B, Arriving(p), now)),
                       if p.stream == k then StepSys(m, y, Label(B, Receive(p), now)) else y, k)
  {
    StepMirrorsSys(m, s, y, Label2(B, Arriving(p), now), k);
    StepShows(m, s.b.mux, Arriving(p), now, k);
  }

  lemma MuxAnswersFirst(m: Arith, s: Muxes, p: Packet, rest: seq<Packet>, now: real)
    ensures MuxAnswers(m, s, [p] + rest, now)
      == Step(m, s.b.mux, Arriving(p), now).out.packets + MuxAnswers(m, StepMuxes(m, s, Label2(B, Arriving(p), now)), rest, now)
  {
    assert ([p] + rest)[1..] == rest;
  }

  lemma OnStreamFirst(p: Packet, rest: seq<Packet>, k: int)
    ensures OnStream([p] + rest, k) == (if p.stream == k then [p] else []) + OnStream(rest, k)
  {
    assert ([p] + rest)[1..] == rest;
  }

  /** The answers of the stand-alone pair to a first packet, of stream `k` or not, and to the rest. */
  lemma AnswersOfFirst(m: Arith, y: Sys, y1: Sys, p: Packet, rest: seq<Packet>, now: real, k: int, all: seq<Packet>, tail: seq<Packet>)
    requires y1 == (if p.stream == k then StepSys(m, y, Label(B, Receive(p), now)) else y)
    requires all == OnStream([p] + rest, k) && tail == OnStream(rest, k)
    ensures Answers(m, y, all, now)
      == (if p.stream == k then OnPacket(m, y.b.ep, p, now).output.packets else []) + Answers(m, y1, tail, now)
  {
    OnStreamFirst(p, rest, k);
    if p.stream == k {
      AnswersCons(m, y, p, tail, now);
    } else {
      assert all == tail;
    }
  }

  lemma {:induction false} AnswersOfStream(m: Arith, s: Muxes, y: Sys, packets: seq<Packet>, now: real, k: int)
    requires MirrorsSys(s, y, k) && s.clock <= now && AllAmong(packets, s.a.packets) && k != CONTROL_STREAM_ID
    ensures OnStream(MuxAnswers(m, s, packets, now), k) == Answers(m, y, OnStream(packets, k), now)
    decreases |packets|
  {
    if packets != [] {
      var (p, rest) := (packets[0], packets[1..]);
      var s1 := StepMuxes(m, s, Label2(B, Arriving(p), now));
      var y1 := if p.stream == k then StepSys(m, y, Label(B, Receive(p), now)) else y;
      var (first, more) := (Step(m, s.b.mux, Arriving(p), now).out.packets, MuxAnswers(m, s1, rest, now));
      assert packets == [p] + rest;
      ArrivalOfStream(m, s, y, p, now, k);
      AnswersOfStream(m, s1, y1, rest, now, k);
      MuxAnswersFirst(m, s, p, rest, now);
      OnStreamAppend(first, more, k);
      AnswersOfFirst(m, y, y1, p, rest, now, k, OnStream(packets, k), OnStream(rest, k));
    }
  }

  /** The timers of A, seen from stream `k`. */
  lemma OpeningOfStream(m: Arith, s: Muxes, y: Sys, now: real, k: int)
    requires MirrorsSys(s, y, k) && s.clock <= now
    ensures OnStream(Step(m, s.a.mux, Ticking, now).out.packets, k) == OnTick(y.a.ep, now).output.packets
    ensures MirrorsSys(StepMuxes(m, s, Label2(A, Ticking, now)), StepSys(m, y, Label(A, Tick, now)), k)
  {
    StepMirrorsSys(m, s, y, Label2(A, Ticking, now), k);
    StepShows(m, s.a.mux, Ticking, now, k);
  }

  lemma AllAmongSent(m: Arith, s: Muxes, now: real)
    ensures AllAmong(Step(m, s.a.mux, Ticking, now).out.packets, StepMuxes(m, s, Label2(A, Ticking, now)).a.packets)
  {
    var resent := Step(m, s.a.mux, Ticking, now).out.packets;
    var sent := StepMuxes(m, s, Label2(A, Ticking, now)).a.packets;
    forall i | 0 <= i < |resent| ensures resent[i] in sent {
      assert sent[|s.a.packets| + i] == resent[i];
    }
  }

  /** A mux round is a round of every stream at once. */
  lemma MuxRoundOfStream(m: Arith, s: Muxes, y: Sys, now: real, k: int)
    requires MirrorsSys(s, y, k) && s.clock <= now && k != CONTROL_STREAM_ID
    ensures StreamRun(MuxRound(m, s, now), k) == Round(m, y, now)
    ensures MirrorsSys(RunMuxes(m, s, MuxRound(m, s, now)), Run(m, y, Round(m, y, now)), k)
  {
    var tick := Label2(A, Ticking, now);
    var resent := Step(m, s.a.mux, Ticking, now).out.packets;
    var (s1, y1) := (StepMuxes(m, s, tick), StepSys(m, y, Label(A, Tick, now)));
    var back := MuxAnswers(m, s1, resent, now);
    OpeningOfStream(m, s, y, now, k);
    AllAmongSent(m, s, now);
    AnswersOfStream(m, s1, y1, resent, now, k);
    ArrivalsOfStream(B, resent, now, k);
    ArrivalsOfStream(A, back, now, k);
    StreamRunAppend(MuxArrivals(B, resent, now), MuxArrivals(A, back, now), k);
    StreamRunAppend([tick], MuxArrivals(B, resent, now) + MuxArrivals(A, back, now), k);
    TickOfStream(now, k);
    RoundParts(m, y, now);
    MuxRoundIsLegal(m, s, now);
    RunMirrors(m, s, y, MuxRound(m, s, now), k);
  }

  lemma TickOfStream(now: real, k: int)
    ensures StreamRun([Label2(A, Ticking, now)], k) == [Label(A, Tick, now)]
  {
    assert [Label2(A, Ticking, now)][1..] == [];
  }

  lemma {:induction false} MuxRoundsOfStream(m: Arith, s: Muxes, y: Sys, times: seq<real>, k: int)
    requires MirrorsSys(s, y, k) && k != CONTROL_STREAM_ID
    requires (times != [] ==> s.clock <= times[0]) && forall i :: 0 <= i < |times| - 1 ==> times[i] <= times[i + 1]
    ensures MirrorsSys(MuxRounds(m, s, times), Rounds(m, y, times), k)
    decreases |times|
  {
    if times != [] {
      MuxRoundOfStream(m, s, y, times[0], k);
      MuxRoundIsLegal(m, s, times[0]);
      MuxRoundsOfStream(m, RunMuxes(m, s, MuxRound(m, s, times[0])), Run(m, y, Round(m, y, times[0])), times[1..], k);
    }
  }

  /** After any run of two 32-bit muxes, rounds in which nothing is lost finish every stream that has as
      many of them as it has chunks left: its application has everything given to the other one. */
  lemma EveryMuxTransferFinishes(session: int, windowA: pos, windowB: pos, payloadA: pos, payloadB: pos,
                                 rtoA: Estimate, rtoB: Estimate, run: seq<Label2>, times: seq<real>, k: int)
    requires Sane(rtoA) && Sane(rtoB) && 2 * windowA < SEQ_HALF && windowB < SEQ_HALF && k != CONTROL_STREAM_ID
    requires LegalMuxes(Serial32, StartMuxes(session, windowA, windowB, payloadA, payloadB, rtoA, rtoB), run)
    requires var y0 := StartOfStream(windowA, windowB, payloadA, payloadB, rtoA, rtoB, session, k);
      HasFreshOrigins(y0, StreamRun(run, k)) && RoundsSuffice(Run(Serial32, y0, StreamRun(run, k)), times)
    requires var s := RunMuxes(Serial32, StartMuxes(session, windowA, windowB, payloadA, payloadB, rtoA, rtoB), run);
      times != [] ==> s.clock <= times[0]
    ensures var s := RunMuxes(Serial32, StartMuxes(session, windowA, windowB, payloadA, payloadB, rtoA, rtoB), run);
      var y := Run(Serial32, StartOfStream(windowA, windowB, payloadA, payloadB, rtoA, rtoB, session, k), StreamRun(run, k));
      var f := MuxRounds(Serial32, s, times);
      && Left(StreamOf(f.a.mux, k).snd) == 0 && !StreamOf(f.a.mux, k).snd.failed
      && multiset(Log(f.b.delivered, k)) == multiset(y.a.submitted)
  {
    var s0 := StartMuxes(session, windowA, windowB, payloadA, payloadB, rtoA, rtoB);
    var y0 := StartOfStream(windowA, windowB, payloadA, payloadB, rtoA, rtoB, session, k);
    var y := Run(Serial32, y0, StreamRun(run, k));
    var cfgA := Config(k, windowA, payloadA, DEFAULT_MAX_RETX);
    var cfgB := Config(k, windowB, payloadB, DEFAULT_MAX_RETX);
    StartMirrors(session, windowA, windowB, payloadA, payloadB, rtoA, rtoB, k);
    RunMirrors(Serial32, s0, y0, run, k);
    RunKeepsConfig(Serial32, y0, StreamRun(run, k));
    EveryWireTransferFinishes(session, cfgA, cfgB, 0, 0, rtoA, rtoB, StreamRun(run, k), times);
    var i := Behind(session, cfgA, cfgB, 0, 0, rtoA, rtoB, StreamRun(run, k));
    assert y.a.ep.snd.rto.maxRto >= 0.0;
    MuxRoundsOfStream(Serial32, RunMuxes(Serial32, s0, run), y, times, k);
  }
}
