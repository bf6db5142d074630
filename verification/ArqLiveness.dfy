/** From the start: after any run, over positions or over 32-bit serials, rounds that lose nothing finish
    whatever is left, and every one of them does some of it. */
module ArqLiveness {
  import opened Prelude
  import opened Packets
  import opened Serial
  import opened Rto
  import opened ArqModel
  import opened ArqSafety
  import opened ArqSystem
  import opened ArqTheorems
  import opened ArqWrap
  import opened ArqProgress
  import opened ArqHistory

  // ---- over positions ------------------------------------------------------------------------

  /** What every run from the start keeps of what a round asks for. */
  lemma ReachableIsReady(session: int, cfgA: Config, cfgB: Config, isnA: int, isnB: int,
                         rtoA: Estimate, rtoB: Estimate, run: seq<Label>)
    requires Sane(rtoA) && Sane(rtoB)
    requires Legal(Unbounded, Start(session, cfgA, cfgB, isnA, isnB, rtoA, rtoB), run)
    ensures var s := Run(Unbounded, Start(session, cfgA, cfgB, isnA, isnB, rtoA, rtoB), run);
      Inv(s, isnA, isnB) && OneSession(s) && RtoOk(s.a.ep.snd.rto) && RtoOk(s.b.ep.snd.rto)
  {
    var s0 := Start(session, cfgA, cfgB, isnA, isnB, rtoA, rtoB);
    StartInv(session, cfgA, cfgB, isnA, isnB, rtoA, rtoB);
    RunKeepsInv(s0, isnA, isnB, run);
    RunKeepsOneSession(Unbounded, s0, run);
    RunKeepsSane(s0, isnA, isnB, run);
  }

  /** After any run at all: while anything is left, one more round that loses nothing leaves strictly less. */
  lemma EveryRoundShrinksTheWork(session: int, cfgA: Config, cfgB: Config, isnA: int, isnB: int,
                                 rtoA: Estimate, rtoB: Estimate, run: seq<Label>, now: real)
    requires Sane(rtoA) && Sane(rtoB)
    requires Legal(Unbounded, Start(session, cfgA, cfgB, isnA, isnB, rtoA, rtoB), run)
    requires var s := Run(Unbounded, Start(session, cfgA, cfgB, isnA, isnB, rtoA, rtoB), run);
      s.clock <= now && DueWithBudget(s.a.ep, now)
    ensures var s := Run(Unbounded, Start(session, cfgA, cfgB, isnA, isnB, rtoA, rtoB), run);
      var t := Run(Unbounded, s, Round(Unbounded, s, now));
      && Legal(Unbounded, s, Round(Unbounded, s, now))
      && (Left(s.a.ep.snd) > 0 ==> Left(t.a.ep.snd) < Left(s.a.ep.snd))
  {
    ReachableIsReady(session, cfgA, cfgB, isnA, isnB, rtoA, rtoB, run);
    RoundAcksWindow(Run(Unbounded, Start(session, cfgA, cfgB, isnA, isnB, rtoA, rtoB), run), isnA, isnB, now);
  }

  /** Everything given to a side has been handed up at the other, and the sender has nothing left. */
  predicate Finished(t: Sys, submitted: seq<bytes>)
  {
    && !t.a.ep.snd.failed && Left(t.a.ep.snd) == 0
    && t.b.delivered == t.a.emitted && multiset(t.b.delivered) == multiset(submitted)
  }

  /** What the sender must still have when the rounds begin: it has not given up, its timers have run out
      with a retransmission to spare, and there are rounds enough, a maximal timeout apart. */
  predicate RoundsSuffice(s: Sys, times: seq<real>)
  {
    && s.a.ep.cfg.maxRetx >= 1 && !s.a.ep.snd.failed
    && (times != [] ==> s.clock <= times[0] && DueWithBudget(s.a.ep, times[0]))
    && Spaced(times, s.a.ep.snd.rto.maxRto) && Left(s.a.ep.snd) <= |times|
  }

  /** After any run at all, as many such rounds as there are chunks left finish the transfer. */
  lemma EveryTransferFinishes(session: int, cfgA: Config, cfgB: Config, isnA: int, isnB: int,
                              rtoA: Estimate, rtoB: Estimate, run: seq<Label>, times: seq<real>)
    requires Sane(rtoA) && Sane(rtoB)
    requires Legal(Unbounded, Start(session, cfgA, cfgB, isnA, isnB, rtoA, rtoB), run)
    requires RoundsSuffice(Run(Unbounded, Start(session, cfgA, cfgB, isnA, isnB, rtoA, rtoB), run), times)
    ensures var s := Run(Unbounded, Start(session, cfgA, cfgB, isnA, isnB, rtoA, rtoB), run);
      Finished(Rounds(Unbounded, s, times), s.a.submitted)
  {
    ReachableIsReady(session, cfgA, cfgB, isnA, isnB, rtoA, rtoB, run);
    TransferFinishes(Run(Unbounded, Start(session, cfgA, cfgB, isnA, isnB, rtoA, rtoB), run), isnA, isnB, times);
  }

  // ---- nothing a round delivers is stale -------------------------------------------------------

  lemma {:induction false} LogsGrow(s: Sys, run: seq<Label>)
    ensures var t := Run(Unbounded, s, run);
      && |s.a.delivered| <= |t.a.delivered| && |s.b.delivered| <= |t.b.delivered|
      && |s.a.emitted| <= |t.a.emitted| && |s.b.emitted| <= |t.b.emitted|
    decreases |run|
  {
    if run != [] {
      LogsGrow(StepSys(Unbounded, s, run[0]), run[1..]);
    }
  }

  /** Endpoints only move forward: what is not stale later was not stale before. */
  lemma NotStaleBefore(s: Sys, t: Sys, isnA: int, isnB: int, l: Label)
    requires Inv(s, isnA, isnB) && Inv(t, isnA, isnB) && StepNotStale(t, l)
    requires |s.a.delivered| <= |t.a.delivered| && |s.b.delivered| <= |t.b.delivered|
    requires |s.a.emitted| <= |t.a.emitted| && |s.b.emitted| <= |t.b.emitted|
    ensures StepNotStale(s, l)
  {
  }

  /** What is not stale where a run ends was not stale on the way. */
  lemma {:induction false} JudgedAtTheEnd(s: Sys, isnA: int, isnB: int, run: seq<Label>)
    requires Inv(s, isnA, isnB) && Legal(Unbounded, s, run)
    requires forall j :: 0 <= j < |run| ==> StepNotStale(Run(Unbounded, s, run), run[j])
    ensures NeverStale(s, run)
    decreases |run|
  {
    if run != [] {
      RunFirst(Unbounded, s, run);
      LogsGrow(s, run);
      RunKeepsInv(s, isnA, isnB, run);
      NotStaleBefore(s, Run(Unbounded, s, run), isnA, isnB, run[0]);
      StepKeepsInv(s, isnA, isnB, run[0]);
      JudgedAtTheEnd(StepSys(Unbounded, s, run[0]), isnA, isnB, run[1..]);
    }
  }

  predicate AcksFrom(packets: seq<Packet>, low: int)
  {
    forall i :: 0 <= i < |packets| ==> packets[i].ptype != DATA && packets[i].ackno >= low
  }

  lemma RepliesFrom(e: Arq, isn: int, emitted: seq<bytes>, delivered: seq<bytes>, p: Packet, now: real)
    requires ReceiverOk(e.cfg.window, e.rcv, isn, emitted, delivered)
    requires p.ptype == DATA && DataOk(p, isn, emitted)
    ensures AcksFrom(OnPacket(Unbounded, e, p, now).output.packets, e.rcv.base)
  {
    AcceptKeeps(e.cfg.window, e.rcv, isn, emitted, delivered, p);
  }

  lemma {:induction false} AnswersFrom(s: Sys, isnA: int, isnB: int, packets: seq<Packet>, low: int, now: real)
    requires Inv(s, isnA, isnB) && s.clock <= now && low <= s.b.ep.rcv.base
    requires AllSent(packets, s.a.sent) && forall i :: 0 <= i < |packets| ==> packets[i].ptype == DATA
    ensures AcksFrom(Answers(Unbounded, s, packets, now), low)
    decreases |packets|
  {
    if packets != [] {
      var p := packets[0];
      var s' := StepSys(Unbounded, s, Label(B, Receive(p), now));
      assert p in s.a.sent && DataOk(p, isnA, s.a.emitted);
      RepliesFrom(s.b.ep, isnA, s.a.emitted, s.b.delivered, p, now);
      StepKeepsInv(s, isnA, isnB, Label(B, Receive(p), now));
      LogsGrow(s, [Label(B, Receive(p), now)]);
      AnswersFrom(s', isnA, isnB, packets[1..], low, now);
    }
  }

  /** Two windows fit into half the sequence space. */
  predicate NarrowWindow(e: Arq)
  {
    2 * e.cfg.window < SEQ_HALF
  }

  lemma RoundParts(m: Arith, s: Sys, now: real)
    ensures var resent := OnTick(s.a.ep, now).output.packets; var s1 := StepSys(m, s, Label(A, Tick, now));
      Round(m, s, now) == [Label(A, Tick, now)] + (Arrivals(B, resent, now) + Arrivals(A, Answers(m, s1, resent, now), now))
  {
  }

  lemma LegsDeliver(resent: seq<Packet>, back: seq<Packet>, low: int, session: int, now: real, j: nat)
    requires InSequence(resent, low, session) && AcksFrom(back, low)
    requires j < |Arrivals(B, resent, now) + Arrivals(A, back, now)|
    ensures var l := (Arrivals(B, resent, now) + Arrivals(A, back, now))[j];
      && l.input.Receive?
      && (if l.side.B? then l.input.p.ptype == DATA && l.input.p.seqno >= low
          else l.input.p.ptype != DATA && l.input.p.ackno >= low)
  {
    if j < |resent| {
      assert resent[j].ptype == DATA;
    } else {
      assert back[j - |resent|].ptype != DATA;
    }
  }

  /** Every packet a round delivers is one of the sender's window or answers one of those. */
  lemma RoundDelivers(s: Sys, isnA: int, isnB: int, now: real, j: nat)
    requires Inv(s, isnA, isnB) && s.clock <= now && OneSession(s) && DueWithBudget(s.a.ep, now)
    requires j < |Round(Unbounded, s, now)| && Round(Unbounded, s, now)[j].input.Receive?
    ensures var l := Round(Unbounded, s, now)[j]; var p := l.input.p;
      if l.side.B? then p.ptype == DATA && p.seqno >= Una(s.a.ep.snd) else p.ptype != DATA && p.ackno >= Una(s.a.ep.snd)
  {
    var s1 := StepSys(Unbounded, s, Label(A, Tick, now));
    var resent := OnTick(s.a.ep, now).output.packets;
    TickOpensRound(s, isnA, isnB, now);
    AnswersFrom(s1, isnA, isnB, resent, Una(s.a.ep.snd), now);
    RoundParts(Unbounded, s, now);
    if j > 0 {
      LegsDeliver(resent, Answers(Unbounded, s1, resent, now), Una(s.a.ep.snd), s.b.ep.session, now, j - 1);
    }
  }

  lemma RoundIsNeverStale(s: Sys, isnA: int, isnB: int, now: real)
    requires Inv(s, isnA, isnB) && s.clock <= now && OneSession(s) && DueWithBudget(s.a.ep, now) && NarrowWindow(s.a.ep)
    ensures NeverStale(s, Round(Unbounded, s, now))
  {
    var run := Round(Unbounded, s, now);
    var t := Run(Unbounded, s, run);
    RoundAcksWindow(s, isnA, isnB, now);
    assert t.a.ep.snd.next <= Una(s.a.ep.snd) + 2 * s.a.ep.cfg.window;
    forall j | 0 <= j < |run| ensures StepNotStale(t, run[j]) {
      if run[j].input.Receive? {
        RoundDelivers(s, isnA, isnB, now, j);
      }
    }
    JudgedAtTheEnd(s, isnA, isnB, run);
  }

  // ---- over 32-bit serials ---------------------------------------------------------------------

  lemma ArrivalsWire(side: Side, packets: seq<Packet>, now: real)
    ensures WireRun(Arrivals(side, packets, now)) == Arrivals(side, WirePackets(packets), now)
  {
  }

  lemma {:induction false} NeverStaleAppend(s: Sys, r1: seq<Label>, r2: seq<Label>)
    requires NeverStale(s, r1 + r2)
    ensures NeverStale(s, r1) && NeverStale(Run(Unbounded, s, r1), r2)
    decreases |r1|
  {
    if r1 == [] {
      assert r1 + r2 == r2;
    } else {
      assert (r1 + r2)[1..] == r1[1..] + r2;
      NeverStaleAppend(StepSys(Unbounded, s, r1[0]), r1[1..], r2);
    }
  }

  lemma AnswerWires(c: Sys, i: Sys, isnA: int, isnB: int, p: Packet, now: real)
    requires RefinesSys(c, i) && Inv(i, isnA, isnB) && Enabled(i, Label(B, Receive(p), now))
    requires NotStale(i.b.ep, p) && i.a.ep.cfg.window < SEQ_HALF && i.b.ep.cfg.window < SEQ_HALF
    ensures OnPacket(Serial32, c.b.ep, WirePacket(p), now).output.packets == WirePackets(OnPacket(Unbounded, i.b.ep, p, now).output.packets)
  {
    NeverFarAhead(i, isnA, isnB, Label(B, Receive(p), now));
    FlowIsTidy(i.b, i.a, isnB, isnA, i.clock);
    ReactionWires(c.b.ep, i.b.ep, Receive(p), now);
  }

  /** One arrival at B on the way: what it is answered with, and what is left to arrive. */
  lemma ArrivalWires(c: Sys, i: Sys, isnA: int, isnB: int, p: Packet, rest: seq<Packet>, now: real)
    requires RefinesSys(c, i) && Inv(i, isnA, isnB)
    requires i.a.ep.cfg.window < SEQ_HALF && i.b.ep.cfg.window < SEQ_HALF
    requires Legal(Unbounded, i, Arrivals(B, [p] + rest, now)) && NeverStale(i, Arrivals(B, [p] + rest, now))
    ensures OnPacket(Serial32, c.b.ep, WirePacket(p), now).output.packets == WirePackets(OnPacket(Unbounded, i.b.ep, p, now).output.packets)
    ensures var l := Label(B, Receive(p), now); var i' := StepSys(Unbounded, i, l);
      && RefinesSys(StepSys(Serial32, c, WireLabel(l)), i') && Inv(i', isnA, isnB)
      && i'.a.ep.cfg == i.a.ep.cfg && i'.b.ep.cfg == i.b.ep.cfg
      && Legal(Unbounded, i', Arrivals(B, rest, now)) && NeverStale(i', Arrivals(B, rest, now))
  {
    var l := Label(B, Receive(p), now);
    ArrivalsCons(B, [p] + rest, now);
    assert ([p] + rest)[1..] == rest;
    AnswerWires(c, i, isnA, isnB, p, now);
    StepWires(c, i, isnA, isnB, l);
    StepKeepsInv(i, isnA, isnB, l);
  }

  lemma AnswersCons(m: Arith, s: Sys, p: Packet, rest: seq<Packet>, now: real)
    ensures Answers(m, s, [p] + rest, now)
      == OnPacket(m, s.b.ep, p, now).output.packets + Answers(m, StepSys(m, s, Label(B, Receive(p), now)), rest, now)
  {
    assert ([p] + rest)[1..] == rest;
  }

  lemma WirePacketsJoin(a: seq<Packet>, b: seq<Packet>)
    ensures WirePackets(a + b) == WirePackets(a) + WirePackets(b)
  {
  }

  lemma {:induction false} AnswersWire(c: Sys, i: Sys, isnA: int, isnB: int, packets: seq<Packet>, now: real)
    requires RefinesSys(c, i) && Inv(i, isnA, isnB)
    requires i.a.ep.cfg.window < SEQ_HALF && i.b.ep.cfg.window < SEQ_HALF
    requires Legal(Unbounded, i, Arrivals(B, packets, now)) && NeverStale(i, Arrivals(B, packets, now))
    ensures Answers(Serial32, c, WirePackets(packets), now) == WirePackets(Answers(Unbounded, i, packets, now))
    decreases |packets|
  {
    if packets != [] {
      var (p, rest) := (packets[0], packets[1..]);
      var c' := StepSys(Serial32, c, WireLabel(Label(B, Receive(p), now)));
      var i' := StepSys(Unbounded, i, Label(B, Receive(p), now));
      assert packets == [p] + rest;
      ArrivalWires(c, i, isnA, isnB, p, rest, now);
      AnswersWire(c', i', isnA, isnB, rest, now);
      WirePacketsCons(p, rest);
      AnswersCons(Unbounded, i, p, rest, now);
      AnswersCons(Serial32, c, WirePacket(p), WirePackets(rest), now);
      WirePacketsJoin(OnPacket(Unbounded, i.b.ep, p, now).output.packets, Answers(Unbounded, i', rest, now));
    } else {
      assert WirePackets([]) == [];
    }
  }

  /** A round opens alike on both sides, and what it opens with is fit to be delivered. */
  lemma OpeningWires(c: Sys, i: Sys, isnA: int, isnB: int, now: real, resent: seq<Packet>)
    requires RefinesSys(c, i) && Inv(i, isnA, isnB) && i.clock <= now && OneSession(i) && DueWithBudget(i.a.ep, now)
    requires NarrowWindow(i.a.ep) && i.b.ep.cfg.window < SEQ_HALF && resent == OnTick(i.a.ep, now).output.packets
    ensures OnTick(c.a.ep, now).output.packets == WirePackets(resent)
    ensures var i1 := StepSys(Unbounded, i, Label(A, Tick, now));
      && RefinesSys(StepSys(Serial32, c, Label(A, Tick, now)), i1) && Inv(i1, isnA, isnB)
      && i1.a.ep.cfg == i.a.ep.cfg && i1.b.ep.cfg == i.b.ep.cfg
      && Legal(Unbounded, i1, Arrivals(B, resent, now))
  {
    StepWires(c, i, isnA, isnB, Label(A, Tick, now));
    TickWires(c.a.ep, i.a.ep, now);
    TickOpensRound(i, isnA, isnB, now);
    DataArrives(StepSys(Unbounded, i, Label(A, Tick, now)), isnA, isnB, resent, Una(i.a.ep.snd), now);
  }

  lemma FirstLegNotStale(i: Sys, isnA: int, isnB: int, now: real, resent: seq<Packet>)
    requires Inv(i, isnA, isnB) && i.clock <= now && OneSession(i) && DueWithBudget(i.a.ep, now) && NarrowWindow(i.a.ep)
    requires resent == OnTick(i.a.ep, now).output.packets
    ensures NeverStale(StepSys(Unbounded, i, Label(A, Tick, now)), Arrivals(B, resent, now))
  {
    var i1 := StepSys(Unbounded, i, Label(A, Tick, now));
    var legs := Arrivals(B, resent, now) + Arrivals(A, Answers(Unbounded, i1, resent, now), now);
    RoundIsNeverStale(i, isnA, isnB, now);
    RoundParts(Unbounded, i, now);
    assert Round(Unbounded, i, now)[1..] == legs;
    NeverStaleAppend(i1, Arrivals(B, resent, now), Arrivals(A, Answers(Unbounded, i1, resent, now), now));
  }

  /** A round of the 32-bit pair is the image of a round over positions. */
  lemma RoundIsImage(c: Sys, i: Sys, isnA: int, isnB: int, now: real)
    requires RefinesSys(c, i) && Inv(i, isnA, isnB) && i.clock <= now && OneSession(i) && DueWithBudget(i.a.ep, now)
    requires NarrowWindow(i.a.ep) && i.b.ep.cfg.window < SEQ_HALF
    ensures Round(Serial32, c, now) == WireRun(Round(Unbounded, i, now))
  {
    var tick := Label(A, Tick, now);
    var (c1, i1) := (StepSys(Serial32, c, tick), StepSys(Unbounded, i, tick));
    var resent := OnTick(i.a.ep, now).output.packets;
    var back := Answers(Unbounded, i1, resent, now);
    OpeningWires(c, i, isnA, isnB, now, resent);
    FirstLegNotStale(i, isnA, isnB, now, resent);
    AnswersWire(c1, i1, isnA, isnB, resent, now);
    RoundParts(Serial32, c, now);
    RoundParts(Unbounded, i, now);
    ArrivalsWire(B, resent, now);
    ArrivalsWire(A, back, now);
    WireOfParts(tick, Arrivals(B, resent, now), Arrivals(A, back, now));
  }

  lemma WireOfParts(l: Label, r1: seq<Label>, r2: seq<Label>)
    ensures WireRun([l] + (r1 + r2)) == [WireLabel(l)] + (WireRun(r1) + WireRun(r2))
  {
  }

  lemma RoundWires(c: Sys, i: Sys, isnA: int, isnB: int, now: real)
    requires RefinesSys(c, i) && Inv(i, isnA, isnB) && i.clock <= now && OneSession(i) && DueWithBudget(i.a.ep, now)
    requires NarrowWindow(i.a.ep) && i.b.ep.cfg.window < SEQ_HALF
    ensures Legal(Serial32, c, Round(Serial32, c, now))
    ensures RefinesSys(Run(Serial32, c, Round(Serial32, c, now)), Run(Unbounded, i, Round(Unbounded, i, now)))
  {
    RoundAcksWindow(i, isnA, isnB, now);
    RoundIsNeverStale(i, isnA, isnB, now);
    RoundIsImage(c, i, isnA, isnB, now);
    RunWires(c, i, isnA, isnB, Round(Unbounded, i, now));
  }

  lemma {:induction false} RunKeepsConfig(m: Arith, s: Sys, run: seq<Label>)
    ensures Run(m, s, run).a.ep.cfg == s.a.ep.cfg && Run(m, s, run).b.ep.cfg == s.b.ep.cfg
    decreases |run|
  {
    if run != [] {
      HalvesAreIndependent(m, if run[0].side.A? then s.a.ep else s.b.ep, run[0].input, run[0].now);
      RunKeepsConfig(m, StepSys(m, s, run[0]), run[1..]);
    }
  }

  /** A state from which the rounds at `times` may start. */
  ghost predicate Ready(s: Sys, isnA: int, isnB: int, times: seq<real>)
  {
    && Inv(s, isnA, isnB) && OneSession(s) && RtoOk(s.a.ep.snd.rto) && RoundsSuffice(s, times)
    && NarrowWindow(s.a.ep) && s.b.ep.cfg.window < SEQ_HALF
  }

  lemma ReadyAgain(s: Sys, isnA: int, isnB: int, times: seq<real>)
    requires Ready(s, isnA, isnB, times) && times != []
    ensures Ready(Run(Unbounded, s, Round(Unbounded, s, times[0])), isnA, isnB, times[1..])
  {
    var t := Run(Unbounded, s, Round(Unbounded, s, times[0]));
    RoundAcksWindow(s, isnA, isnB, times[0]);
    RunKeepsConfig(Unbounded, s, Round(Unbounded, s, times[0]));
    if |times| > 1 {
      DueAgain(t, isnA, isnB, s.a.ep.snd.next, times[0], times[1]);
    }
  }

  lemma {:induction false} RoundsWire(c: Sys, i: Sys, isnA: int, isnB: int, times: seq<real>)
    requires RefinesSys(c, i) && Ready(i, isnA, isnB, times)
    ensures RefinesSys(Rounds(Serial32, c, times), Rounds(Unbounded, i, times))
    decreases |times|
  {
    if times != [] {
      RoundWires(c, i, isnA, isnB, times[0]);
      ReadyAgain(i, isnA, isnB, times);
      RoundsWire(Run(Serial32, c, Round(Serial32, c, times[0])), Run(Unbounded, i, Round(Unbounded, i, times[0])),
                 isnA, isnB, times[1..]);
    }
  }

  lemma SameDue(c: Sys, i: Sys, now: real)
    requires RefinesSys(c, i)
    ensures DueWithBudget(c.a.ep, now) <==> DueWithBudget(i.a.ep, now)
    ensures Left(c.a.ep.snd) == Left(i.a.ep.snd)
  {
    assert forall j :: 0 <= j < |i.a.ep.snd.out| ==> c.a.ep.snd.out[j] == WireEntry(i.a.ep.snd.out[j]);
  }

  /** The unbounded pair behind a 32-bit one, with what rounds ask of it. */
  lemma Behind(session: int, cfgA: Config, cfgB: Config, isnA: int, isnB: int,
               rtoA: Estimate, rtoB: Estimate, run: seq<Label>) returns (i: Sys)
    requires Sane(rtoA) && Sane(rtoB) && IsSerial(isnA) && IsSerial(isnB)
    requires 2 * cfgA.window < SEQ_HALF && cfgB.window < SEQ_HALF
    requires Legal(Serial32, Start(session, cfgA, cfgB, isnA, isnB, rtoA, rtoB), run)
    requires HasFreshOrigins(Start(session, cfgA, cfgB, isnA, isnB, rtoA, rtoB), run)
    ensures RefinesSys(Run(Serial32, Start(session, cfgA, cfgB, isnA, isnB, rtoA, rtoB), run), i)
    ensures Inv(i, isnA, isnB) && OneSession(i) && RtoOk(i.a.ep.snd.rto)
    ensures NarrowWindow(i.a.ep) && i.b.ep.cfg.window < SEQ_HALF
  {
    var s0 := Start(session, cfgA, cfgB, isnA, isnB, rtoA, rtoB);
    StartIsReady(session, cfgA, cfgB, isnA, isnB, rtoA, rtoB);
    var lift := LiftRun(s0, s0, isnA, isnB, run);
    ReachableIsReady(session, cfgA, cfgB, isnA, isnB, rtoA, rtoB, lift);
    RunKeepsConfig(Unbounded, s0, lift);
    i := Run(Unbounded, s0, lift);
  }

  /** After any run of the 32-bit endpoints, however many wraps long: a round that loses nothing is a legal
      run, and leaves strictly less while anything is left. */
  lemma EveryWireRoundShrinksTheWork(session: int, cfgA: Config, cfgB: Config, isnA: int, isnB: int,
                                     rtoA: Estimate, rtoB: Estimate, run: seq<Label>, now: real)
    requires Sane(rtoA) && Sane(rtoB) && IsSerial(isnA) && IsSerial(isnB)
    requires 2 * cfgA.window < SEQ_HALF && cfgB.window < SEQ_HALF
    requires Legal(Serial32, Start(session, cfgA, cfgB, isnA, isnB, rtoA, rtoB), run)
    requires HasFreshOrigins(Start(session, cfgA, cfgB, isnA, isnB, rtoA, rtoB), run)
    requires var c := Run(Serial32, Start(session, cfgA, cfgB, isnA, isnB, rtoA, rtoB), run);
      c.clock <= now && DueWithBudget(c.a.ep, now)
    ensures var c := Run(Serial32, Start(session, cfgA, cfgB, isnA, isnB, rtoA, rtoB), run);
      var t := Run(Serial32, c, Round(Serial32, c, now));
      && Legal(Serial32, c, Round(Serial32, c, now))
      && (Left(c.a.ep.snd) > 0 ==> Left(t.a.ep.snd) < Left(c.a.ep.snd))
  {
    var c := Run(Serial32, Start(session, cfgA, cfgB, isnA, isnB, rtoA, rtoB), run);
    var i := Behind(session, cfgA, cfgB, isnA, isnB, rtoA, rtoB, run);
    SameDue(c, i, now);
    RoundAcksWindow(i, isnA, isnB, now);
    RoundWires(c, i, isnA, isnB, now);
    SameDue(Run(Serial32, c, Round(Serial32, c, now)), Run(Unbounded, i, Round(Unbounded, i, now)), now);
  }

  /** After any run of the 32-bit endpoints, as many rounds as there are chunks left finish the transfer. */
  lemma EveryWireTransferFinishes(session: int, cfgA: Config, cfgB: Config, isnA: int, isnB: int,
                                  rtoA: Estimate, rtoB: Estimate, run: seq<Label>, times: seq<real>)
    requires Sane(rtoA) && Sane(rtoB) && IsSerial(isnA) && IsSerial(isnB)
    requires 2 * cfgA.window < SEQ_HALF && cfgB.window < SEQ_HALF
    requires Legal(Serial32, Start(session, cfgA, cfgB, isnA, isnB, rtoA, rtoB), run)
    requires HasFreshOrigins(Start(session, cfgA, cfgB, isnA, isnB, rtoA, rtoB), run)
    requires RoundsSuffice(Run(Serial32, Start(session, cfgA, cfgB, isnA, isnB, rtoA, rtoB), run), times)
    ensures var c := Run(Serial32, Start(session, cfgA, cfgB, isnA, isnB, rtoA, rtoB), run);
      Finished(Rounds(Serial32, c, times), c.a.submitted)
  {
    var c := Run(Serial32, Start(session, cfgA, cfgB, isnA, isnB, rtoA, rtoB), run);
    var i := Behind(session, cfgA, cfgB, isnA, isnB, rtoA, rtoB, run);
    if times != [] {
      SameDue(c, i, times[0]);
    }
    RoundsWire(c, i, isnA, isnB, times);
    TransferFinishes(i, isnA, isnB, times);
  }
}
