/** Liveness of the ARQ over a network that, for one round, loses nothing: the sender's timers fire,
    everything it resends arrives in order, and every reply comes back. */
module ArqProgress {
  import opened Prelude
  import opened Packets
  import opened Rto
  import opened ArqModel
  import opened ArqSafety
  import opened ArqSystem
  import opened ArqTheorems
  import opened ArqStored

  /** Deliver `packets` to one side, one after another. */
  function Arrivals(side: Side, packets: seq<Packet>, now: real): (r: seq<Label>)
    ensures |r| == |packets|
  {
    seq(|packets|, i requires 0 <= i < |packets| => Label(side, Receive(packets[i]), now))
  }

  /** Everything side B sends in answer to `packets`. */
  function Answers(m: Arith, s: Sys, packets: seq<Packet>, now: real): seq<Packet>
    decreases |packets|
  {
    if packets == [] then []
    else OnPacket(m, s.b.ep, packets[0], now).output.packets
         + Answers(m, StepSys(m, s, Label(B, Receive(packets[0]), now)), packets[1..], now)
  }

  /** One lossless tick round for the stream from A to B, as steps of the system. */
  function Round(m: Arith, s: Sys, now: real): seq<Label>
  {
    var resent := OnTick(s.a.ep, now).output.packets;
    var s1 := StepSys(m, s, Label(A, Tick, now));
    [Label(A, Tick, now)] + Arrivals(B, resent, now) + Arrivals(A, Answers(m, s1, resent, now), now)
  }

  lemma ArrivalsCons(side: Side, packets: seq<Packet>, now: real)
    requires packets != []
    ensures Arrivals(side, packets, now)[0] == Label(side, Receive(packets[0]), now)
    ensures Arrivals(side, packets, now)[1..] == Arrivals(side, packets[1..], now)
  {
  }

  // ---- the session both ends share -------------------------------------------------------------

  /** Both ends hold the same session id and everything either has in flight carries it. */
  ghost predicate OneSession(s: Sys)
  {
    && s.a.ep.session == s.b.ep.session
    && AllStored(s.a.ep.snd.out, UnderSession(s.a.ep.session)) && AllStored(s.b.ep.snd.out, UnderSession(s.b.ep.session))
  }

  lemma StepKeepsOneSession(m: Arith, s: Sys, l: Label)
    requires OneSession(s)
    ensures OneSession(StepSys(m, s, l))
  {
    var e := if l.side.A? then s.a.ep else s.b.ep;
    ReactSpeaks(m, e, l.input, l.now);
    HalvesAreIndependent(m, e, l.input, l.now);
  }

  /** Every state reached from one in which both ends speak under one session id is such a state: no
      input makes an endpoint change its id or keep a packet under another. */
  lemma {:induction false} RunKeepsOneSession(m: Arith, s: Sys, run: seq<Label>)
    requires OneSession(s)
    ensures OneSession(Run(m, s, run))
    decreases |run|
  {
    if run != [] {
      StepKeepsOneSession(m, s, run[0]);
      RunKeepsOneSession(m, StepSys(m, s, run[0]), run[1..]);
    }
  }

  // ---- towards the receiver --------------------------------------------------------------------

  /** Data of session `session` at positions k, k+1, ... */
  predicate InSequence(packets: seq<Packet>, k: int, session: int)
  {
    forall i :: 0 <= i < |packets| ==>
      packets[i].ptype == DATA && packets[i].seqno == k + i && packets[i].session == session
  }

  /** Replies whose NACKs all name positions below `limit`. */
  predicate RepliesBelow(packets: seq<Packet>, limit: int, session: int)
  {
    forall i :: 0 <= i < |packets| ==>
      && (packets[i].ptype == ACK || packets[i].ptype == NACK) && packets[i].session == session
      && (packets[i].ptype == NACK ==> packets[i].ackno < limit)
  }

  predicate Acknowledges(packets: seq<Packet>, position: int)
  {
    exists i :: 0 <= i < |packets| && packets[i].ptype == ACK && packets[i].ackno >= position
  }

  /** The answer to data no later than expected: an acknowledgement past it, first; and, if a hole is
      asked for, it is one the sender has already emitted. */
  lemma AnswerToData(e: Arq, isn: int, emitted: seq<bytes>, delivered: seq<bytes>, p: Packet, now: real)
    requires ReceiverOk(e.cfg.window, e.rcv, isn, emitted, delivered)
    requires p.ptype == DATA && DataOk(p, isn, emitted) && p.session == e.session && p.seqno <= e.rcv.base
    ensures var r := OnPacket(Unbounded, e, p, now); var replies := r.output.packets;
      && r.ep.session == e.session && e.rcv.base <= r.ep.rcv.base && p.seqno < r.ep.rcv.base
      && RepliesBelow(replies, isn + |emitted|, e.session)
      && replies != [] && replies[0].ptype == ACK && replies[0].ackno == r.ep.rcv.base
  {
    AcceptKeeps(e.cfg.window, e.rcv, isn, emitted, delivered, p);
    var a := Accept(Unbounded, e.cfg.window, e.rcv, p);
    if AsksForHole(a.rcv) {
      var k := AnyKey(a.rcv.reorder);
      assert a.rcv.base < k < isn + |emitted|;
    }
  }

  /** Where a peer stands after one more input, as far as a round is concerned. */
  predicate Advanced(s: Sys, t: Sys, isnA: int, isnB: int, now: real)
  {
    && Inv(t, isnA, isnB) && t.a == s.a && t.clock <= now && t.b.ep.session == s.b.ep.session
    && s.b.ep.rcv.base <= t.b.ep.rcv.base && s.b.sent <= t.b.sent
  }

  lemma OneArrival(s: Sys, isnA: int, isnB: int, p: Packet, now: real)
    requires Inv(s, isnA, isnB) && s.clock <= now && p in s.a.sent && p.ptype == DATA && p.session == s.b.ep.session
    requires p.seqno <= s.b.ep.rcv.base
    ensures Advanced(s, StepSys(Unbounded, s, Label(B, Receive(p), now)), isnA, isnB, now)
    ensures p.seqno < StepSys(Unbounded, s, Label(B, Receive(p), now)).b.ep.rcv.base
  {
    StepKeepsInv(s, isnA, isnB, Label(B, Receive(p), now));
    assert DataOk(p, isnA, s.a.emitted);
    AnswerToData(s.b.ep, isnA, s.a.emitted, s.b.delivered, p, now);
  }

  predicate AllSent(packets: seq<Packet>, sent: set<Packet>)
  {
    forall i :: 0 <= i < |packets| ==> packets[i] in sent
  }

  lemma {:induction false} DataArrives(s: Sys, isnA: int, isnB: int, packets: seq<Packet>, k: int, now: real)
    requires Inv(s, isnA, isnB) && s.clock <= now
    requires InSequence(packets, k, s.b.ep.session) && k <= s.b.ep.rcv.base
    requires AllSent(packets, s.a.sent)
    ensures Legal(Unbounded, s, Arrivals(B, packets, now))
    ensures Advanced(s, Run(Unbounded, s, Arrivals(B, packets, now)), isnA, isnB, now)
    ensures k + |packets| <= Run(Unbounded, s, Arrivals(B, packets, now)).b.ep.rcv.base
    decreases |packets|
  {
    if packets != [] {
      var p := packets[0];
      assert p in s.a.sent && p.ptype == DATA && p.session == s.b.ep.session && p.seqno == k;
      var s' := StepSys(Unbounded, s, Label(B, Receive(p), now));
      OneArrival(s, isnA, isnB, p, now);
      ArrivalsCons(B, packets, now);
      DataArrives(s', isnA, isnB, packets[1..], k + 1, now);
    }
  }

  lemma {:induction false} DataIsAnswered(s: Sys, isnA: int, isnB: int, packets: seq<Packet>, k: int, now: real)
    requires Inv(s, isnA, isnB) && s.clock <= now
    requires InSequence(packets, k, s.b.ep.session) && k <= s.b.ep.rcv.base
    requires AllSent(packets, s.a.sent)
    ensures RepliesBelow(Answers(Unbounded, s, packets, now), s.a.ep.snd.next, s.b.ep.session)
    ensures packets != [] ==> Acknowledges(Answers(Unbounded, s, packets, now), k + |packets|)
    ensures AllSent(Answers(Unbounded, s, packets, now), Run(Unbounded, s, Arrivals(B, packets, now)).b.sent)
    decreases |packets|
  {
    if packets != [] {
      var p := packets[0];
      assert p in s.a.sent && p.ptype == DATA && p.session == s.b.ep.session && p.seqno == k;
      var s' := StepSys(Unbounded, s, Label(B, Receive(p), now));
      OneArrival(s, isnA, isnB, p, now);
      assert DataOk(p, isnA, s.a.emitted);
      AnswerToData(s.b.ep, isnA, s.a.emitted, s.b.delivered, p, now);
      ArrivalsCons(B, packets, now);
      DataArrives(s', isnA, isnB, packets[1..], k + 1, now);
      DataIsAnswered(s', isnA, isnB, packets[1..], k + 1, now);
      var first := OnPacket(Unbounded, s.b.ep, p, now).output.packets;
      AcknowledgesInConcat(first, Answers(Unbounded, s', packets[1..], now), k + |packets|);
    }
  }

  lemma AcknowledgesInConcat(first: seq<Packet>, rest: seq<Packet>, position: int)
    requires Acknowledges(rest, position) || (first != [] && first[0].ptype == ACK && first[0].ackno >= position)
    ensures Acknowledges(first + rest, position)
  {
    if Acknowledges(rest, position) {
      var i :| 0 <= i < |rest| && rest[i].ptype == ACK && rest[i].ackno >= position;
      assert (first + rest)[|first| + i] == rest[i];
    } else {
      assert (first + rest)[0] == first[0];
    }
  }

  // ---- back to the sender ----------------------------------------------------------------------

  /** Entries from position `q` on have been sent exactly once, at `now`. */
  predicate NewFrom(out: seq<Outstanding>, q: int, now: real)
  {
    forall i :: 0 <= i < |out| && out[i].packet.seqno >= q ==> out[i].retx == 0 && out[i].sendTime == now
  }

  /** Work left for a sender: chunks in flight or queued. */
  function Left(s: Sender): nat
  {
    |s.out| + |s.pending|
  }

  /** What a reply may do to the sender: move its window forward, never lose or invent work. */
  predicate Progressed(e: Arq, f: Arq, q: int, now: real)
  {
    && f.cfg == e.cfg && f.session == e.session && f.rcv == e.rcv
    && Una(e.snd) <= Una(f.snd)
    && Una(f.snd) + Left(f.snd) == Una(e.snd) + Left(e.snd)
    && f.snd.failed == e.snd.failed
    && f.snd.rto.maxRto == e.snd.rto.maxRto
    && (RtoOk(e.snd.rto) ==> RtoOk(f.snd.rto))
    && (NewFrom(e.snd.out, q, now) ==> NewFrom(f.snd.out, q, now))
  }

  predicate RtoOk(e: Estimate)
  {
    ConfigOk(e) && e.rto <= e.maxRto
  }

  lemma {:induction false} SamplesKeepRtoOk(e: Estimate, rtts: seq<real>)
    requires RtoOk(e)
    ensures RtoOk(SampleAll(e, rtts)) && SampleAll(e, rtts).maxRto == e.maxRto
    decreases |rtts|
  {
    if rtts != [] {
      SamplesKeepRtoOk(Sample(e, rtts[0]), rtts[1..]);
    }
  }

  lemma {:induction false} SamplesKeepConfig(e: Estimate, rtts: seq<real>)
    ensures SampleAll(e, rtts).maxRto == e.maxRto
    decreases |rtts|
  {
    if rtts != [] {
      SamplesKeepConfig(Sample(e, rtts[0]), rtts[1..]);
    }
  }

  lemma AckProgresses(e: Arq, isn: int, emitted: seq<bytes>, p: Packet, q: int, now: real)
    requires SenderOk(e.cfg.window, e.snd, isn, emitted, now)
    requires isn <= p.ackno <= e.snd.next && p.window >= 1
    ensures Progressed(e, OnAck(Unbounded, e, p, now).ep, q, now)
    ensures p.ackno <= Una(OnAck(Unbounded, e, p, now).ep.snd)
  {
    var t := Trimmed(e.snd, p, now);
    var n := Least(Room(e.cfg.window, t), |e.snd.pending|);
    var k := Covered(Una(e.snd), |e.snd.out|, p.ackno);
    TrimIsPrefix(e, isn, emitted, p, now);
    TrimKeeps(e, isn, emitted, p, now);
    KeysAreBelow(e.cfg.window, t, isn, emitted, now);
    FlushFillsWindow(e, t, now);
    SamplesKeepConfig(e.snd.rto, Samples(e.snd.out[..k], now));
    if RtoOk(e.snd.rto) {
      SamplesKeepRtoOk(e.snd.rto, Samples(e.snd.out[..k], now));
    }
    assert Flush(Unbounded, e, t, now).snd.out == e.snd.out[k..] + NewEntries(e, t.next, t.pending[..n], now);
  }

  lemma NackProgresses(e: Arq, isn: int, emitted: seq<bytes>, p: Packet, q: int, now: real)
    requires SenderOk(e.cfg.window, e.snd, isn, emitted, now)
    requires p.ackno < q
    ensures Progressed(e, OnNack(e, p, now).ep, q, now)
  {
  }

  lemma ReplyProgresses(e: Arq, isn: int, emitted: seq<bytes>, base: int, p: Packet, q: int, now: real)
    requires SenderOk(e.cfg.window, e.snd, isn, emitted, now)
    requires AckOk(p, isn, base) && base <= e.snd.next && p.session == e.session
    requires p.ptype == ACK || (p.ptype == NACK && p.ackno < q)
    ensures Progressed(e, OnPacket(Unbounded, e, p, now).ep, q, now)
    ensures p.ptype == ACK ==> p.ackno <= Una(OnPacket(Unbounded, e, p, now).ep.snd)
  {
    if p.ptype == ACK {
      AckProgresses(e, isn, emitted, p, q, now);
    } else {
      NackProgresses(e, isn, emitted, p, q, now);
    }
  }

  /** Where the sender stands after replies, as far as a round is concerned. */
  predicate Answered(s: Sys, t: Sys, isnA: int, isnB: int, q: int, now: real)
  {
    && Inv(t, isnA, isnB) && t.b == s.b && t.clock <= now
    && Progressed(s.a.ep, t.a.ep, q, now) && t.a.submitted == s.a.submitted
  }

  lemma OneReply(s: Sys, isnA: int, isnB: int, p: Packet, q: int, now: real)
    requires Inv(s, isnA, isnB) && s.clock <= now && p in s.b.sent && p.session == s.a.ep.session
    requires p.ptype == ACK || (p.ptype == NACK && p.ackno < q)
    ensures var t := StepSys(Unbounded, s, Label(A, Receive(p), now));
      Answered(s, t, isnA, isnB, q, now) && (p.ptype == ACK ==> p.ackno <= Una(t.a.ep.snd))
  {
    StepKeepsInv(s, isnA, isnB, Label(A, Receive(p), now));
    LogsGrowOnlyWithData(Unbounded, s.a, Receive(p), now);
    assert AckOk(p, isnA, s.b.ep.rcv.base);
    ReplyProgresses(s.a.ep, isnA, s.a.emitted, s.b.ep.rcv.base, p, q, now);
  }

  lemma {:induction false} RepliesArrive(s: Sys, isnA: int, isnB: int, replies: seq<Packet>, q: int, now: real)
    requires Inv(s, isnA, isnB) && s.clock <= now
    requires RepliesBelow(replies, q, s.a.ep.session) && AllSent(replies, s.b.sent)
    ensures Legal(Unbounded, s, Arrivals(A, replies, now))
    ensures Answered(s, Run(Unbounded, s, Arrivals(A, replies, now)), isnA, isnB, q, now)
    decreases |replies|
  {
    if replies != [] {
      var p := replies[0];
      assert p in s.b.sent && p.session == s.a.ep.session;
      OneReply(s, isnA, isnB, p, q, now);
      ArrivalsCons(A, replies, now);
      RepliesArrive(StepSys(Unbounded, s, Label(A, Receive(p), now)), isnA, isnB, replies[1..], q, now);
    }
  }

  lemma {:induction false} RepliesCount(s: Sys, isnA: int, isnB: int, replies: seq<Packet>, i: nat, q: int, now: real)
    requires Inv(s, isnA, isnB) && s.clock <= now
    requires RepliesBelow(replies, q, s.a.ep.session) && AllSent(replies, s.b.sent)
    requires i < |replies| && replies[i].ptype == ACK
    ensures replies[i].ackno <= Una(Run(Unbounded, s, Arrivals(A, replies, now)).a.ep.snd)
    decreases |replies|
  {
    var p := replies[0];
    var s' := StepSys(Unbounded, s, Label(A, Receive(p), now));
    assert p in s.b.sent && p.session == s.a.ep.session;
    OneReply(s, isnA, isnB, p, q, now);
    ArrivalsCons(A, replies, now);
    if i == 0 {
      RepliesArrive(s', isnA, isnB, replies[1..], q, now);
    } else {
      RepliesCount(s', isnA, isnB, replies[1..], i - 1, q, now);
    }
  }

  // ---- a whole round -------------------------------------------------------------------------

  /** Every timer has run out and no packet has used up its retransmissions. */
  predicate DueWithBudget(e: Arq, now: real)
  {
    !e.snd.failed &&
    forall i :: 0 <= i < |e.snd.out| ==> Expired(e.snd.out[i], now, e.snd.rto.rto) && e.snd.out[i].retx < e.cfg.maxRetx
  }

  lemma {:induction false} AllResent(out: seq<Outstanding>, now: real, rto: real, maxRetx: nat)
    requires forall i :: 0 <= i < |out| ==> Expired(out[i], now, rto) && out[i].retx < maxRetx
    ensures var t := TickScan(out, now, rto, maxRetx); t.packets == PacketsOf(out) && !t.exhausted && |t.out| == |out|
  {
    if out != [] {
      AllResent(out[1..], now, rto, maxRetx);
      assert PacketsOf(out) == [out[0].packet] + PacketsOf(out[1..]);
    }
  }

  /** What the tick that opens a round does: everything in flight is sent again, in order. */
  lemma TickOpensRound(s: Sys, isnA: int, isnB: int, now: real)
    requires Inv(s, isnA, isnB) && s.clock <= now && OneSession(s) && DueWithBudget(s.a.ep, now)
    ensures var t := StepSys(Unbounded, s, Label(A, Tick, now)); var resent := OnTick(s.a.ep, now).output.packets;
      && Inv(t, isnA, isnB) && t.b == s.b && t.clock == now
      && resent == PacketsOf(s.a.ep.snd.out)
      && InSequence(resent, Una(s.a.ep.snd), s.b.ep.session) && AllSent(resent, t.a.sent)
  {
    var out := s.a.ep.snd.out;
    StepKeepsInv(s, isnA, isnB, Label(A, Tick, now));
    AllResent(out, now, s.a.ep.snd.rto.rto, s.a.ep.cfg.maxRetx);
    forall i | 0 <= i < |out|
      ensures out[i].packet.ptype == DATA && out[i].packet.seqno == Una(s.a.ep.snd) + i
    {
      assert EntryOk(out[i], isnA, s.a.emitted, |s.a.emitted| - |out| + i, s.clock);
    }
  }

  lemma TickProgresses(e: Arq, isn: int, emitted: seq<bytes>, clock: real, now: real)
    requires SenderOk(e.cfg.window, e.snd, isn, emitted, clock) && DueWithBudget(e, now)
    ensures var f := OnTick(e, now).ep;
      Progressed(e, f, e.snd.next, now) && f.snd.next == e.snd.next && |f.snd.out| == |e.snd.out|
      && NewFrom(f.snd.out, e.snd.next, now)
  {
    var rto := e.snd.rto.rto;
    AllResent(e.snd.out, now, rto, e.cfg.maxRetx);
    TickKeepsPackets(e.snd.out, now, rto, e.cfg.maxRetx);
    KeysAreBelow(e.cfg.window, e.snd, isn, emitted, clock);
  }

  /** The three stages of a round, as one run. */
  lemma RoundIsThreeStages(s: Sys, now: real)
    ensures var resent := OnTick(s.a.ep, now).output.packets;
      var s1 := StepSys(Unbounded, s, Label(A, Tick, now));
      var s2 := Run(Unbounded, s1, Arrivals(B, resent, now));
      var back := Arrivals(A, Answers(Unbounded, s1, resent, now), now);
      && Run(Unbounded, s, Round(Unbounded, s, now)) == Run(Unbounded, s2, back)
      && (s.clock <= now && Legal(Unbounded, s1, Arrivals(B, resent, now)) && Legal(Unbounded, s2, back)
          ==> Legal(Unbounded, s, Round(Unbounded, s, now)))
  {
    var resent := OnTick(s.a.ep, now).output.packets;
    var s1 := StepSys(Unbounded, s, Label(A, Tick, now));
    var there, back := Arrivals(B, resent, now), Arrivals(A, Answers(Unbounded, s1, resent, now), now);
    assert Round(Unbounded, s, now)[0] == Label(A, Tick, now) && Round(Unbounded, s, now)[1..] == there + back;
    RunFirst(Unbounded, s, Round(Unbounded, s, now));
    RunAppend(Unbounded, s1, there, back);
  }

  /** Three stages of a round put together: what the sender and its window look like at the end. */
  lemma StagesAddUp(e: Arq, e1: Arq, e3: Arq, now: real)
    requires Progressed(e, e1, e.snd.next, now) && Progressed(e1, e3, e.snd.next, now)
    requires e1.snd.next == e.snd.next && NewFrom(e1.snd.out, e.snd.next, now)
    requires e.snd.out != [] ==> e.snd.next <= Una(e3.snd)
    ensures Progressed(e, e3, e.snd.next, now) && NewFrom(e3.snd.out, e.snd.next, now)
    ensures Left(e3.snd) <= Left(e.snd) - |e.snd.out| && e.snd.next <= Una(e3.snd)
  {
  }

  /** One lossless tick round delivers and acknowledges everything that was in flight: the work left
      shrinks by the whole window, nothing fails, and whatever is now in flight has been sent exactly once. */
  lemma RoundAcksWindow(s: Sys, isnA: int, isnB: int, now: real)
    requires Inv(s, isnA, isnB) && s.clock <= now && OneSession(s) && DueWithBudget(s.a.ep, now)
    ensures Legal(Unbounded, s, Round(Unbounded, s, now))
    ensures var t := Run(Unbounded, s, Round(Unbounded, s, now));
      && Inv(t, isnA, isnB) && t.clock <= now && OneSession(t) && t.a.submitted == s.a.submitted
      && Progressed(s.a.ep, t.a.ep, s.a.ep.snd.next, now)
      && NewFrom(t.a.ep.snd.out, s.a.ep.snd.next, now)
      && s.a.ep.snd.next == t.b.ep.rcv.base && t.b.ep.rcv.base <= Una(t.a.ep.snd)
      && Left(t.a.ep.snd) <= Left(s.a.ep.snd) - |s.a.ep.snd.out|
  {
    var e := s.a.ep;
    var q := e.snd.next;
    var resent := OnTick(e, now).output.packets;
    var s1 := StepSys(Unbounded, s, Label(A, Tick, now));
    var replies := Answers(Unbounded, s1, resent, now);
    var s2 := Run(Unbounded, s1, Arrivals(B, resent, now));
    TickOpensRound(s, isnA, isnB, now);
    RunKeepsOneSession(Unbounded, s, Round(Unbounded, s, now));
    TickProgresses(e, isnA, s.a.emitted, s.clock, now);
    LogsGrowOnlyWithData(Unbounded, s.a, Tick, now);
    DataArrives(s1, isnA, isnB, resent, Una(e.snd), now);
    DataIsAnswered(s1, isnA, isnB, resent, Una(e.snd), now);
    RepliesArrive(s2, isnA, isnB, replies, q, now);
    RoundIsThreeStages(s, now);
    if resent != [] {
      var i :| 0 <= i < |replies| && replies[i].ptype == ACK && replies[i].ackno >= q;
      RepliesCount(s2, isnA, isnB, replies, i, q, now);
    }
    StagesAddUp(e, s1.a.ep, Run(Unbounded, s, Round(Unbounded, s, now)).a.ep, now);
  }

  // ---- a whole transfer ----------------------------------------------------------------------

  /** Round after round, at the given times. */
  function Rounds(m: Arith, s: Sys, times: seq<real>): Sys
    decreases |times|
  {
    if times == [] then s else Rounds(m, Run(m, s, Round(m, s, times[0])), times[1..])
  }

  /** Far enough apart for every timer to run out in between. */
  predicate Spaced(times: seq<real>, gap: real)
  {
    forall i :: 0 <= i < |times| - 1 ==> times[i] + gap <= times[i + 1]
  }

  /** A transfer of any size finishes: with one retransmission allowed, as many lossless rounds as there
      are chunks left acknowledge all of them, and the receiver has handed up everything submitted. */
  lemma {:induction false} TransferFinishes(s: Sys, isnA: int, isnB: int, times: seq<real>)
    requires Inv(s, isnA, isnB) && OneSession(s) && RtoOk(s.a.ep.snd.rto) && s.a.ep.cfg.maxRetx >= 1
    requires times != [] ==> s.clock <= times[0] && DueWithBudget(s.a.ep, times[0])
    requires !s.a.ep.snd.failed && Spaced(times, s.a.ep.snd.rto.maxRto)
    requires Left(s.a.ep.snd) <= |times|
    ensures var t := Rounds(Unbounded, s, times);
      && Inv(t, isnA, isnB) && !t.a.ep.snd.failed
      && t.a.ep.snd.out == [] && t.a.ep.snd.pending == []
      && t.b.delivered == t.a.emitted && multiset(t.b.delivered) == multiset(s.a.submitted)
    decreases |times|
  {
    if times == [] {
      EverythingAcked(s, isnA, isnB);
    } else {
      var t := Run(Unbounded, s, Round(Unbounded, s, times[0]));
      RoundAcksWindow(s, isnA, isnB, times[0]);
      if |times| > 1 {
        DueAgain(t, isnA, isnB, s.a.ep.snd.next, times[0], times[1]);
      }
      assert Left(t.a.ep.snd) <= |times| - 1;
      assert Spaced(times[1..], t.a.ep.snd.rto.maxRto);
      TransferFinishes(t, isnA, isnB, times[1..]);
    }
  }

  lemma EverythingAcked(s: Sys, isnA: int, isnB: int)
    requires Inv(s, isnA, isnB) && s.a.ep.snd.out == [] && s.a.ep.snd.pending == []
    ensures s.b.delivered == s.a.emitted && multiset(s.b.delivered) == multiset(s.a.submitted)
  {
    assert s.a.emitted[..|s.a.emitted|] == s.a.emitted;
  }

  /** After a round, one more maximal timeout makes the new window due, with its budget untouched. */
  lemma DueAgain(t: Sys, isnA: int, isnB: int, q: int, now: real, later: real)
    requires Inv(t, isnA, isnB) && NewFrom(t.a.ep.snd.out, q, now) && q <= Una(t.a.ep.snd)
    requires RtoOk(t.a.ep.snd.rto) && now + t.a.ep.snd.rto.maxRto <= later
    requires t.a.ep.cfg.maxRetx >= 1 && !t.a.ep.snd.failed
    ensures DueWithBudget(t.a.ep, later)
  {
    KeysAreBelow(t.a.ep.cfg.window, t.a.ep.snd, isnA, t.a.emitted, t.clock);
  }
}
