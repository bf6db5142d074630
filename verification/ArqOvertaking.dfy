/** Submission order is not unconditional: a concrete exchange, over a network that only reorders, in
    which a later submission leaves before chunks queued earlier. */
module ArqOvertaking {
  import opened Prelude
  import opened Packets
  import opened Rto
  import opened ArqModel
  import opened ArqSafety
  import opened ArqSystem
  import opened ArqTheorems

  const CFG := Config(1, 5, 1, 8)
  const RTO := NewEstimate(1.0, 0.2, 60.0)

  function Idle(): Arq
  {
    NewEndpoint(0, CFG, 0, 0, RTO)
  }

  function Letter(i: nat): bytes
    requires i < 26
  {
    [(97 + i) as byte]
  }

  function Letters(from: nat, n: nat): (r: seq<bytes>)
    requires from + n <= 26
    ensures |r| == n && forall i :: 0 <= i < n ==> r[i] == Letter(from + i)
  {
    seq(n, i requires 0 <= i < n => Letter(from + i))
  }

  /** The receiving end of the exchange, having got as far as `base`. */
  function Holding(base: int, reorder: map<int, bytes>, nacked: set<int>): Arq
  {
    Idle().(rcv := Receiver(base, reorder, nacked))
  }

  /** The sending end: `n` letters from `una` are in flight, two more are queued. */
  function Sending(una: nat, n: nat, peerWindow: int, rto: Estimate): Arq
    requires una + n <= 24
  {
    var e := Idle();
    e.(snd := Sender(una + n, NewEntries(e, una, Letters(una, n), 0.0), peerWindow, Letters(una + n, 2), una, false, rto))
  }

  function Data(i: nat): Packet
    requires i < 26
  {
    DataPacket(Idle(), i, Letter(i))
  }

  const ASKS_FOR_0 := NackPacket(Holding(0, map[1 := Letter(1)], {}), 0)
  const ACKS_2 := AckPacket(Holding(2, map[3 := Letter(3), 4 := Letter(4)], {2}))

  lemma PositionOneArrives(e: Arq, p: Packet)
    requires e == Idle() && p == Data(1)
    ensures var r := OnData(Unbounded, e, p);
      r.ep == Holding(0, map[1 := Letter(1)], {0}) && ASKS_FOR_0 in r.output.packets
  {
    var f := Holding(0, map[1 := Letter(1)], {});
    assert Accept(Unbounded, 5, e.rcv, p) == Accepted(f.rcv, []);
    assert OnData(Unbounded, e, p).output.packets[1] == ASKS_FOR_0;
  }

  lemma PositionZeroArrives(e: Arq, p: Packet)
    requires e == Holding(0, map[1 := Letter(1)], {0}) && p == Data(0)
    ensures OnData(Unbounded, e, p).ep == Holding(2, map[], {})
  {
    assert map[1 := Letter(1)] - {1} == map[];
    assert Drain(Unbounded, 2, map[]) == Drained(2, map[], []);
    assert Drain(Unbounded, 1, map[1 := Letter(1)]) == Drained(2, map[], [Letter(1)]);
    assert (set k | k in {0} && Lt(Unbounded, 2, k)) == {};
  }

  lemma PositionThreeArrives(e: Arq, p: Packet)
    requires e == Holding(2, map[], {}) && p == Data(3)
    ensures OnData(Unbounded, e, p).ep == Holding(2, map[3 := Letter(3)], {2})
  {
  }

  lemma PositionFourArrives(e: Arq, p: Packet)
    requires e == Holding(2, map[3 := Letter(3)], {2}) && p == Data(4)
    ensures ACKS_2 in OnData(Unbounded, e, p).output.packets
  {
    assert OnData(Unbounded, e, p).output.packets[0] == ACKS_2;
  }

  const ABCDEFG: bytes := seq(7, i requires 0 <= i < 7 => (97 + i) as byte)
  const H: bytes := [104]

  lemma {:induction false} OneByteChunks(data: bytes)
    ensures |Chunks(data, 1)| == |data| && forall i :: 0 <= i < |data| ==> Chunks(data, 1)[i] == [data[i]]
  {
    if |data| > 1 {
      OneByteChunks(data[1..]);
    }
  }

  /** Seven one-byte chunks are submitted: five fill the window, two wait. */
  lemma SevenSubmitted(e: Arq, data: bytes)
    requires e == Idle() && data == ABCDEFG
    ensures Send(Unbounded, e, data, 0.0).ep == Sending(0, 5, 5, RTO)
    ensures Send(Unbounded, e, data, 0.0).output.packets == PacketsOf(NewEntries(e, 0, Letters(0, 5), 0.0))
  {
    OneByteChunks(data);
    assert Chunks(data, 1) == Letters(0, 7);
    SendFillsWindow(e, e.snd, Letters(0, 7), 0.0);
    assert Letters(0, 7)[..5] == Letters(0, 5);
    assert [] + Letters(0, 7)[5..] == Letters(5, 2);
    assert [] + NewEntries(Idle(), 0, Letters(0, 5), 0.0) == NewEntries(Idle(), 0, Letters(0, 5), 0.0);
  }

  const SAMPLED := Sample(Sample(RTO, 0.0), 0.0)

  /** An acknowledgement that leaves no room for what is queued. */
  lemma AckWithoutRoom(e: Arq, p: Packet, now: real, a: Acked, s: Sender)
    requires a == AckScan(Unbounded, e.snd.out, p.ackno, now, e.snd.ackedBytes, e.snd.rto) && !a.raised
    requires s == e.snd.(peerWindow := p.window, out := a.kept, ackedBytes := a.bytes, rto := a.rto)
    requires !CanSend(e.cfg.window, s)
    ensures OnAck(Unbounded, e, p, now) == Result(e.(snd := s), NOTHING)
  {
  }

  lemma AckFields(p: Packet)
    requires p == ACKS_2
    ensures p.ptype == ACK && p.session == 0 && p.ackno == 2 && p.window == 3
  {
    assert |map[3 := Letter(3), 4 := Letter(4)]| == 2;
  }

  /** The acknowledgement frees two places but shrinks the window to the three still in flight. */
  lemma TwoAcknowledged(e: Arq, p: Packet)
    requires e == Sending(0, 5, 5, RTO) && p == ACKS_2
    ensures OnAck(Unbounded, e, p, 0.0) == Result(Sending(2, 3, 3, SAMPLED), NOTHING)
  {
    var out := e.snd.out;
    AckFields(p);
    AckScanSkips(out, p.ackno, 0.0, 0, RTO);
    assert out[2..] == NewEntries(Idle(), 2, Letters(2, 3), 0.0);
    AckWithoutRoom(e, p, 0.0, Acked(out[2..], 2, SAMPLED, false), Sending(2, 3, 3, SAMPLED).snd);
  }

  /** Scanning past two entries sent once and acknowledged at the time they were sent. */
  lemma AckScanSkips(out: seq<Outstanding>, ack: int, now: real, b: nat, rto: Estimate)
    requires |out| == 5 && Consecutive(out, 0, now) && ack == 2
    requires forall i :: 0 <= i < 2 ==> out[i].retx == 0 && out[i].sendTime == now && |out[i].packet.payload| == 1
    ensures AckScan(Unbounded, out, ack, now, b, rto) == Acked(out[2..], b + 2, Sample(Sample(rto, 0.0), 0.0), false)
  {
    AckDropsPrefix(out[2..], 2, ack, now, b + 2, Sample(Sample(rto, 0.0), 0.0));
    assert out[1..][1..] == out[2..];
  }

  lemma StaleNackWidens(e: Arq, p: Packet)
    requires e == Sending(2, 3, 3, SAMPLED) && p == ASKS_FOR_0
    ensures OnNack(e, p, 0.0) == Result(Sending(2, 3, 4, SAMPLED), NOTHING)
  {
  }

  lemma EighthSubmitted(e: Arq, data: bytes)
    requires e == Sending(2, 3, 4, SAMPLED) && data == H
    ensures var r := Send(Unbounded, e, data, 0.0);
      Payloads(r.output.packets) == [H] && r.ep.snd.pending == Letters(5, 2)
  {
    SendFillsWindow(e, e.snd, [H], 0.0);
    assert [H][..1] == [H] && e.snd.pending + [H][1..] == e.snd.pending;
  }

  function Begin(): Sys
  {
    Start(0, CFG, CFG, 0, 0, RTO, RTO)
  }

  /** Positions 1, 0, 3 and 4 reach the receiver, in that order. */
  function Turns(): seq<Label>
  {
    [Label(B, Receive(Data(1)), 0.0), Label(B, Receive(Data(0)), 0.0),
     Label(B, Receive(Data(3)), 0.0), Label(B, Receive(Data(4)), 0.0)]
  }

  /** Its last answer, then its first, come back; then one more letter is submitted. */
  function Returns(): seq<Label>
  {
    [Label(A, Receive(ACKS_2), 0.0), Label(A, Receive(ASKS_FOR_0), 0.0), Label(A, Submit(H), 0.0)]
  }

  lemma FirstPackets()
    ensures var first := PacketsOf(NewEntries(Idle(), 0, Letters(0, 5), 0.0));
      && (set p | p in first) >= {Data(0), Data(1), Data(3), Data(4)}
      && Payloads(first) == Letters(0, 5)
  {
    var first := PacketsOf(NewEntries(Idle(), 0, Letters(0, 5), 0.0));
    assert first[0] == Data(0) && first[1] == Data(1) && first[3] == Data(3) && first[4] == Data(4);
  }

  /** A peer's step, read off what its endpoint does. */
  lemma StepByResult(x: Peer, input: Input, r: Result)
    requires React(Unbounded, x.ep, input, 0.0) == r
    ensures var y := StepPeer(Unbounded, x, input, 0.0);
      && y.ep == r.ep && y.sent == x.sent + (set p | p in r.output.packets)
      && (r.output == NOTHING && !input.Submit? ==> y.emitted == x.emitted && y.submitted == x.submitted)
  {
    if r.output == NOTHING {
      assert x.emitted + [] == x.emitted && x.submitted + [] == x.submitted;
    }
  }

  lemma FirstChunks(data: bytes)
    requires data == ABCDEFG
    ensures Chunks(data, 1) == Letters(0, 7)
  {
    OneByteChunks(data);
  }

  lemma FirstSent(x: Peer, data: bytes, packets: seq<Packet>)
    requires x.ep == Idle() && data == ABCDEFG && packets == Send(Unbounded, x.ep, data, 0.0).output.packets
    ensures Send(Unbounded, x.ep, data, 0.0).ep == Sending(0, 5, 5, RTO)
    ensures {Data(0), Data(1), Data(3), Data(4)} <= (set p | p in packets) && Payloads(packets) == Letters(0, 5)
  {
    SevenSubmitted(x.ep, data);
    FirstPackets();
  }

  lemma FirstSubmission(x: Peer, data: bytes)
    requires x.ep == Idle() && x.emitted == [] && x.submitted == [] && data == ABCDEFG
    ensures var y := StepPeer(Unbounded, x, Submit(data), 0.0);
      && y.ep == Sending(0, 5, 5, RTO) && {Data(0), Data(1), Data(3), Data(4)} <= y.sent
      && y.emitted == Letters(0, 5) && y.submitted == Letters(0, 7)
  {
    var packets := Send(Unbounded, x.ep, data, 0.0).output.packets;
    FirstSent(x, data, packets);
    FirstChunks(data);
    SubmitLogs(x, data);
    NothingBefore(Letters(0, 7));
    NothingBefore(Payloads(packets));
  }

  lemma NothingBefore(a: seq<bytes>)
    ensures [] + a == a
  {
  }

  /** A delivery of data, read off what the receiver does. */
  lemma DataTurn(s: Sys, l: Label)
    requires l.side.B? && l.input.Receive? && l.now == 0.0
    requires l.input.p.ptype == DATA && l.input.p.session == s.b.ep.session
    ensures var t := StepSys(Unbounded, s, l); var r := OnData(Unbounded, s.b.ep, l.input.p);
      && t.a == s.a && t.clock == 0.0 && t.b.ep == r.ep
      && s.b.sent <= t.b.sent && forall p :: p in r.output.packets ==> p in t.b.sent
  {
  }

  lemma ReceiverTurns(s: Sys, run: seq<Label>)
    requires s.clock == 0.0 && s.b.ep == Idle() && run == Turns()
    requires {Data(0), Data(1), Data(3), Data(4)} <= s.a.sent
    ensures Legal(Unbounded, s, run)
    ensures var t := Run(Unbounded, s, run);
      t.a == s.a && t.clock == 0.0 && ACKS_2 in t.b.sent && ASKS_FOR_0 in t.b.sent
  {
    var s1 := StepSys(Unbounded, s, run[0]);
    var s2 := StepSys(Unbounded, s1, run[1]);
    var s3 := StepSys(Unbounded, s2, run[2]);
    PositionOneArrives(s.b.ep, run[0].input.p);
    DataTurn(s, run[0]);
    PositionZeroArrives(s1.b.ep, run[1].input.p);
    DataTurn(s1, run[1]);
    PositionThreeArrives(s2.b.ep, run[2].input.p);
    DataTurn(s2, run[2]);
    PositionFourArrives(s3.b.ep, run[3].input.p);
    DataTurn(s3, run[3]);
    FourSteps(s, run);
  }

  lemma FourSteps(s: Sys, run: seq<Label>)
    requires |run| == 4
    ensures var s1 := StepSys(Unbounded, s, run[0]); var s2 := StepSys(Unbounded, s1, run[1]);
      var s3 := StepSys(Unbounded, s2, run[2]); var s4 := StepSys(Unbounded, s3, run[3]);
      && Run(Unbounded, s, run) == s4
      && (Enabled(s, run[0]) && Enabled(s1, run[1]) && Enabled(s2, run[2]) && Enabled(s3, run[3]) ==> Legal(Unbounded, s, run))
  {
    var s1 := StepSys(Unbounded, s, run[0]);
    ThreeSteps(s1, run[1..]);
    assert run[1..][1] == run[2] && run[1..][2] == run[3];
  }

  lemma ThreeSteps(s: Sys, run: seq<Label>)
    requires |run| == 3
    ensures var s1 := StepSys(Unbounded, s, run[0]); var s2 := StepSys(Unbounded, s1, run[1]);
      var s3 := StepSys(Unbounded, s2, run[2]);
      && Run(Unbounded, s, run) == s3
      && (Enabled(s, run[0]) && Enabled(s1, run[1]) && Enabled(s2, run[2]) ==> Legal(Unbounded, s, run))
  {
    var s1 := StepSys(Unbounded, s, run[0]);
    var s2 := StepSys(Unbounded, s1, run[1]);
    var r1 := run[1..];
    var r2 := r1[1..];
    assert r2[0] == run[2] && r2[1..] == [];
    assert Run(Unbounded, s2, r2) == StepSys(Unbounded, s2, run[2]);
    assert Run(Unbounded, s1, r1) == Run(Unbounded, s2, r2);
    assert Legal(Unbounded, s2, r2) == Enabled(s2, run[2]);
  }

  lemma RepliesReact(e: Arq, p: Packet)
    requires p.session == e.session
    ensures p.ptype == ACK ==> React(Unbounded, e, Receive(p), 0.0) == OnAck(Unbounded, e, p, 0.0)
    ensures p.ptype == NACK ==> React(Unbounded, e, Receive(p), 0.0) == OnNack(e, p, 0.0)
  {
  }

  lemma SenderAcked(x: Peer, p: Packet)
    requires x.ep == Sending(0, 5, 5, RTO) && p == ACKS_2
    ensures var y := StepPeer(Unbounded, x, Receive(p), 0.0);
      y.ep == Sending(2, 3, 3, SAMPLED) && y.emitted == x.emitted && y.submitted == x.submitted
  {
    TwoAcknowledged(x.ep, p);
    RepliesReact(x.ep, p);
    StepByResult(x, Receive(p), Result(Sending(2, 3, 3, SAMPLED), NOTHING));
  }

  lemma SenderAsked(x: Peer, p: Packet)
    requires x.ep == Sending(2, 3, 3, SAMPLED) && p == ASKS_FOR_0
    ensures var y := StepPeer(Unbounded, x, Receive(p), 0.0);
      y.ep == Sending(2, 3, 4, SAMPLED) && y.emitted == x.emitted && y.submitted == x.submitted
  {
    StaleNackWidens(x.ep, p);
    RepliesReact(x.ep, p);
    StepByResult(x, Receive(p), Result(Sending(2, 3, 4, SAMPLED), NOTHING));
  }

  /** The eighth letter is on the wire; the sixth and seventh still wait. */
  lemma EighthOvertakes(x: Peer, data: bytes)
    requires x.ep == Sending(2, 3, 4, SAMPLED) && x.emitted == Letters(0, 5) && x.submitted == Letters(0, 7) && data == H
    ensures !InOrder(StepPeer(Unbounded, x, Submit(data), 0.0))
  {
    var y := StepPeer(Unbounded, x, Submit(data), 0.0);
    EighthSubmitted(x.ep, data);
    SubmitLogs(x, data);
    assert y.emitted == Letters(0, 5) + [H];
    assert (y.emitted + y.ep.snd.pending)[5] == H;
    assert y.submitted[5] == Letter(5);
  }

  lemma SubmitLogs(x: Peer, data: bytes)
    ensures var y := StepPeer(Unbounded, x, Submit(data), 0.0); var r := Send(Unbounded, x.ep, data, 0.0);
      && y.ep == r.ep && y.sent == x.sent + (set p | p in r.output.packets)
      && y.emitted == x.emitted + Payloads(r.output.packets)
      && y.submitted == x.submitted + Chunks(data, x.ep.cfg.maxPayload)
  {
  }

  lemma SenderReturns(s: Sys, run: seq<Label>)
    requires s.clock == 0.0 && s.a.ep == Sending(0, 5, 5, RTO) && ACKS_2 in s.b.sent && ASKS_FOR_0 in s.b.sent
    requires s.a.emitted == Letters(0, 5) && s.a.submitted == Letters(0, 7) && run == Returns()
    ensures Legal(Unbounded, s, run) && !InOrder(Run(Unbounded, s, run).a)
  {
    ThreeSteps(s, run);
    var (p, q) := (run[0].input.p, run[1].input.p);
    SenderAcked(s.a, p);
    var x := StepPeer(Unbounded, s.a, Receive(p), 0.0);
    SenderAsked(x, q);
    EighthOvertakes(StepPeer(Unbounded, x, Receive(q), 0.0), run[2].input.data);
  }

  lemma WholeRun(s: Sys, first: Label, turns: seq<Label>, back: seq<Label>)
    ensures var s1 := StepSys(Unbounded, s, first); var s2 := Run(Unbounded, s1, turns); var run := [first] + turns + back;
      && Run(Unbounded, s, run) == Run(Unbounded, s2, back)
      && (Enabled(s, first) && Legal(Unbounded, s1, turns) && Legal(Unbounded, s2, back) ==> Legal(Unbounded, s, run))
  {
    var run := [first] + turns + back;
    assert run[0] == first && run[1..] == turns + back;
    RunFirst(Unbounded, s, run);
    RunAppend(Unbounded, StepSys(Unbounded, s, first), turns, back);
  }

  lemma AnyBegin(s: Sys, first: Label, turns: seq<Label>, back: seq<Label>)
    requires s == Begin() && first == Label(A, Submit(ABCDEFG), 0.0) && turns == Turns() && back == Returns()
    ensures Legal(Unbounded, s, [first] + turns + back) && !InOrder(Run(Unbounded, s, [first] + turns + back).a)
  {
    var s1 := StepSys(Unbounded, s, first);
    FirstSubmission(s.a, first.input.data);
    ReceiverTurns(s1, turns);
    SenderReturns(Run(Unbounded, s1, turns), back);
    WholeRun(s, first, turns, back);
  }

  /** The property fails: a legal run after which the eighth letter has left before the sixth and the
      seventh, which are still queued. */
  lemma LaterDataOvertakes()
    ensures var run := [Label(A, Submit(ABCDEFG), 0.0)] + Turns() + Returns();
      Legal(Unbounded, Begin(), run) && !InOrder(Run(Unbounded, Begin(), run).a)
  {
    AnyBegin(Begin(), Label(A, Submit(ABCDEFG), 0.0), Turns(), Returns());
  }
}
