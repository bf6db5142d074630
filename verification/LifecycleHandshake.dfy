/** When a lost handshake packet is made good: which SYN_ACKs are answered, and exactly when a responder
    that still waits can become established. */
module LifecycleHandshake {
  import opened Prelude
  import opened Packets
  import opened Lifecycle
  import opened LifecycleLocal
  import opened LifecycleSilence
  import opened LifecyclePair
  import opened LifecycleLoss

  // ---- one SYN_ACK -----------------------------------------------------------------------------

  /** Any machine, in any state: a SYN_ACK draws an ACK if and only if it names the session and the machine
      is in SYN_SENT or ESTABLISHED, where it also is afterwards; field by field. */
  lemma SynAckDrawsAck(m: Machine, p: Packet, now: real)
    requires p.ptype == SYN_ACK
    ensures var o := OnPacket(m, p, now); var answers := p.session == m.sid && (m.state.SynSent? || m.state.Established?);
      && ((exists q :: q in o.packets && q.ptype == ACK) <==> answers)
      && (answers ==>
            && o.m.state.Established?
            && o.packets == [Packet(ACK, m.sid, 0, if m.state.SynSent? then m.cfg.isn + 1 else m.seqno, p.seqno + 1, 0, 2, 1, [])])
  {
    var answers := p.session == m.sid && (m.state.SynSent? || m.state.Established?);
    if answers {
      var packets := OnPacket(m, p, now).packets;
      assert packets[0] in packets && packets[0].ptype == ACK;
    }
  }

  // ---- before the initiator is established -----------------------------------------------------

  /** A side that is not established yet has sent handshake packets only. */
  predicate EarlyLife(x: Life)
  {
    ESTABLISHED !in x.events ==> forall p :: p in x.sent ==> p.ptype == SYN || p.ptype == SYN_ACK
  }

  /** The responder begins with the initiator's SYN, and the initiator has heard nothing while it waits. */
  predicate EarlyOk(s: Pair)
  {
    && EarlyLife(s.r)
    && (s.r.begun ==> s.i.sent != [])
    && (!s.i.begun || s.i.m.state.SynSent? ==> s.i.m.lastRecv.None?)
  }

  lemma EarlyKept(x: Life, inp: Input, now: real)
    requires LifeOk(x) && EarlyLife(x)
    ensures EarlyLife(Live(x, inp, now))
  {
    if !Over(x) {
      StepSurfaces(x.m, inp, now);
    }
  }

  lemma NothingHeard(s: Pair)
    requires PairOk(s) && EarlyOk(s)
    ensures !s.i.begun ==> s.r.sent == []
    ensures s.i.m.state.SynSent? ==> forall p :: p in s.r.sent ==> p.ptype == SYN_ACK && p.session == s.i.m.sid
  {
    if s.i.m.state.SynSent? {
      assert ESTABLISHED !in s.i.events;
      forall p | p in s.r.sent ensures p.ptype == SYN_ACK && p.session == s.i.m.sid {
        assert Lawful(p, s.i.m.sid, s.r.m.cfg.isn, s.i.m.cfg.isn, false);
      }
    }
  }

  lemma StepKeepsEarly(s: Pair, t: Turn)
    requires PairOk(s) && EarlyOk(s) && Enabled(s, t)
    ensures EarlyOk(StepPair(s, t))
  {
    NothingHeard(s);
    match t.role
    case Initiator =>
    case Responder => EarlyKept(s.r, t.inp, t.now);
  }

  lemma {:induction false} RunKeepsEarly(s: Pair, turns: seq<Turn>)
    requires PairOk(s) && EarlyOk(s) && Legal(s, turns)
    ensures PairOk(RunPair(s, turns)) && SamePeers(s, RunPair(s, turns)) && EarlyOk(RunPair(s, turns))
    decreases |turns|
  {
    if turns != [] {
      StepKeepsPair(s, turns[0]);
      StepKeepsEarly(s, turns[0]);
      RunKeepsEarly(StepPair(s, turns[0]), turns[1..]);
    }
  }

  // ---- the cure ------------------------------------------------------------------------------

  /** A copy of the SYN_ACK is left to send, the initiator would answer it, and the idle time-out leaves
      time for it: because the initiator is established and sends heartbeats, because it has a SYN left, or
      because the next copy is due before. */
  predicate CanStillOpen(s: Pair)
  {
    && Left(s.r.m) > 0
    && (|| s.i.m.state.Established?
        || (s.i.m.state.SynSent? &&
            (Left(s.i.m) > 0 ||
             (s.r.m.lastRecv.Some? && s.r.m.since + s.r.m.cfg.controlRto < s.r.m.lastRecv.value + s.r.m.cfg.idle))))
  }

  lemma NewIsLater(q: seq<Packet>, more: seq<Packet>, p: Packet, n: nat)
    requires p in more && n <= |q|
    ensures p in Later(q + more, n)
  {
    assert (q + more)[n..] == q[n..] + more;
  }

  lemma {:induction false} AfterAppend(s: Pair, k: Mark, a: seq<Turn>, b: seq<Turn>)
    ensures RunPair(s, a + b) == RunPair(RunPair(s, a), b)
    ensures LegalAfter(s, k, a) && LegalAfter(RunPair(s, a), k, b) ==> LegalAfter(s, k, a + b)
    decreases |a|
  {
    if a == [] {
      assert a + b == b;
    } else {
      assert (a + b)[1..] == a[1..] + b;
      AfterAppend(StepPair(s, a[0]), k, a[1..], b);
    }
  }

  /** The responder can resend at `t`, and the initiator would answer. */
  predicate ReadyToOpen(s: Pair, k: Mark, t: real)
  {
    && LifeOk(s.i) && LifeOk(s.r) && !s.r.m.cfg.initiator && s.i.m.sid == s.r.m.sid
    && k.i <= |s.i.sent| && k.r <= |s.r.sent|
    && s.r.m.state.SynRcvd? && Left(s.r.m) > 0 && RetryDue(s.r.m, t) && !IdleExpired(s.r.m, t)
    && (s.i.m.state.SynSent? || s.i.m.state.Established?)
  }

  lemma SynAckAgain(x: Life, t: real)
    requires LifeOk(x) && x.m.state.SynRcvd? && Left(x.m) > 0 && RetryDue(x.m, t) && !IdleExpired(x.m, t)
    ensures var x' := Live(x, Ticking, t);
      && LifeOk(x') && x'.m.state.SynRcvd? && x'.m.sid == x.m.sid && x.m.pending.Some? && x'.sent == x.sent + [x.m.pending.value]
      && x.m.pending.value.ptype == SYN_ACK && x.m.pending.value.session == x.m.sid
  {
    LiveKeepsOk(x, Ticking, t);
  }

  lemma AckAgain(x: Life, synAck: Packet, t: real) returns (ack: Packet)
    requires LifeOk(x) && (x.m.state.SynSent? || x.m.state.Established?) && synAck.ptype == SYN_ACK && synAck.session == x.m.sid
    ensures ack.ptype == ACK && ack.session == x.m.sid && Live(x, Receive(synAck), t).sent == x.sent + [ack]
  {
    SynAckDrawsAck(x.m, synAck, t);
    ack := OnPacket(x.m, synAck, t).packets[0];
  }

  lemma AckOpens(x: Life, ack: Packet, t: real)
    requires LifeOk(x) && x.m.state.SynRcvd? && ack.ptype == ACK && ack.session == x.m.sid
    ensures ESTABLISHED in Live(x, Receive(ack), t).events
  {
  }

  /** The SYN_ACK goes out again, is answered, and the answer arrives. */
  lemma HandshakeCompletes(s: Pair, k: Mark, t: real) returns (turns: seq<Turn>)
    requires ReadyToOpen(s, k, t)
    ensures LegalAfter(s, k, turns) && ESTABLISHED in RunPair(s, turns).r.events
  {
    var synAck := s.r.m.pending.value;
    var t1 := Turn(Responder, Ticking, t);
    var s1 := StepPair(s, t1);
    SynAckAgain(s.r, t);
    var t2 := Turn(Initiator, Receive(synAck), t);
    var ack := AckAgain(s.i, synAck, t);
    var s2 := StepPair(s1, t2);
    var t3 := Turn(Responder, Receive(ack), t);
    AckOpens(s1.r, ack, t);
    NewIsLater(s.r.sent, [synAck], synAck, k.r);
    NewIsLater(s.i.sent, [ack], ack, k.i);
    PairFirst(s, k, t1, [t2] + ([t3] + []));
    PairFirst(s1, k, t2, [t3] + []);
    PairFirst(s2, k, t3, []);
    return [t1] + ([t2] + ([t3] + []));
  }

  /** An established side that has just had data and whose heartbeat is due. */
  lemma BeatGoesOut(x: Life, t: real)
    requires LifeOk(x) && x.m.state.Established? && x.m.cfg.idle > 0.0
    requires x.m.lastSend.Some? ==> t - x.m.lastSend.value >= x.m.cfg.heartbeat
    ensures var x1 := Live(x, Activity, t); var x2 := Live(x1, Ticking, t);
      && LifeOk(x2) && x2.m.state.Established? && x2.m.sid == x.m.sid
      && x1.sent == x.sent && x2.sent == x.sent + [Make(x.m.sid, HEARTBEAT, x.m.seqno, 0, FLAG_NONE)]
  {
    LiveKeepsOk(x, Activity, t);
    LiveKeepsOk(Live(x, Activity, t), Ticking, t);
    assert x.sent + [] == x.sent;
  }

  /** Whatever of the session the waiting responder hears, but an ACK, refreshes it and nothing else. */
  lemma WaitingHears(x: Life, p: Packet, t: real)
    requires LifeOk(x) && x.m.state.SynRcvd? && p.session == x.m.sid && p.ptype != ACK
    ensures LifeOk(Live(x, Receive(p), t)) && Live(x, Receive(p), t).m == x.m.(lastRecv := Some(t))
    ensures Live(x, Receive(p), t).sent == x.sent
  {
    LiveKeepsOk(x, Receive(p), t);
    assert x.sent + [] == x.sent;
  }

  /** An established initiator is heard: its next heartbeat refreshes the responder. */
  lemma HeartbeatRefreshes(s: Pair, t: real) returns (turns: seq<Turn>)
    requires PairOk(s) && s.r.m.state.SynRcvd? && s.i.m.state.Established? && Left(s.r.m) > 0 && RetryDue(s.r.m, t)
    requires s.i.m.cfg.idle > 0.0 && s.r.m.cfg.idle > 0.0
    requires s.i.m.lastSend.Some? ==> t - s.i.m.lastSend.value >= s.i.m.cfg.heartbeat
    ensures LegalAfter(s, MarkOf(s), turns) && ReadyToOpen(RunPair(s, turns), MarkOf(s), t)
  {
    var k := MarkOf(s);
    var beat := Make(s.i.m.sid, HEARTBEAT, s.i.m.seqno, 0, FLAG_NONE);
    var (t1, t2, t3) := (Turn(Initiator, Activity, t), Turn(Initiator, Ticking, t), Turn(Responder, Receive(beat), t));
    BeatGoesOut(s.i, t);
    WaitingHears(s.r, beat, t);
    NewIsLater(s.i.sent, [beat], beat, k.i);
    ThreeTurns(s, k, t1, t2, t3);
    return [t1] + ([t2] + ([t3] + []));
  }

  lemma ThreeTurns(s: Pair, k: Mark, t1: Turn, t2: Turn, t3: Turn)
    requires !t1.inp.Receive? && !t2.inp.Receive?
    requires t3.inp.Receive? ==> t3.inp.p in NewOf(StepPair(StepPair(s, t1), t2), Opposite(t3.role), k)
    ensures LegalAfter(s, k, [t1] + ([t2] + ([t3] + [])))
    ensures RunPair(s, [t1] + ([t2] + ([t3] + []))) == StepPair(StepPair(StepPair(s, t1), t2), t3)
  {
    var s1 := StepPair(s, t1);
    var s2 := StepPair(s1, t2);
    PairFirst(s, k, t1, [t2] + ([t3] + []));
    PairFirst(s1, k, t2, [t3] + []);
    PairFirst(s2, k, t3, []);
  }

  /** A SYN that is sent again refreshes the responder. */
  lemma SynRefreshes(s: Pair, t: real) returns (turns: seq<Turn>)
    requires PairOk(s) && EarlyOk(s) && s.r.m.state.SynRcvd? && s.i.m.state.SynSent? && Left(s.r.m) > 0 && RetryDue(s.r.m, t)
    requires Left(s.i.m) > 0 && RetryDue(s.i.m, t) && s.r.m.cfg.idle > 0.0
    ensures LegalAfter(s, MarkOf(s), turns) && ReadyToOpen(RunPair(s, turns), MarkOf(s), t)
  {
    var k := MarkOf(s);
    var syn := s.i.m.pending.value;
    var t1 := Turn(Initiator, Ticking, t);
    var s1 := StepPair(s, t1);
    var t2 := Turn(Responder, Receive(syn), t);
    LiveKeepsOk(s.i, Ticking, t);
    LiveKeepsOk(s.r, Receive(syn), t);
    assert s1.i.sent == s.i.sent + [syn];
    NewIsLater(s.i.sent, [syn], syn, k.i);
    PairFirst(s, k, t1, [t2] + []);
    PairFirst(s1, k, t2, []);
    return [t1] + ([t2] + []);
  }

  /** With everything in flight lost, some continuation still establishes the responder. */
  ghost predicate CanBeOpened(s: Pair)
  {
    exists turns :: LegalAfter(s, MarkOf(s), turns) && ESTABLISHED in RunPair(s, turns).r.events
  }

  function Latest(a: real, b: real): real
  {
    if a < b then b else a
  }

  lemma OpeningExists(s: Pair)
    requires PairOk(s) && EarlyOk(s) && s.r.m.state.SynRcvd? && s.i.m.cfg.idle > 0.0 && s.r.m.cfg.idle > 0.0
    requires CanStillOpen(s)
    ensures CanBeOpened(s)
  {
    var k := MarkOf(s);
    var due := s.r.m.since + s.r.m.cfg.controlRto;
    var first: seq<Turn> := [];
    var t := due;
    if s.i.m.state.Established? {
      t := if s.i.m.lastSend.Some? then Latest(due, s.i.m.lastSend.value + s.i.m.cfg.heartbeat) else due;
      first := HeartbeatRefreshes(s, t);
    } else if Left(s.i.m) > 0 {
      t := Latest(due, s.i.m.since + s.i.m.cfg.controlRto);
      first := SynRefreshes(s, t);
    }
    var rest := HandshakeCompletes(RunPair(s, first), k, t);
    AfterAppend(s, k, first, rest);
    assert LegalAfter(s, k, first + rest);
  }

  // ---- and no cure -----------------------------------------------------------------------------

  /** The initiator answers no SYN_ACK any more. */
  predicate PastAnswering(i: Life)
  {
    i.m.state.FinWait? || i.m.state.CloseWait? || Over(i)
  }

  /** No SYN_ACK comes from the responder any more. */
  predicate OutOfCopies(r: Life, newFromR: seq<Packet>)
  {
    NoneOf(newFromR, SYN_ACK) && (Over(r) || Left(r.m) <= 0)
  }

  /** Nobody has anything to say: the initiator has no SYN left, and the responder goes idle before its next
      copy is due. */
  predicate BothMute(i: Life, r: Life, newFromI: seq<Packet>, newFromR: seq<Packet>)
  {
    && newFromI == [] && newFromR == []
    && (Over(i) || (i.m.state.SynSent? && Left(i.m) <= 0))
    && (Over(r) || (r.m.lastRecv.Some? && r.m.lastRecv.value + r.m.cfg.idle <= r.m.since + r.m.cfg.controlRto))
  }

  predicate Stuck(s: Pair, k: Mark)
  {
    var (newI, newR) := (NewOf(s, Initiator, k), NewOf(s, Responder, k));
    && LifeOk(s.i) && LifeOk(s.r) && s.i.begun && s.i.m.cfg.initiator && !s.r.m.cfg.initiator
    && (s.r.m.state.SynRcvd? || Over(s.r)) && Failing(s.r) && NoneOf(newI, ACK)
    && k.i <= |s.i.sent| && k.r <= |s.r.sent|
    && (PastAnswering(s.i) || OutOfCopies(s.r, newR) || BothMute(s.i, s.r, newI, newR))
  }

  /** Not established, and if it is over, it failed. */
  predicate Failing(r: Life)
  {
    if Over(r) then r.events == [CONNECT_FAILED] || r.events == [TIMED_OUT] else r.events == []
  }

  lemma LaterOfMore(q: seq<Packet>, more: seq<Packet>, n: nat)
    requires n <= |q|
    ensures Later(q + more, n) == Later(q, n) + more
  {
  }

  /** An ACK answers nothing but a SYN_ACK, and comes from nowhere past ESTABLISHED. */
  lemma OnlySynAcksDrawAcks(m: Machine, p: Packet, now: real)
    ensures p.ptype != SYN_ACK || m.state.FinWait? || m.state.CloseWait? ==> NoneOf(OnPacket(m, p, now).packets, ACK)
  {
  }

  lemma NoInputDrawsAnAck(m: Machine, inp: Input, now: real)
    requires Shape(m, m.state.Closed?)
    ensures !(inp.Receive? && inp.p.ptype == SYN_ACK) || m.state.FinWait? || m.state.CloseWait? ==> NoneOf(Step(m, inp, now).packets, ACK)
  {
    if inp.Receive? {
      OnlySynAcksDrawAcks(m, inp.p, now);
    }
  }

  /** What the initiator can do in each of the three cases. */
  lemma InitiatorStuck(i: Life, inp: Input, now: real)
    requires LifeOk(i) && i.begun && !Over(i)
    ensures var o := Step(i.m, inp, now); var i' := Live(i, inp, now);
      && LifeOk(i') && i'.begun
      && (PastAnswering(i) ==> PastAnswering(i') && NoneOf(o.packets, ACK))
      && (!(inp.Receive? && inp.p.ptype == SYN_ACK) ==> NoneOf(o.packets, ACK))
      && (i.m.state.SynSent? && Left(i.m) <= 0 && !inp.Receive? ==>
            o.packets == [] && (Over(i') || (i'.m.state.SynSent? && Left(i'.m) <= 0)))
  {
    LiveKeepsOk(i, inp, now);
    StepSurfaces(i.m, inp, now);
    NoInputDrawsAnAck(i.m, inp, now);
  }

  lemma ResponderStuck(r: Life, inp: Input, now: real)
    requires LifeOk(r) && r.m.state.SynRcvd? && Failing(r) && !(inp.Receive? && inp.p.ptype == ACK)
    ensures var o := Step(r.m, inp, now); var r' := Live(r, inp, now);
      && LifeOk(r') && (r'.m.state.SynRcvd? || Over(r')) && Failing(r')
      && (Left(r.m) <= 0 ==> NoneOf(o.packets, SYN_ACK) && (Over(r') || Left(r'.m) <= 0))
      && (!inp.Receive? && r.m.lastRecv.Some? && r.m.lastRecv.value + r.m.cfg.idle <= r.m.since + r.m.cfg.controlRto ==>
            o.packets == [] && (Over(r') || r'.m == r.m))
  {
    LiveKeepsOk(r, inp, now);
    StepSurfaces(r.m, inp, now);
  }

  lemma InitiatorStaysStuck(s: Pair, k: Mark, inp: Input, now: real)
    requires Stuck(s, k) && (inp.Receive? ==> inp.p in NewOf(s, Responder, k))
    ensures Stuck(StepPair(s, Turn(Initiator, inp, now)), k)
  {
    if !Over(s.i) {
      InitiatorStuck(s.i, inp, now);
      LaterOfMore(s.i.sent, Step(s.i.m, inp, now).packets, k.i);
      StepIsBacked(s.i.m, inp, now);
    }
  }

  lemma ResponderStaysStuck(s: Pair, k: Mark, inp: Input, now: real)
    requires Stuck(s, k) && (inp.Receive? ==> inp.p in NewOf(s, Initiator, k))
    ensures Stuck(StepPair(s, Turn(Responder, inp, now)), k)
  {
    if !Over(s.r) {
      ResponderStuck(s.r, inp, now);
      LaterOfMore(s.r.sent, Step(s.r.m, inp, now).packets, k.r);
      StepIsBacked(s.r.m, inp, now);
    }
  }

  lemma {:induction false} StuckStays(s: Pair, k: Mark, turns: seq<Turn>)
    requires Stuck(s, k) && LegalAfter(s, k, turns)
    ensures Stuck(RunPair(s, turns), k)
    decreases |turns|
  {
    if turns != [] {
      var t := turns[0];
      match t.role {
        case Initiator => InitiatorStaysStuck(s, k, t.inp, t.now);
        case Responder => ResponderStaysStuck(s, k, t.inp, t.now);
      }
      StuckStays(StepPair(s, t), k, turns[1..]);
    }
  }

  /** Where the initiator can be while the responder still waits for its ACK. */
  lemma InitiatorOfWaiting(s: Pair)
    requires PairOk(s) && EarlyOk(s) && s.r.m.state.SynRcvd?
    ensures s.i.begun && (s.i.m.state.SynSent? || s.i.m.state.Established? || PastAnswering(s.i))
  {
  }

  /** With everything in flight lost, the responder fails in every continuation that ends it. */
  ghost predicate MustFail(s: Pair)
  {
    forall turns :: LegalAfter(s, MarkOf(s), turns) ==> Failing(RunPair(s, turns).r)
  }

  lemma NoOpeningExists(s: Pair)
    requires PairOk(s) && EarlyOk(s) && s.r.m.state.SynRcvd? && !CanStillOpen(s)
    ensures !CanBeOpened(s) && MustFail(s)
  {
    InitiatorOfWaiting(s);
    assert Stuck(s, MarkOf(s));
    forall turns | LegalAfter(s, MarkOf(s), turns)
      ensures Failing(RunPair(s, turns).r) && ESTABLISHED !in RunPair(s, turns).r.events
    {
      StuckStays(s, MarkOf(s), turns);
    }
  }

  /** Losing a handshake packet, and exactly when it is made good, in every state two sides can reach: let
      the responder be in SYN_RCVD and everything in flight be lost. It can still become established if and
      only if the initiator would answer and a copy of the SYN_ACK is left that it gets to send; if not, it
      ends, if at all, with CONNECT_FAILED or TIMED_OUT. */
  lemma LostHandshakeIsCuredIff(s0: Pair, run: seq<Turn>, s: Pair)
    requires FreshPair(s0) && Legal(s0, run) && s == RunPair(s0, run) && s.r.m.state.SynRcvd?
    requires s0.i.m.cfg.idle > 0.0 && s0.r.m.cfg.idle > 0.0
    ensures CanBeOpened(s) <==> CanStillOpen(s)
    ensures !CanStillOpen(s) ==> MustFail(s)
  {
    RunKeepsEarly(s0, run);
    if CanStillOpen(s) {
      OpeningExists(s);
    } else {
      NoOpeningExists(s);
    }
  }
}
