/** When resending a FIN makes good a lost FIN_ACK, and how the close ends when it cannot. */
module LifecycleLoss {
  import opened Prelude
  import opened Packets
  import opened Lifecycle
  import opened LifecycleLocal
  import opened LifecycleSilence
  import opened LifecyclePair

  // ---- one FIN -------------------------------------------------------------------------------

  predicate AnswersFin(m: Machine)
  {
    m.state.Established? || m.state.FinWait?
  }

  /** Any machine, in any state: a FIN draws a FIN_ACK, one, if and only if it names the session and the
      machine is established or in FIN_WAIT; otherwise it does no more than refresh the idle timer. */
  lemma FinDrawsFinAck(m: Machine, p: Packet, now: real)
    requires p.ptype == FIN
    ensures var o := OnPacket(m, p, now);
      && ((exists q :: q in o.packets && q.ptype == FIN_ACK) <==> p.session == m.sid && AnswersFin(m))
      && Count(o.packets, FIN_ACK) <= 1
      && (Count(o.packets, FIN_ACK) == 0 ==> o == Idle(if p.session == m.sid then m.(lastRecv := Some(now)) else m))
  {
    if p.session == m.sid && m.state.Established? {
      CountOfTwo(FinAckFor(m, p), FinPacket(m), FIN_ACK);
    }
    assert p.session == m.sid && AnswersFin(m) ==> FinAckFor(m, p) in OnPacket(m, p, now).packets;
  }

  // ---- a closed machine ------------------------------------------------------------------------

  /** The two inputs that start a new incarnation of a closed machine. */
  predicate Reopens(m: Machine, inp: Input)
  {
    if m.cfg.initiator then inp.Opening? else inp.Receive? && inp.p.ptype == SYN
  }

  /** Until it is opened again, a closed machine answers nothing: not one of the FINs its peer resends. */
  lemma {:induction false} ClosedAnswersNothing(m: Machine, ms: seq<Moment>)
    requires m.state.Closed? && m.pending.None?
    requires forall i :: 0 <= i < |ms| ==> !Reopens(m, ms[i].inp)
    ensures var o := StepAll(m, ms); o.packets == [] && o.events == [] && o.m == m.(lastRecv := o.m.lastRecv)
    decreases |ms|
  {
    if ms != [] {
      var m1 := Step(m, ms[0].inp, ms[0].now).m;
      assert m1 == m.(lastRecv := m1.lastRecv);
      forall i | 0 <= i < |ms| - 1 ensures !Reopens(m1, ms[1..][i].inp) {
        assert !Reopens(m, ms[i + 1].inp);
      }
      ClosedAnswersNothing(m1, ms[1..]);
    }
  }

  // ---- after everything in flight was lost -----------------------------------------------------

  function Own(s: Pair, role: Role): Life
  {
    if role.Initiator? then s.i else s.r
  }

  function Opposite(role: Role): Role
  {
    if role.Initiator? then Responder else Initiator
  }

  function Peer(s: Pair, role: Role): Life
  {
    Own(s, Opposite(role))
  }

  function Later(q: seq<Packet>, n: nat): seq<Packet>
  {
    if n <= |q| then q[n..] else []
  }

  /** How much each side had sent when what was in flight got lost. */
  datatype Mark = Mark(i: nat, r: nat)

  function MarkOf(s: Pair): Mark
  {
    Mark(|s.i.sent|, |s.r.sent|)
  }

  function NewOf(s: Pair, role: Role, k: Mark): seq<Packet>
  {
    if role.Initiator? then Later(s.i.sent, k.i) else Later(s.r.sent, k.r)
  }

  /** Nothing sent before the mark is delivered any more; what is sent after it may be, or may not. */
  predicate LegalAfter(s: Pair, k: Mark, turns: seq<Turn>)
    decreases |turns|
  {
    turns == [] ||
    ((turns[0].inp.Receive? ==> turns[0].inp.p in NewOf(s, Opposite(turns[0].role), k)) &&
     LegalAfter(StepPair(s, turns[0]), k, turns[1..]))
  }

  /** A side whose FIN is not acknowledged. */
  predicate Awaiting(x: Life)
  {
    !Over(x) && !x.m.finAcked && (x.m.state.FinWait? || x.m.state.CloseWait?)
  }

  predicate NoneOf(q: seq<Packet>, t: PacketType)
  {
    forall p :: p in q ==> p.ptype != t
  }

  /** Closing, or closed, with its FIN not acknowledged. */
  predicate Unacked(x: Life)
  {
    !x.m.finAcked && (x.m.state.FinWait? || x.m.state.CloseWait? || Over(x))
  }

  /** The three places from which no FIN_ACK comes: past acknowledging, closed, or still waiting for the
      end of a handshake whose last packet was lost. */
  predicate Deaf(y: Life, newFromX: seq<Packet>)
  {
    || y.m.state.CloseWait? || Over(y)
    || (y.m.state.SynRcvd? && NoneOf(newFromX, ACK))
  }

  /** No FIN is left to be sent. */
  predicate Spent(x: Life, newFromX: seq<Packet>)
  {
    (Over(x) || Left(x.m) <= 0) && NoneOf(newFromX, FIN)
  }

  predicate Hopeless(s: Pair, role: Role, k: Mark)
  {
    var (x, y) := (Own(s, role), Peer(s, role));
    && LifeOk(x) && LifeOk(y) && Unacked(x) && NoneOf(NewOf(s, Opposite(role), k), FIN_ACK)
    && (Deaf(y, NewOf(s, role, k)) || Spent(x, NewOf(s, role, k)))
  }

  lemma LaterGrows(q: seq<Packet>, more: seq<Packet>, n: nat)
    ensures forall p :: p in Later(q + more, n) ==> p in Later(q, n) || p in more
  {
    if n <= |q| {
      assert (q + more)[n..] == q[n..] + more;
    } else if n <= |q + more| {
      assert (q + more)[n..] == more[n - |q|..];
    }
  }

  lemma WaitingPacket(m: Machine, p: Packet, now: real)
    requires Shape(m, false) && !m.finAcked && (m.state.FinWait? || m.state.CloseWait?)
    ensures var o := OnPacket(m, p, now);
      NoneOf(o.packets, ACK) && NoneOf(o.packets, FIN) && (o.m.finAcked || o.m.retries == m.retries)
  {
  }

  /** What the waiting side sends. */
  lemma WaitingSends(m: Machine, inp: Input, now: real)
    requires Shape(m, false) && !m.finAcked && (m.state.FinWait? || m.state.CloseWait?)
    ensures var o := Step(m, inp, now);
      && NoneOf(o.packets, ACK) && o.m.cfg == m.cfg
      && (Left(m) <= 0 ==> NoneOf(o.packets, FIN) && (o.m.state.Closed? || o.m.finAcked || Left(o.m) <= 0))
  {
    if inp.Receive? {
      WaitingPacket(m, inp.p, now);
      PacketKeepsSettings(m, inp.p, now);
    }
  }

  /** What the waiting side does while no FIN_ACK reaches it. */
  lemma WaitingStep(x: Life, inp: Input, now: real)
    requires LifeOk(x) && Unacked(x) && !Over(x) && (inp.Receive? ==> inp.p.ptype != FIN_ACK)
    ensures var o := Step(x.m, inp, now); var x' := Live(x, inp, now);
      && LifeOk(x') && Unacked(x') && NoneOf(o.packets, ACK)
      && (Left(x.m) <= 0 ==> NoneOf(o.packets, FIN) && (Over(x') || Left(x'.m) <= 0))
      && x'.events == (if Over(x') then x.events + o.events else x.events)
      && (Over(x') ==> o.events == [TIMED_OUT] || o.events == [CLOSED])
  {
    LiveKeepsOk(x, inp, now);
    StepSurfaces(x.m, inp, now);
    StepIsBacked(x.m, inp, now);
    WaitingSends(x.m, inp, now);
  }

  lemma DeafStep(y: Life, newFromX: seq<Packet>, inp: Input, now: real)
    requires LifeOk(y) && Deaf(y, newFromX) && !Over(y) && (inp.Receive? ==> inp.p in newFromX)
    ensures NoneOf(Step(y.m, inp, now).packets, FIN_ACK)
    ensures Deaf(Live(y, inp, now), newFromX) && LifeOk(Live(y, inp, now))
  {
    LiveKeepsOk(y, inp, now);
    if y.m.state.CloseWait? {
      SilentAboutFins(y.m, inp, now);
    }
  }

  lemma UnaskedStep(y: Life, inp: Input, now: real)
    requires LifeOk(y) && !Over(y) && (inp.Receive? ==> inp.p.ptype != FIN)
    ensures NoneOf(Step(y.m, inp, now).packets, FIN_ACK) && LifeOk(Live(y, inp, now))
  {
    LiveKeepsOk(y, inp, now);
  }

  lemma HopelessOwnStep(s: Pair, role: Role, k: Mark, inp: Input, now: real)
    requires Hopeless(s, role, k) && (inp.Receive? ==> inp.p in NewOf(s, Opposite(role), k))
    ensures var s' := StepPair(s, Turn(role, inp, now)); var (x, x') := (Own(s, role), Own(s', role));
      && Hopeless(s', role, k) && Peer(s', role) == Peer(s, role)
      && (Over(x) ==> x' == x)
      && (Over(x') && !Over(x) ==> x'.events == x.events + [TIMED_OUT] || x'.events == x.events + [CLOSED])
      && (!Over(x') ==> x'.events == x.events)
  {
    var x := Own(s, role);
    if !Over(x) {
      WaitingStep(x, inp, now);
      LaterGrows(x.sent, Step(x.m, inp, now).packets, if role.Initiator? then k.i else k.r);
    }
  }

  lemma HopelessPeerStep(s: Pair, role: Role, k: Mark, inp: Input, now: real)
    requires Hopeless(s, role, k) && (inp.Receive? ==> inp.p in NewOf(s, role, k))
    ensures var s' := StepPair(s, Turn(Opposite(role), inp, now));
      Hopeless(s', role, k) && Own(s', role) == Own(s, role)
  {
    var y := Peer(s, role);
    if !Over(y) {
      if Deaf(y, NewOf(s, role, k)) {
        DeafStep(y, NewOf(s, role, k), inp, now);
      } else {
        UnaskedStep(y, inp, now);
      }
      LaterGrows(y.sent, Step(y.m, inp, now).packets, if role.Initiator? then k.r else k.i);
    }
  }

  /** How a side that is never acknowledged can end: not at all so far, given up, or idle. */
  predicate EndsAlone(x: Life, x': Life)
  {
    if Over(x) then x' == x
    else if Over(x') then x'.events == x.events + [TIMED_OUT] || x'.events == x.events + [CLOSED]
    else x'.events == x.events
  }

  lemma {:induction false} HopelessStays(s: Pair, role: Role, k: Mark, turns: seq<Turn>)
    requires Hopeless(s, role, k) && LegalAfter(s, k, turns)
    ensures Hopeless(RunPair(s, turns), role, k) && EndsAlone(Own(s, role), Own(RunPair(s, turns), role))
    decreases |turns|
  {
    if turns != [] {
      var t := turns[0];
      if t.role == role {
        HopelessOwnStep(s, role, k, t.inp, t.now);
      } else {
        HopelessPeerStep(s, role, k, t.inp, t.now);
      }
      HopelessStays(StepPair(s, t), role, k, turns[1..]);
    }
  }

  // ---- the cure ------------------------------------------------------------------------------

  lemma PairFirst(s: Pair, k: Mark, t: Turn, rest: seq<Turn>)
    ensures RunPair(s, [t] + rest) == RunPair(StepPair(s, t), rest)
    ensures LegalAfter(s, k, [t] + rest)
      <==> (t.inp.Receive? ==> t.inp.p in NewOf(s, Opposite(t.role), k)) && LegalAfter(StepPair(s, t), k, rest)
  {
    assert ([t] + rest)[1..] == rest;
  }

  /** Hear something from the application, resend the FIN, have it delivered, and have the reply delivered. */
  function CureOf(role: Role, fin: Packet, finAck: Packet, now: real): seq<Turn>
  {
    [Turn(role, Activity, now)] + ([Turn(role, Ticking, now)] +
      ([Turn(Opposite(role), Receive(fin), now)] + ([Turn(role, Receive(finAck), now)] + [])))
  }

  /** A side whose FIN is due again, once it has heard something. */
  lemma ResendStep(x: Life, now: real)
    requires LifeOk(x) && Awaiting(x) && Left(x.m) > 0 && RetryDue(x.m, now) && x.m.cfg.idle > 0.0
    ensures var x1 := Live(x, Activity, now); var x2 := Live(x1, Ticking, now);
      && x1.sent == x.sent && x2.sent == x.sent + [FinPacket(x.m)]
      && Awaiting(x2) && x2.m.state == x.m.state && x2.m.sid == x.m.sid
  {
    LiveKeepsOk(x, Activity, now);
    assert x.sent + [] == x.sent;
  }

  lemma AnswerStep(y: Life, fin: Packet, now: real)
    requires LifeOk(y) && !Over(y) && AnswersFin(y.m) && fin.ptype == FIN && fin.session == y.m.sid
    ensures FinAckFor(y.m, fin) in Step(y.m, Receive(fin), now).packets
    ensures Live(y, Receive(fin), now).sent == y.sent + Step(y.m, Receive(fin), now).packets
  {
  }

  lemma AckStep(x: Life, finAck: Packet, now: real)
    requires LifeOk(x) && Awaiting(x) && finAck.ptype == FIN_ACK && finAck.session == x.m.sid
    ensures Live(x, Receive(finAck), now).m.finAcked
  {
  }

  lemma NewestIsLater(q: seq<Packet>, more: seq<Packet>, p: Packet)
    requires p in more
    ensures p in Later(q + more, |q|)
  {
    assert (q + more)[|q|..] == more;
  }

  /** The resent FIN cures the loss: everything sent before may be lost for good. */
  lemma ResendCures(s: Pair, role: Role, now: real)
    requires PairOk(s) && Awaiting(Own(s, role)) && AnswersFin(Peer(s, role).m) && Left(Own(s, role).m) > 0
    requires RetryDue(Own(s, role).m, now) && Own(s, role).m.cfg.idle > 0.0
    ensures var fin := FinPacket(Own(s, role).m); var turns := CureOf(role, fin, FinAckFor(Peer(s, role).m, fin), now);
      LegalAfter(s, MarkOf(s), turns) && Own(RunPair(s, turns), role).m.finAcked
  {
    var (x, y, k) := (Own(s, role), Peer(s, role), MarkOf(s));
    var fin := FinPacket(x.m);
    var finAck := FinAckFor(y.m, fin);
    var (t1, t2, t3, t4) := (Turn(role, Activity, now), Turn(role, Ticking, now),
                             Turn(Opposite(role), Receive(fin), now), Turn(role, Receive(finAck), now));
    var s1 := StepPair(s, t1);
    var s2 := StepPair(s1, t2);
    var s3 := StepPair(s2, t3);
    ResendStep(x, now);
    AnswerStep(y, fin, now);
    NewestIsLater(x.sent, [fin], fin);
    NewestIsLater(y.sent, Step(y.m, Receive(fin), now).packets, finAck);
    LiveKeepsOk(x, Activity, now);
    LiveKeepsOk(Own(s1, role), Ticking, now);
    AckStep(Own(s3, role), finAck, now);
    PairFirst(s, k, t1, [t2] + ([t3] + ([t4] + [])));
    PairFirst(s1, k, t2, [t3] + ([t4] + []));
    PairFirst(s2, k, t3, [t4] + []);
    PairFirst(s3, k, t4, []);
  }

  /** Where the peer of a side that is closing can be. */
  lemma PeerOfClosing(s: Pair, role: Role)
    requires PairOk(s) && Awaiting(Own(s, role))
    ensures var y := Peer(s, role); AnswersFin(y.m) || y.m.state.CloseWait? || Over(y) || y.m.state.SynRcvd?
  {
    var (x, y) := (Own(s, role), Peer(s, role));
    assert ESTABLISHED in x.events;
    assert y.sent != [];
  }

  /** The peer still answers FINs, and a copy is left to send. */
  predicate Curable(s: Pair, role: Role)
  {
    AnswersFin(Peer(s, role).m) && Left(Own(s, role).m) > 0
  }

  /** With everything in flight lost, some continuation still gets the FIN acknowledged. */
  ghost predicate CanBeAcked(s: Pair, role: Role)
  {
    exists turns :: LegalAfter(s, MarkOf(s), turns) && Own(RunPair(s, turns), role).m.finAcked
  }

  /** With everything in flight lost, that side gives up or goes idle in every continuation that ends it. */
  ghost predicate MustEndAlone(s: Pair, role: Role)
  {
    forall turns :: LegalAfter(s, MarkOf(s), turns) ==> EndsAlone(Own(s, role), Own(RunPair(s, turns), role))
  }

  lemma CureExists(s: Pair, role: Role)
    requires PairOk(s) && Awaiting(Own(s, role)) && Own(s, role).m.cfg.idle > 0.0
    requires Curable(s, role)
    ensures CanBeAcked(s, role)
  {
    var (x, y) := (Own(s, role), Peer(s, role));
    var now := x.m.since + x.m.cfg.controlRto;
    ResendCures(s, role, now);
    var turns := CureOf(role, FinPacket(x.m), FinAckFor(y.m, FinPacket(x.m)), now);
    assert LegalAfter(s, MarkOf(s), turns);
  }

  /** When it is not cured, that side ends, if it ends, by giving up or by going idle. */
  lemma UncuredEndsAlone(s: Pair, role: Role, turns: seq<Turn>)
    requires PairOk(s) && Awaiting(Own(s, role)) && LegalAfter(s, MarkOf(s), turns)
    requires !Curable(s, role)
    ensures var x' := Own(RunPair(s, turns), role);
      !x'.m.finAcked && EndsAlone(Own(s, role), x') && (Over(x') || Awaiting(x'))
  {
    PeerOfClosing(s, role);
    HopelessStays(s, role, MarkOf(s), turns);
  }

  lemma NoCureExists(s: Pair, role: Role)
    requires PairOk(s) && Awaiting(Own(s, role)) && !Curable(s, role)
    ensures !CanBeAcked(s, role) && MustEndAlone(s, role)
  {
    forall turns | LegalAfter(s, MarkOf(s), turns)
      ensures !Own(RunPair(s, turns), role).m.finAcked && EndsAlone(Own(s, role), Own(RunPair(s, turns), role))
    {
      UncuredEndsAlone(s, role, turns);
    }
  }

  /** The claim that resending cures a lost FIN_ACK, and exactly when it is true, in every state two sides
      can reach: suppose everything in flight is lost while a side waits for the acknowledgement of its FIN.
      It can still be acknowledged if and only if the peer is established or in FIN_WAIT and a copy is left to
      send; if it cannot, it gives up or goes idle. */
  lemma LostReplyIsCuredIff(s0: Pair, run: seq<Turn>, s: Pair, role: Role)
    requires FreshPair(s0) && Legal(s0, run) && s == RunPair(s0, run)
    requires Awaiting(Own(s, role)) && Own(s, role).m.cfg.idle > 0.0
    ensures CanBeAcked(s, role) <==> Curable(s, role)
    ensures !Curable(s, role) ==> MustEndAlone(s, role)
  {
    RunKeepsPair(s0, run);
    if Curable(s, role) {
      CureExists(s, role);
    } else {
      NoCureExists(s, role);
    }
  }

  // ---- how a close without acknowledgement ends -------------------------------------------------

  /** Ticks at `since` + gap, `since` + 2 gap, ... */
  function EvenTimes(since: real, gap: real, n: nat): (times: seq<real>)
    ensures |times| == n
    decreases n
  {
    if n == 0 then [] else [since + gap] + EvenTimes(since + gap, gap, n - 1)
  }

  lemma {:induction false} EvenTimeAt(since: real, gap: real, n: nat, k: nat)
    requires k < n
    ensures EvenTimes(since, gap, n)[k] == since + (k + 1) as real * gap
    decreases n
  {
    if k > 0 {
      EvenTimeAt(since + gap, gap, n - 1, k - 1);
    }
  }

  lemma {:induction false} EvenTimesAreSpaced(since: real, gap: real, n: nat)
    ensures Spaced(since, gap, EvenTimes(since, gap, n))
    decreases n
  {
    if n > 0 {
      assert EvenTimes(since, gap, n)[1..] == EvenTimes(since + gap, gap, n - 1);
      EvenTimesAreSpaced(since + gap, gap, n - 1);
    }
  }

  lemma {:induction false} SpacedIsLater(since: real, gap: real, times: seq<real>, k: nat)
    requires Spaced(since, gap, times) && gap >= 0.0 && k < |times|
    ensures times[0] <= times[k]
    decreases |times|
  {
    if k > 0 {
      SpacedIsLater(times[0], gap, times[1..], k - 1);
    }
  }

  predicate MidClose(m: Machine)
  {
    Shape(m, false) && m.pending.Some? && (m.state.FinWait? || m.state.CloseWait?)
  }

  /** A close that is not acknowledged, with ticks far enough apart to resend: it gives up, with TIMED_OUT,
      if the tick after the last copy still comes inside the idle time-out, and ends idle, with CLOSED, if not. */
  lemma {:induction false} LonelyCloseEnds(m: Machine, times: seq<real>)
    requires MidClose(m) && m.cfg.controlRto >= 0.0 && Spaced(m.since, m.cfg.controlRto, times) && |times| > Left(m)
    ensures Left(m) >= 0
    ensures var o := Ticks(m, times); var inTime := times[Left(m)] - m.lastRecv.value < m.cfg.idle;
      && o.m.state.Closed? && o.events == [if inTime then TIMED_OUT else CLOSED]
      && (inTime ==> o.packets == Copies(m.pending.value, Left(m)))
    decreases |times|
  {
    SpacedIsLater(m.since, m.cfg.controlRto, times, Left(m));
    var o := OnTick(m, times[0]);
    if IdleExpired(m, times[0]) || Left(m) == 0 {
      ClosedStaysQuiet(o.m, times[1..]);
    } else {
      LonelyCloseEnds(o.m, times[1..]);
      assert times[1..][Left(o.m)] == times[Left(m)];
      MoreCopies(m.pending.value, Left(o.m));
    }
  }

  /** With ticks exactly a control_rto apart: which of the two it is. */
  predicate GivesUpInTime(m: Machine)
  {
    (Left(m) + 1) as real * m.cfg.controlRto < m.cfg.idle + (if m.lastRecv.Some? then m.lastRecv.value else 0.0) - m.since
  }

  lemma GivingUpTick(m: Machine, left: nat, n: nat)
    requires m.lastRecv.Some? && left == Left(m) && left < n
    ensures EvenTimes(m.since, m.cfg.controlRto, n)[left] - m.lastRecv.value < m.cfg.idle <==> GivesUpInTime(m)
  {
    EvenTimeAt(m.since, m.cfg.controlRto, n, left);
    Rearranged(m.since, (left + 1) as real * m.cfg.controlRto, m.lastRecv.value, m.cfg.idle);
  }

  lemma Rearranged(since: real, wait: real, heard: real, idle: real)
    ensures since + wait - heard < idle <==> wait < idle + heard - since
  {
  }

  lemma EvenlySpacedCloseEnds(m: Machine, times: seq<real>)
    requires MidClose(m) && m.cfg.controlRto >= 0.0 && |times| > Left(m)
    requires times == EvenTimes(m.since, m.cfg.controlRto, |times|)
    ensures var o := Ticks(m, times);
      && o.m.state.Closed? && o.events == [if GivesUpInTime(m) then TIMED_OUT else CLOSED]
      && (GivesUpInTime(m) ==> o.packets == Copies(m.pending.value, Left(m)))
  {
    EvenTimesAreSpaced(m.since, m.cfg.controlRto, |times|);
    LonelyCloseEnds(m, times);
    GivingUpTick(m, Left(m), |times|);
  }

  // ---- resending to a peer that does not answer --------------------------------------------------

  /** `n` times: a tick, and the FIN it may have resent arrives. */
  function Resends(role: Role, fin: Packet, since: real, gap: real, n: nat): seq<Turn>
    decreases n
  {
    if n == 0 then []
    else [Turn(role, Ticking, since + gap)] + ([Turn(Opposite(role), Receive(fin), since + gap)] +
           Resends(role, fin, since + gap, gap, n - 1))
  }

  predicate NoLongerAnswers(y: Life)
  {
    y.m.state.CloseWait? || Over(y)
  }

  /** Such a peer takes the FIN in and sends nothing. */
  lemma FinIsTaken(y: Life, fin: Packet, now: real)
    requires LifeOk(y) && NoLongerAnswers(y) && fin.ptype == FIN
    ensures var y' := Live(y, Receive(fin), now);
      && LifeOk(y') && NoLongerAnswers(y') && y'.sent == y.sent && y'.events == y.events && y'.m.state == y.m.state
      && (Over(y) ==> y' == y)
  {
    LiveKeepsOk(y, Receive(fin), now);
  }

  /** What becomes of a life under ticks. */
  predicate Ticked(x: Life, x': Life, o: Outcome)
  {
    x'.m == o.m && x'.sent == x.sent + o.packets && x'.events == x.events + o.events && (Over(x') <==> o.m.state.Closed?)
  }

  lemma TickedOnce(x: Life, now: real, rest: Outcome, x': Life)
    requires LifeOk(x) && x.begun && !Over(x) && Ticked(Live(x, Ticking, now), x', rest)
    ensures var o := OnTick(x.m, now); Ticked(x, x', Outcome(rest.m, o.packets + rest.packets, o.events + rest.events))
  {
    var o := OnTick(x.m, now);
    assert x.sent + o.packets + rest.packets == x.sent + (o.packets + rest.packets);
    assert x.events + o.events + rest.events == x.events + (o.events + rest.events);
  }

  lemma PairStep(s: Pair, t: Turn, rest: seq<Turn>)
    ensures RunPair(s, [t] + rest) == RunPair(StepPair(s, t), rest)
    ensures Legal(s, [t] + rest) <==> Enabled(s, t) && Legal(StepPair(s, t), rest)
  {
    assert ([t] + rest)[1..] == rest;
  }

  /** However often the FIN is resent and arrives, the sender might as well be alone with its timer. */
  lemma {:induction false} ResendsAreTicks(s: Pair, role: Role, fin: Packet, since: real, gap: real, n: nat)
    requires LifeOk(Own(s, role)) && Own(s, role).begun && LifeOk(Peer(s, role)) && NoLongerAnswers(Peer(s, role))
    requires fin in Own(s, role).sent && fin.ptype == FIN
    ensures var turns := Resends(role, fin, since, gap, n); var s' := RunPair(s, turns);
      && Legal(s, turns)
      && Ticked(Own(s, role), Own(s', role), Ticks(Own(s, role).m, EvenTimes(since, gap, n)))
      && Peer(s', role).sent == Peer(s, role).sent && Peer(s', role).events == Peer(s, role).events
      && (Over(Peer(s, role)) ==> Peer(s', role) == Peer(s, role))
    decreases n
  {
    if n > 0 {
      var now := since + gap;
      var (t1, t2) := (Turn(role, Ticking, now), Turn(Opposite(role), Receive(fin), now));
      var s1 := StepPair(s, t1);
      var s2 := StepPair(s1, t2);
      var rest := Resends(role, fin, now, gap, n - 1);
      var x := Own(s, role);
      LiveKeepsOk(x, Ticking, now);
      FinIsTaken(Peer(s, role), fin, now);
      ResendsAreTicks(s2, role, fin, now, gap, n - 1);
      PairStep(s, t1, [t2] + rest);
      PairStep(s1, t2, rest);
      assert EvenTimes(since, gap, n)[1..] == EvenTimes(now, gap, n - 1);
      if Over(x) {
        ClosedStaysQuiet(x.m, EvenTimes(since, gap, n));
        ClosedStaysQuiet(x.m, EvenTimes(now, gap, n - 1));
      } else {
        TickedOnce(x, now, Ticks(Own(s1, role).m, EvenTimes(now, gap, n - 1)), Own(RunPair(s2, rest), role));
      }
    }
  }

  /** In every reachable state in which a side waits for the acknowledgement of its FIN and the peer does
      not answer FINs any more: resending on time and delivering every copy ends with TIMED_OUT after the last
      copy or idle with CLOSED, as the inequality says, and never with an acknowledgement. */
  lemma ResendingInVain(s: Pair, role: Role, n: nat)
    requires PairOk(s) && Awaiting(Own(s, role)) && NoLongerAnswers(Peer(s, role))
    requires Own(s, role).m.cfg.controlRto >= 0.0 && n > Left(Own(s, role).m)
    ensures var x := Own(s, role); var m := x.m;
      var turns := Resends(role, FinPacket(m), m.since, m.cfg.controlRto, n); var x' := Own(RunPair(s, turns), role);
      && Legal(s, turns) && Over(x') && !x'.m.finAcked
      && x'.events == x.events + [if GivesUpInTime(m) then TIMED_OUT else CLOSED]
      && (GivesUpInTime(m) ==> x'.sent == x.sent + Copies(FinPacket(m), Left(m)))
      && Peer(RunPair(s, turns), role).sent == Peer(s, role).sent
      && (Over(Peer(s, role)) ==> Peer(RunPair(s, turns), role) == Peer(s, role))
  {
    var x := Own(s, role);
    ResendsAreTicks(s, role, FinPacket(x.m), x.m.since, x.m.cfg.controlRto, n);
    EvenlySpacedCloseEnds(x.m, EvenTimes(x.m.since, x.m.cfg.controlRto, n));
    TicksKeepUnacked(x.m, EvenTimes(x.m.since, x.m.cfg.controlRto, n));
  }

  lemma {:induction false} TicksKeepUnacked(m: Machine, times: seq<real>)
    ensures Ticks(m, times).m.finAcked == m.finAcked
    decreases |times|
  {
    if times != [] {
      TicksKeepUnacked(OnTick(m, times[0]).m, times[1..]);
    }
  }

  // ---- two runs ------------------------------------------------------------------------------

  /** The packets of a pair that opens with `s`. */
  function SynOf(s: Pair): Packet { Make(s.i.m.sid, SYN, s.i.m.cfg.isn, 0, FLAG_SYN) }
  function SynAckOf(s: Pair): Packet { Make(s.i.m.sid, SYN_ACK, s.r.m.cfg.isn, s.i.m.cfg.isn + 1, FLAG_SYN + FLAG_ACK) }
  function AckOf(s: Pair): Packet { Make(s.i.m.sid, ACK, s.i.m.cfg.isn + 1, s.r.m.cfg.isn + 1, FLAG_ACK) }
  function FinOf(s: Pair, role: Role): Packet { Make(s.i.m.sid, FIN, Own(s, role).m.cfg.isn + 1, 0, FLAG_FIN) }
  function FinAckOf(s: Pair, role: Role): Packet
  {
    Make(s.i.m.sid, FIN_ACK, Own(s, role).m.cfg.isn + 1, Own(s, Opposite(role)).m.cfg.isn + 2, FLAG_FIN + FLAG_ACK)
  }

  /** A handshake in which nothing is lost; then the initiator closes and its FIN arrives. */
  function OpenAndClose(s: Pair): seq<Turn>
  {
    [Turn(Initiator, Opening, 0.0)] + ([Turn(Responder, Receive(SynOf(s)), 0.0)] +
      ([Turn(Initiator, Receive(SynAckOf(s)), 0.0)] + ([Turn(Responder, Receive(AckOf(s)), 0.0)] +
        ([Turn(Initiator, Closing, 0.0)] + ([Turn(Responder, Receive(FinOf(s, Initiator)), 0.0)] + [])))))
  }

  function InitiatorAt(s: Pair, state: State, pending: Option<Packet>): Machine
  {
    Machine(s.i.m.cfg, s.i.m.sid, s.i.m.cfg.isn + 1, state, Some(0.0), Some(0.0), false, false, pending, 0.0, 0)
  }

  function ResponderAt(s: Pair, state: State, finSeen: bool, pending: Option<Packet>): Machine
  {
    Machine(s.r.m.cfg, s.i.m.sid, s.r.m.cfg.isn + 1, state, Some(0.0), Some(0.0), false, finSeen, pending, 0.0, 0)
  }

  lemma InitiatorOpens(s: Pair)
    requires FreshPair(s)
    ensures var x1 := Live(s.i, Opening, 0.0); var x2 := Live(x1, Receive(SynAckOf(s)), 0.0);
      var x3 := Live(x2, Closing, 0.0);
      && x1.sent == [SynOf(s)]
      && x2.m == InitiatorAt(s, Established, None) && x2.sent == [SynOf(s), AckOf(s)]
      && x3.m == InitiatorAt(s, FinWait, Some(FinOf(s, Initiator))) && x3.sent == [SynOf(s), AckOf(s), FinOf(s, Initiator)]
      && x3.events == [ESTABLISHED] && x3.begun
  {
  }

  lemma ResponderOpens(s: Pair)
    requires FreshPair(s)
    ensures var y1 := Live(s.r, Receive(SynOf(s)), 0.0); var y2 := Live(y1, Receive(AckOf(s)), 0.0);
      var y3 := Live(y2, Receive(FinOf(s, Initiator)), 0.0);
      && y1.sent == [SynAckOf(s)]
      && y2.m == ResponderAt(s, Established, false, None) && y2.sent == [SynAckOf(s)]
      && y3.m == ResponderAt(s, CloseWait, true, Some(FinOf(s, Responder)))
      && y3.sent == [SynAckOf(s), FinAckOf(s, Responder), FinOf(s, Responder)]
      && y3.events == [ESTABLISHED, PEER_CLOSED] && y3.begun
  {
  }

  /** The two lives at the end of it. */
  lemma OpenAndCloseRuns(s: Pair)
    requires FreshPair(s)
    ensures Legal(s, OpenAndClose(s))
    ensures var e := RunPair(s, OpenAndClose(s));
      && e.i.m == InitiatorAt(s, FinWait, Some(FinOf(s, Initiator))) && e.i.events == [ESTABLISHED] && e.i.begun
      && e.i.sent == [SynOf(s), AckOf(s), FinOf(s, Initiator)]
      && e.r.m == ResponderAt(s, CloseWait, true, Some(FinOf(s, Responder))) && e.r.events == [ESTABLISHED, PEER_CLOSED] && e.r.begun
      && e.r.sent == [SynAckOf(s), FinAckOf(s, Responder), FinOf(s, Responder)]
  {
    var (x1, y1) := (Live(s.i, Opening, 0.0), Live(s.r, Receive(SynOf(s)), 0.0));
    var (x2, y2) := (Live(x1, Receive(SynAckOf(s)), 0.0), Live(y1, Receive(AckOf(s)), 0.0));
    var (x3, y3) := (Live(x2, Closing, 0.0), Live(y2, Receive(FinOf(s, Initiator)), 0.0));
    InitiatorOpens(s);
    ResponderOpens(s);
    var t6 := [Turn(Responder, Receive(FinOf(s, Initiator)), 0.0)] + [];
    var t5 := [Turn(Initiator, Closing, 0.0)] + t6;
    var t4 := [Turn(Responder, Receive(AckOf(s)), 0.0)] + t5;
    var t3 := [Turn(Initiator, Receive(SynAckOf(s)), 0.0)] + t4;
    var t2 := [Turn(Responder, Receive(SynOf(s)), 0.0)] + t3;
    PairStep(s, Turn(Initiator, Opening, 0.0), t2);
    PairStep(Pair(x1, s.r), Turn(Responder, Receive(SynOf(s)), 0.0), t3);
    PairStep(Pair(x1, y1), Turn(Initiator, Receive(SynAckOf(s)), 0.0), t4);
    PairStep(Pair(x2, y1), Turn(Responder, Receive(AckOf(s)), 0.0), t5);
    PairStep(Pair(x2, y2), Turn(Initiator, Closing, 0.0), t6);
    PairStep(Pair(x3, y2), Turn(Responder, Receive(FinOf(s, Initiator)), 0.0), []);
  }

  lemma {:induction false} PairAppend(s: Pair, a: seq<Turn>, b: seq<Turn>)
    ensures RunPair(s, a + b) == RunPair(RunPair(s, a), b)
    ensures Legal(s, a) && Legal(RunPair(s, a), b) ==> Legal(s, a + b)
    decreases |a|
  {
    if a == [] {
      assert a + b == b;
    } else {
      assert (a + b)[1..] == a[1..] + b;
      PairAppend(StepPair(s, a[0]), a[1..], b);
    }
  }

  /** Whether the last copy's time comes before the idle time-out, when nothing is heard after time 0. */
  predicate RetriesFitIdle(cfg: Settings)
  {
    (cfg.maxRetries + 2) as real * cfg.controlRto < cfg.idle
  }

  lemma CopiesOfFin(before: seq<Packet>, p: Packet, n: nat)
    requires p.ptype == FIN
    ensures Count(before + Copies(p, n), FIN) == Count(before, FIN) + n
  {
    CountAppend(before, Copies(p, n), FIN);
    CountCopies(p, n);
  }

  lemma {:induction false} CountCopies(p: Packet, n: nat)
    ensures Count(Copies(p, n), p.ptype) == n
    decreases n
  {
    if n > 0 {
      assert Copies(p, n)[1..] == Copies(p, n - 1);
      CountCopies(p, n - 1);
    }
  }

  lemma CountInOpening(s: Pair)
    ensures Count([SynOf(s), AckOf(s), FinOf(s, Initiator)], FIN) == 1
    ensures Count([SynAckOf(s), FinAckOf(s, Responder), FinOf(s, Responder)], FIN_ACK) == 1
    ensures Count([SynAckOf(s), FinAckOf(s, Responder), FinOf(s, Responder)], FIN) == 1
  {
    var (q, r) := ([SynOf(s), AckOf(s), FinOf(s, Initiator)], [SynAckOf(s), FinAckOf(s, Responder), FinOf(s, Responder)]);
    assert q == [SynOf(s)] + [AckOf(s)] + [FinOf(s, Initiator)];
    CountAppend([SynOf(s)] + [AckOf(s)], [FinOf(s, Initiator)], FIN);
    CountAppend([SynOf(s)], [AckOf(s)], FIN);
    assert r == [SynAckOf(s)] + [FinAckOf(s, Responder)] + [FinOf(s, Responder)];
    CountAppend([SynAckOf(s)] + [FinAckOf(s, Responder)], [FinOf(s, Responder)], FIN);
    CountAppend([SynAckOf(s)], [FinAckOf(s, Responder)], FIN);
    CountAppend([SynAckOf(s)] + [FinAckOf(s, Responder)], [FinOf(s, Responder)], FIN_ACK);
    CountAppend([SynAckOf(s)], [FinAckOf(s, Responder)], FIN_ACK);
  }

  lemma SameDeadline(m: Machine)
    requires m.retries == 0 && m.since == 0.0 && m.lastRecv == Some(0.0)
    ensures Left(m) == m.cfg.maxRetries + 1 && (GivesUpInTime(m) <==> RetriesFitIdle(m.cfg))
  {
  }

  /** A side has closed at time 0, having just heard something, and its peer does not answer any more. */
  predicate ClosedInVain(s: Pair, role: Role, fin: Packet)
  {
    var (x, y) := (Own(s, role), Peer(s, role));
    && PairOk(s) && Awaiting(x) && NoLongerAnswers(y) && fin == FinPacket(x.m)
    && Count(x.sent, FIN) == 1 && x.m.retries == 0 && x.m.since == 0.0 && x.m.lastRecv == Some(0.0)
  }

  /** Resending from such a state, with the condition read off the settings. */
  predicate EndsInVain(s: Pair, s': Pair, role: Role)
  {
    var (x, x', cfg) := (Own(s, role), Own(s', role), Own(s, role).m.cfg);
    && Over(x') && !x'.m.finAcked
    && x'.events == x.events + [if RetriesFitIdle(cfg) then TIMED_OUT else CLOSED]
    && (RetriesFitIdle(cfg) ==> Count(x'.sent, FIN) == cfg.maxRetries + 2)
    && Peer(s', role).sent == Peer(s, role).sent
    && (Over(Peer(s, role)) ==> Peer(s', role) == Peer(s, role))
  }

  /** How often a run hands `p` to a side. */
  function Deliveries(turns: seq<Turn>, role: Role, p: Packet): nat
  {
    if turns == [] then 0
    else (if turns[0].role == role && turns[0].inp == Receive(p) then 1 else 0) + Deliveries(turns[1..], role, p)
  }

  lemma {:induction false} DeliveriesAppend(a: seq<Turn>, b: seq<Turn>, role: Role, p: Packet)
    ensures Deliveries(a + b, role, p) == Deliveries(a, role, p) + Deliveries(b, role, p)
  {
    if a == [] {
      assert a + b == b;
    } else {
      assert (a + b)[1..] == a[1..] + b;
      DeliveriesAppend(a[1..], b, role, p);
    }
  }

  lemma {:induction false} ResendsDeliver(role: Role, fin: Packet, since: real, gap: real, n: nat)
    ensures Deliveries(Resends(role, fin, since, gap, n), Opposite(role), fin) == n
    decreases n
  {
    if n > 0 {
      var rest := Resends(role, fin, since + gap, gap, n - 1);
      var t1, t2 := Turn(role, Ticking, since + gap), Turn(Opposite(role), Receive(fin), since + gap);
      ResendsDeliver(role, fin, since + gap, gap, n - 1);
      assert ([t1] + ([t2] + rest))[1..] == [t2] + rest && ([t2] + rest)[1..] == rest;
    }
  }

  lemma InVainFromZero(s: Pair, role: Role, fin: Packet) returns (back: seq<Turn>)
    requires ClosedInVain(s, role, fin) && Own(s, role).m.cfg.controlRto >= 0.0
    ensures Legal(s, back) && EndsInVain(s, RunPair(s, back), role)
    ensures Deliveries(back, Opposite(role), fin) == Own(s, role).m.cfg.maxRetries + 2
  {
    var x := Own(s, role);
    SameDeadline(x.m);
    ResendingInVain(s, role, x.m.cfg.maxRetries + 2);
    CopiesOfFin(x.sent, fin, x.m.cfg.maxRetries + 1);
    ResendsDeliver(role, fin, 0.0, x.m.cfg.controlRto, x.m.cfg.maxRetries + 2);
    return Resends(role, fin, 0.0, x.m.cfg.controlRto, x.m.cfg.maxRetries + 2);
  }

  lemma InVainAfter(s: Pair, first: seq<Turn>, e: Pair, back: seq<Turn>, role: Role)
    requires Legal(s, first) && e == RunPair(s, first) && Legal(e, back) && EndsInVain(e, RunPair(e, back), role)
    ensures Legal(s, first + back) && EndsInVain(e, RunPair(s, first + back), role)
  {
    PairAppend(s, first, back);
  }

  lemma DeliveriesFirst(t: Turn, rest: seq<Turn>, role: Role, p: Packet)
    ensures Deliveries([t] + rest, role, p) == (if t.role == role && t.inp == Receive(p) then 1 else 0) + Deliveries(rest, role, p)
  {
    assert ([t] + rest)[1..] == rest;
  }

  lemma OpeningDelivers(s: Pair, role: Role, fin: Packet)
    requires fin.ptype == FIN
    ensures Deliveries(OpenAndClose(s), role, fin) == if role.Responder? && fin == FinOf(s, Initiator) then 1 else 0
  {
    var t6 := [Turn(Responder, Receive(FinOf(s, Initiator)), 0.0)] + [];
    var t5 := [Turn(Initiator, Closing, 0.0)] + t6;
    var t4 := [Turn(Responder, Receive(AckOf(s)), 0.0)] + t5;
    var t3 := [Turn(Initiator, Receive(SynAckOf(s)), 0.0)] + t4;
    var t2 := [Turn(Responder, Receive(SynOf(s)), 0.0)] + t3;
    DeliveriesFirst(Turn(Responder, Receive(FinOf(s, Initiator)), 0.0), [], role, fin);
    DeliveriesFirst(Turn(Initiator, Closing, 0.0), t6, role, fin);
    DeliveriesFirst(Turn(Responder, Receive(AckOf(s)), 0.0), t5, role, fin);
    DeliveriesFirst(Turn(Initiator, Receive(SynAckOf(s)), 0.0), t4, role, fin);
    DeliveriesFirst(Turn(Responder, Receive(SynOf(s)), 0.0), t3, role, fin);
    DeliveriesFirst(Turn(Initiator, Opening, 0.0), t2, role, fin);
  }

  lemma StuckAfterOpening(s: Pair, e: Pair)
    requires FreshPair(s) && PairOk(e)
    requires e.i.m == InitiatorAt(s, FinWait, Some(FinOf(s, Initiator))) && e.i.sent == [SynOf(s), AckOf(s), FinOf(s, Initiator)]
    requires e.r.m == ResponderAt(s, CloseWait, true, Some(FinOf(s, Responder)))
    ensures ClosedInVain(e, Initiator, FinOf(s, Initiator))
  {
    CountInOpening(s);
  }

  /** A run after which the initiator waits for an acknowledgement that was sent and lost. */
  lemma LosesFirstFinAck(s: Pair) returns (first: seq<Turn>, e: Pair)
    requires FreshPair(s)
    ensures Legal(s, first) && e == RunPair(s, first) && ClosedInVain(e, Initiator, FinOf(s, Initiator))
    ensures e.i.m.cfg == s.i.m.cfg && e.i.events == [ESTABLISHED] && Count(e.r.sent, FIN_ACK) == 1
    ensures Deliveries(first, Responder, FinOf(s, Initiator)) == 1
  {
    first, e := OpenAndClose(s), RunPair(s, OpenAndClose(s));
    OpenAndCloseRuns(s);
    RunKeepsPair(s, OpenAndClose(s));
    CountInOpening(s);
    StuckAfterOpening(s, e);
    OpeningDelivers(s, Responder, FinOf(s, Initiator));
  }

  /** The loss that resending is there to cure, uncured, for any settings: one FIN_ACK is lost, every copy of
      the FIN arrives, and the side that closed never learns of it. With time for all its retries it sends
      max_control_retries + 2 copies and gives up with TIMED_OUT; otherwise it reports CLOSED when idle. */
  lemma LostFinAckIsNotCured(s: Pair) returns (turns: seq<Turn>)
    requires FreshPair(s) && s.i.m.cfg.controlRto >= 0.0
    ensures Legal(s, turns)
    ensures var e := RunPair(s, turns); var cfg := s.i.m.cfg;
      && Over(e.i) && !e.i.m.finAcked
      && e.i.events == [ESTABLISHED, if RetriesFitIdle(cfg) then TIMED_OUT else CLOSED]
      && (RetriesFitIdle(cfg) ==> Count(e.i.sent, FIN) == cfg.maxRetries + 2)
      && Count(e.r.sent, FIN_ACK) == 1
    ensures Deliveries(turns, Responder, FinOf(s, Initiator)) == s.i.m.cfg.maxRetries + 3
  {
    var first, e := LosesFirstFinAck(s);
    var back := InVainFromZero(e, Initiator, FinOf(s, Initiator));
    InVainAfter(s, first, e, back, Initiator);
    DeliveriesAppend(first, back, Responder, FinOf(s, Initiator));
    return first + back;
  }

  /** Two sides with the source's resend settings, and a given heartbeat interval and idle time-out. */
  function DefaultPair(sid: int, isnI: int, isnR: int, heartbeat: real, idle: real): Pair
  {
    Pair(NewLife(Settings(true, isnI, heartbeat, idle, 0.5, 5), sid), NewLife(Settings(false, isnR, heartbeat, idle, 0.5, 5), sid))
  }

  /** With the default idle time-out of 3 seconds the loss ends as a CLOSED that no acknowledgement backs, ... */
  lemma LostFinAckByDefault(sid: int, isnI: int, isnR: int) returns (turns: seq<Turn>)
    ensures Legal(DefaultPair(sid, isnI, isnR, 1.0, 3.0), turns)
    ensures var e := RunPair(DefaultPair(sid, isnI, isnR, 1.0, 3.0), turns);
      e.i.events == [ESTABLISHED, CLOSED] && !e.i.m.finAcked && Count(e.r.sent, FIN_ACK) == 1
  {
    turns := LostFinAckIsNotCured(DefaultPair(sid, isnI, isnR, 1.0, 3.0));
  }

  /** ... and with the 120 seconds of the optical peer as TIMED_OUT, after seven copies that all arrived. */
  lemma LostFinAckOptically(sid: int, isnI: int, isnR: int) returns (turns: seq<Turn>)
    ensures var s := DefaultPair(sid, isnI, isnR, 5.0, 120.0);
      Legal(s, turns) && Deliveries(turns, Responder, FinOf(s, Initiator)) >= 7
    ensures var e := RunPair(DefaultPair(sid, isnI, isnR, 5.0, 120.0), turns);
      && e.i.events == [ESTABLISHED, TIMED_OUT] && !e.i.m.finAcked
      && Count(e.i.sent, FIN) == 7 && Count(e.r.sent, FIN_ACK) == 1
  {
    turns := LostFinAckIsNotCured(DefaultPair(sid, isnI, isnR, 5.0, 120.0));
  }

  /** The reply and the responder's FIN do arrive: the initiator acknowledges it and is closed. */
  function ClosedFirst(s: Pair): seq<Turn>
  {
    OpenAndClose(s) + ([Turn(Initiator, Receive(FinAckOf(s, Responder)), 0.0)] +
      ([Turn(Initiator, Receive(FinOf(s, Responder)), 0.0)] + []))
  }

  lemma ClosedFirstRuns(s: Pair)
    requires FreshPair(s)
    ensures Legal(s, ClosedFirst(s))
    ensures var (e, f) := (RunPair(s, OpenAndClose(s)), RunPair(s, ClosedFirst(s)));
      && f.r == e.r && Over(f.i) && f.i.m.finAcked && f.i.m.pending.None? && f.i.events == [ESTABLISHED, CLOSED]
      && FinAckOf(s, Initiator) in f.i.sent
  {
    var e := RunPair(s, OpenAndClose(s));
    var (t1, t2) := (Turn(Initiator, Receive(FinAckOf(s, Responder)), 0.0), Turn(Initiator, Receive(FinOf(s, Responder)), 0.0));
    OpenAndCloseRuns(s);
    PairAppend(s, OpenAndClose(s), [t1] + ([t2] + []));
    PairStep(e, t1, [t2] + []);
    PairStep(StepPair(e, t1), t2, []);
    GracefulEnd(s, e.i);
  }

  lemma GracefulEnd(s: Pair, x: Life)
    requires x.m == InitiatorAt(s, FinWait, Some(FinOf(s, Initiator))) && x.events == [ESTABLISHED] && x.begun
    ensures var x2 := Live(Live(x, Receive(FinAckOf(s, Responder)), 0.0), Receive(FinOf(s, Responder)), 0.0);
      && Over(x2) && x2.m.finAcked && x2.m.pending.None? && x2.events == [ESTABLISHED, CLOSED]
      && FinAckOf(s, Initiator) in x2.sent
  {
  }

  lemma ClosedFirstDelivers(s: Pair)
    ensures Deliveries(ClosedFirst(s), Initiator, FinOf(s, Responder)) == 1
  {
    var t1 := Turn(Initiator, Receive(FinAckOf(s, Responder)), 0.0);
    var t2 := Turn(Initiator, Receive(FinOf(s, Responder)), 0.0);
    OpeningDelivers(s, Initiator, FinOf(s, Responder));
    DeliveriesAppend(OpenAndClose(s), [t1] + ([t2] + []), Initiator, FinOf(s, Responder));
    DeliveriesFirst(t1, [t2] + [], Initiator, FinOf(s, Responder));
    DeliveriesFirst(t2, [], Initiator, FinOf(s, Responder));
  }

  /** A run after which the initiator is closed and the responder waits for the acknowledgement it sent. */
  lemma LosesLastFinAck(s: Pair) returns (first: seq<Turn>, e: Pair)
    requires FreshPair(s)
    ensures Legal(s, first) && e == RunPair(s, first) && ClosedInVain(e, Responder, FinOf(s, Responder))
    ensures e.r.m.cfg == s.r.m.cfg && e.r.events == [ESTABLISHED, PEER_CLOSED]
    ensures Over(e.i) && e.i.m.pending.None? && e.i.events == [ESTABLISHED, CLOSED] && FinAckOf(s, Initiator) in e.i.sent
    ensures Deliveries(first, Initiator, FinOf(s, Responder)) == 1
  {
    first, e := ClosedFirst(s), RunPair(s, ClosedFirst(s));
    OpenAndCloseRuns(s);
    ClosedFirstRuns(s);
    RunKeepsPair(s, ClosedFirst(s));
    CountInOpening(s);
    ClosedFirstDelivers(s);
  }

  /** The other half, for any settings: the last FIN_ACK is lost, the side that sent it is closed, every copy
      of its peer's FIN reaches it, and the peer, although it did all it should, gives up or goes idle. */
  lemma LastLostFinAckIsNotCured(s: Pair) returns (turns: seq<Turn>)
    requires FreshPair(s) && s.r.m.cfg.controlRto >= 0.0
    ensures Legal(s, turns)
    ensures var e := RunPair(s, turns); var cfg := s.r.m.cfg;
      && e.i.events == [ESTABLISHED, CLOSED] && FinAckOf(s, Initiator) in e.i.sent
      && e.i.m.state.Closed? && e.i.m.pending.None?
      && Over(e.r) && !e.r.m.finAcked
      && e.r.events == [ESTABLISHED, PEER_CLOSED, if RetriesFitIdle(cfg) then TIMED_OUT else CLOSED]
      && (RetriesFitIdle(cfg) ==> Count(e.r.sent, FIN) == cfg.maxRetries + 2)
    ensures Deliveries(turns, Initiator, FinOf(s, Responder)) == s.r.m.cfg.maxRetries + 3
  {
    var first, e := LosesLastFinAck(s);
    var back := InVainFromZero(e, Responder, FinOf(s, Responder));
    InVainAfter(s, first, e, back, Responder);
    DeliveriesAppend(first, back, Initiator, FinOf(s, Responder));
    return first + back;
  }
}
