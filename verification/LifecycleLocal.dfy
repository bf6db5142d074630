/** What one lifecycle machine keeps through one incarnation, whatever arrives and whenever it ticks. */
module LifecycleLocal {
  import opened Prelude
  import opened Packets
  import opened Lifecycle

  /** The pending packet is always the one whose reply the state awaits. */
  predicate Awaits(m: Machine)
  {
    match m.state
    case Closed | Established => m.pending.None?
    case SynSent => m.pending == Some(Make(m.sid, SYN, m.cfg.isn, 0, FLAG_SYN))
    case SynRcvd => m.pending.Some? && m.pending.value ==
      Make(m.sid, SYN_ACK, m.cfg.isn, m.pending.value.ackno, FLAG_SYN + FLAG_ACK)
    case FinWait => m.pending == if m.finAcked then None else Some(FinPacket(m))
    case CloseWait => m.pending == Some(FinPacket(m))
  }

  /** How far the close has come in each state. */
  predicate FlagsOk(m: Machine, over: bool)
  {
    match m.state
    case Closed => over || (!m.finAcked && !m.peerFinAcked)
    case FinWait => !(m.finAcked && m.peerFinAcked)
    case CloseWait => !m.finAcked && m.peerFinAcked
    case _ => !m.finAcked && !m.peerFinAcked
  }

  predicate Opened(m: Machine)
  {
    m.state.Established? || m.state.FinWait? || m.state.CloseWait?
  }

  predicate Shape(m: Machine, over: bool)
  {
    && Awaits(m)
    && FlagsOk(m, over)
    && m.retries <= m.cfg.maxRetries + 1
    && (m.pending.None? ==> m.retries == 0)
    && (m.state.SynSent? ==> m.cfg.initiator)
    && (m.state.SynRcvd? ==> !m.cfg.initiator && m.lastRecv.Some?)
    && (Opened(m) ==> m.lastRecv.Some? && m.seqno == m.cfg.isn + 1)
  }

  /** [], [ESTABLISHED] or [ESTABLISHED, PEER_CLOSED]. */
  predicate IsOpening(es: seq<Event>)
  {
    es == [] || es == [ESTABLISHED] || es == [ESTABLISHED, PEER_CLOSED]
  }

  /** How an incarnation may end, given what was surfaced before. */
  predicate IsTerminal(e: Event, before: seq<Event>)
  {
    || e == TIMED_OUT
    || (e == CLOSED && before != [])
    || (e == CONNECT_FAILED && before == [])
  }

  predicate TraceOk(es: seq<Event>, over: bool)
  {
    if over then |es| > 0 && IsOpening(es[..|es| - 1]) && IsTerminal(es[|es| - 1], es[..|es| - 1])
    else IsOpening(es)
  }

  /** The events surfaced so far, state by state. */
  predicate StoryOk(l: Life)
  {
    && TraceOk(l.events, Over(l))
    && match l.m.state
       case Closed => !l.begun ==> l.events == []
       case SynSent | SynRcvd => l.events == []
       case Established | FinWait => l.events == [ESTABLISHED]
       case CloseWait => l.events == [ESTABLISHED, PEER_CLOSED]
  }

  predicate Heard(l: Life, t: PacketType)
  {
    exists p :: p in l.received && p.ptype == t && p.session == l.m.sid
  }

  predicate Said(l: Life, t: PacketType)
  {
    exists p :: p in l.sent && p.ptype == t
  }

  /** The close flags are backed by packets that really crossed. */
  predicate LogsOk(l: Life)
  {
    && (l.m.peerFinAcked ==> Heard(l, FIN) && Said(l, FIN_ACK))
    && (Said(l, FIN_ACK) ==> l.m.peerFinAcked)
    && (l.m.finAcked ==> Heard(l, FIN_ACK) && Said(l, FIN))
    && (l.m.state.FinWait? || l.m.state.CloseWait? ==> Said(l, FIN))
    && (Said(l, FIN) ==> l.m.state.FinWait? || l.m.state.CloseWait? || Over(l))
    && (PEER_CLOSED in l.events ==> l.m.peerFinAcked)
    && (Opened(l.m) ==> Heard(l, if l.m.cfg.initiator then SYN_ACK else ACK))
  }

  predicate LifeOk(l: Life)
  {
    && (!l.m.state.Closed? ==> l.begun)
    && Shape(l.m, Over(l))
    && StoryOk(l)
    && LogsOk(l)
  }

  lemma ShapeOnPacket(m: Machine, p: Packet, now: real)
    requires Shape(m, false)
    ensures Shape(OnPacket(m, p, now).m, !m.state.Closed?)
  {
    if !Opens(m, p) && p.session == m.sid {
      match m.state
      case SynSent =>
      case FinWait =>
      case _ =>
    }
  }

  lemma ShapeOnTick(m: Machine, now: real)
    requires Shape(m, false)
    ensures Shape(OnTick(m, now).m, !m.state.Closed?)
  {
  }

  lemma ShapeOnCall(m: Machine, inp: Input, now: real)
    requires Shape(m, false) && (inp.Opening? || inp.Closing? || inp.Activity?)
    ensures Shape(Step(m, inp, now).m, !m.state.Closed?)
  {
  }

  lemma ShapeKept(m: Machine, inp: Input, now: real)
    requires Shape(m, false)
    ensures Shape(Step(m, inp, now).m, !m.state.Closed?)
  {
    match inp
    case Receive(p) => ShapeOnPacket(m, p, now);
    case Ticking => ShapeOnTick(m, now);
    case _ => ShapeOnCall(m, inp, now);
  }

  /** The events of one step, by the states around it. */
  predicate Surfaced(m: Machine, m': Machine, es: seq<Event>)
  {
    if m'.state == m.state then es == []
    else match m'.state
      case Established => es == [ESTABLISHED]
      case CloseWait => es == [PEER_CLOSED]
      case Closed => |es| == 1 && IsTerminal(es[0], if Opened(m) then [ESTABLISHED] else [])
      case _ => es == []
  }

  predicate MoveOk(m: State, m': State)
  {
    || m' == m
    || (m.Closed? && (m'.SynSent? || m'.SynRcvd?))
    || ((m.SynSent? || m.SynRcvd?) && m'.Established?)
    || (m.Established? && (m'.FinWait? || m'.CloseWait?))
    || (!m.Closed? && m'.Closed?)
  }

  lemma StepSurfaces(m: Machine, inp: Input, now: real)
    requires Shape(m, false)
    ensures var o := Step(m, inp, now); Surfaced(m, o.m, o.events) && MoveOk(m.state, o.m.state)
  {
    match inp
    case Receive(p) => PacketSurfaces(m, p, now);
    case _ =>
  }

  lemma PacketSurfaces(m: Machine, p: Packet, now: real)
    ensures var o := OnPacket(m, p, now); Surfaced(m, o.m, o.events) && MoveOk(m.state, o.m.state)
  {
  }

  lemma TraceExtended(before: seq<Event>, e: Event)
    requires IsOpening(before) && IsTerminal(e, before)
    ensures TraceOk(before + [e], true)
  {
    assert (before + [e])[..|before|] == before;
  }

  lemma StoryKept(l: Life, m': Machine, es: seq<Event>, l': Life)
    requires LifeOk(l) && !Over(l)
    requires Surfaced(l.m, m', es) && MoveOk(l.m.state, m'.state)
    requires l'.m == m' && l'.begun == (l.begun || !m'.state.Closed?) && l'.events == l.events + es
    ensures StoryOk(l')
  {
    if es == [] {
      assert l'.events == l.events;
    } else if m'.state.Closed? {
      assert es == [es[0]];
      TraceExtended(l.events, es[0]);
    }
  }

  /** What a step says and hears, by the change it makes. */
  predicate Backed(m: Machine, inp: Input, o: Outcome)
  {
    && (o.m.peerFinAcked && !m.peerFinAcked ==> Takes(m, inp, FIN) && exists p :: p in o.packets && p.ptype == FIN_ACK)
    && (o.m.finAcked && !m.finAcked ==> Takes(m, inp, FIN_ACK) && (m.state.FinWait? || m.state.CloseWait?))
    && (m.state.Established? && (o.m.state.FinWait? || o.m.state.CloseWait?) ==> exists p :: p in o.packets && p.ptype == FIN)
    && ((exists p :: p in o.packets && p.ptype == FIN) ==> o.m.state.FinWait? || o.m.state.CloseWait?)
    && ((exists p :: p in o.packets && p.ptype == FIN_ACK) ==> o.m.peerFinAcked)
    && (PEER_CLOSED in o.events ==> o.m.peerFinAcked)
    && (m.peerFinAcked ==> o.m.peerFinAcked)
    && (m.finAcked ==> o.m.finAcked)
    && (o.m.sid == m.sid || m.state.Closed?)
    && o.m.cfg == m.cfg
    && (o.m.state.Established? && !m.state.Established? ==> Takes(m, inp, if m.cfg.initiator then SYN_ACK else ACK))
  }

  predicate Takes(m: Machine, inp: Input, t: PacketType)
  {
    inp.Receive? && inp.p.ptype == t && inp.p.session == m.sid && !m.state.Closed?
  }

  lemma PacketIsBacked(m: Machine, p: Packet, now: real)
    requires Shape(m, false)
    ensures Backed(m, Receive(p), OnPacket(m, p, now))
  {
  }

  lemma StepIsBacked(m: Machine, inp: Input, now: real)
    requires Shape(m, false)
    ensures Backed(m, inp, Step(m, inp, now))
  {
    match inp
    case Receive(p) => PacketIsBacked(m, p, now);
    case _ =>
  }

  lemma LogsKept(l: Life, inp: Input, now: real)
    requires LifeOk(l) && !Over(l)
    ensures LogsOk(Live(l, inp, now))
  {
    var l' := Live(l, inp, now);
    var o := Step(l.m, inp, now);
    StepIsBacked(l.m, inp, now);
    StepSurfaces(l.m, inp, now);
    HeardStays(l, inp, now, FIN);
    HeardStays(l, inp, now, FIN_ACK);
    HeardStays(l, inp, now, if l.m.cfg.initiator then SYN_ACK else ACK);
    SaidStays(l, inp, now, FIN);
    SaidStays(l, inp, now, FIN_ACK);
    assert PEER_CLOSED in l'.events ==> PEER_CLOSED in l.events || PEER_CLOSED in o.events;
    LogsFollow(l, inp, o, l');
  }

  lemma LogsFollow(l: Life, inp: Input, o: Outcome, l': Life)
    requires LogsOk(l) && Shape(l.m, false) && !Over(l) && (!l.m.state.Closed? ==> l.begun)
    requires l'.m == o.m && l'.begun == (l.begun || !o.m.state.Closed?)
    requires Backed(l.m, inp, o) && MoveOk(l.m.state, o.m.state)
    requires forall t :: (t == FIN || t == FIN_ACK || t == if l.m.cfg.initiator then SYN_ACK else ACK) ==>
      ((Heard(l, t) && !l.m.state.Closed?) || Takes(l.m, inp, t) ==> Heard(l', t))
    requires forall t :: (t == FIN || t == FIN_ACK) ==> (Said(l', t) <==> Said(l, t) || exists p :: p in o.packets && p.ptype == t)
    requires PEER_CLOSED in l'.events ==> PEER_CLOSED in l.events || PEER_CLOSED in o.events
    ensures LogsOk(l')
  {
  }

  lemma HeardStays(l: Life, inp: Input, now: real, t: PacketType)
    requires LifeOk(l) && !Over(l)
    ensures var l' := Live(l, inp, now);
      (Heard(l, t) && l'.m.sid == l.m.sid) || (inp.Receive? && inp.p.ptype == t && inp.p.session == l'.m.sid) ==> Heard(l', t)
  {
    var l' := Live(l, inp, now);
    if Heard(l, t) && l'.m.sid == l.m.sid {
      var p :| p in l.received && p.ptype == t && p.session == l.m.sid;
      assert p in l'.received;
    }
    if inp.Receive? {
      assert inp.p in l'.received;
    }
  }

  lemma SaidStays(l: Life, inp: Input, now: real, t: PacketType)
    requires LifeOk(l) && !Over(l)
    ensures var l' := Live(l, inp, now); var o := Step(l.m, inp, now);
      Said(l', t) <==> Said(l, t) || exists p :: p in o.packets && p.ptype == t
  {
  }

  lemma LiveKeepsOk(l: Life, inp: Input, now: real)
    requires LifeOk(l)
    ensures LifeOk(Live(l, inp, now))
  {
    if !Over(l) {
      var o := Step(l.m, inp, now);
      ShapeKept(l.m, inp, now);
      StepSurfaces(l.m, inp, now);
      StoryKept(l, o.m, o.events, Live(l, inp, now));
      LogsKept(l, inp, now);
    }
  }

  lemma {:induction false} EveryLifeIsOk(cfg: Settings, sid: int, ms: seq<Moment>)
    ensures LifeOk(LiveAll(NewLife(cfg, sid), ms))
  {
    LiveAllKeepsOk(NewLife(cfg, sid), ms);
  }

  lemma {:induction false} LiveAllKeepsOk(l: Life, ms: seq<Moment>)
    requires LifeOk(l)
    ensures LifeOk(LiveAll(l, ms))
    decreases |ms|
  {
    if ms != [] {
      LiveKeepsOk(l, ms[0].inp, ms[0].now);
      LiveAllKeepsOk(Live(l, ms[0].inp, ms[0].now), ms[1..]);
    }
  }

  /** A packet ends an incarnation only when both directions are torn down: our FIN was acknowledged
      and we acknowledged the peer's. The last thing surfaced is then CLOSED, after ESTABLISHED. */
  lemma PacketClosesOnlyAfterBothFins(cfg: Settings, sid: int, ms: seq<Moment>, p: Packet, now: real)
    requires !Over(LiveAll(NewLife(cfg, sid), ms))
    requires Over(Live(LiveAll(NewLife(cfg, sid), ms), Receive(p), now))
    ensures var l := Live(LiveAll(NewLife(cfg, sid), ms), Receive(p), now);
      && l.m.finAcked && l.m.peerFinAcked
      && Heard(l, FIN) && Heard(l, FIN_ACK) && Said(l, FIN) && Said(l, FIN_ACK)
      && (l.events == [ESTABLISHED, CLOSED] || l.events == [ESTABLISHED, PEER_CLOSED, CLOSED])
  {
    var l := LiveAll(NewLife(cfg, sid), ms);
    EveryLifeIsOk(cfg, sid, ms);
    LiveKeepsOk(l, Receive(p), now);
    StepSurfaces(l.m, Receive(p), now);
    ClosingPacket(l.m, p, now);
  }

  lemma ClosingPacket(m: Machine, p: Packet, now: real)
    requires Shape(m, false) && !m.state.Closed? && OnPacket(m, p, now).m.state.Closed?
    ensures var o := OnPacket(m, p, now);
      o.m.finAcked && o.m.peerFinAcked && o.events == [CLOSED] && (m.state.FinWait? || m.state.CloseWait?)
  {
  }

  // ---- the two clocks ----------------------------------------------------------------------------

  /** What counts as hearing the peer: a packet of the session, the SYN that opens a closed responder, or
      data while the session is open. */
  predicate Hears(m: Machine, inp: Input)
  {
    || (inp.Receive? && (inp.p.session == m.sid || (m.state == Closed && !m.cfg.initiator && inp.p.ptype == SYN)))
    || (inp.Activity? && (m.state == Established || m.state == FinWait || m.state == CloseWait))
  }

  lemma PacketStamps(m: Machine, p: Packet, now: real)
    ensures var o := OnPacket(m, p, now);
      && o.m.lastRecv == (if Hears(m, Receive(p)) then Some(now) else m.lastRecv)
      && o.m.lastSend == (if o.packets != [] then Some(now) else m.lastSend)
  {
  }

  /** Any machine, any input: last_recv moves exactly when the peer is heard, last_send exactly when
      something is sent, both to the time of the step. */
  lemma StampsAreExact(m: Machine, inp: Input, now: real)
    ensures var o := Step(m, inp, now);
      && o.m.lastRecv == (if Hears(m, inp) then Some(now) else m.lastRecv)
      && o.m.lastSend == (if o.packets != [] then Some(now) else m.lastSend)
  {
    if inp.Receive? {
      PacketStamps(m, inp.p, now);
    }
  }

  // ---- one FIN_ACK from the passive side -------------------------------------------------------

  function Count(q: seq<Packet>, t: PacketType): (n: nat)
    ensures q == [] ==> n == 0
  {
    if q == [] then 0 else (if q[0].ptype == t then 1 else 0) + Count(q[1..], t)
  }

  lemma {:induction false} CountAppend(q: seq<Packet>, more: seq<Packet>, t: PacketType)
    ensures Count(q + more, t) == Count(q, t) + Count(more, t)
  {
    if q == [] {
      assert q + more == more;
    } else {
      assert (q + more)[1..] == q[1..] + more;
      CountAppend(q[1..], more, t);
    }
  }

  lemma CountOfTwo(a: Packet, b: Packet, t: PacketType)
    ensures Count([a, b], t) == Count([a], t) + Count([b], t)
  {
    assert [a, b][1..] == [b];
  }

  lemma {:induction false} NoneSaid(q: seq<Packet>, t: PacketType)
    requires forall p :: p in q ==> p.ptype != t
    ensures Count(q, t) == 0
  {
    if q != [] {
      assert q[0] in q;
      NoneSaid(q[1..], t);
    }
  }

  predicate AckedOnce(l: Life)
  {
    PEER_CLOSED in l.events ==> Count(l.sent, FIN_ACK) == 1
  }

  /** Whoever saw the peer close first acknowledges its FIN exactly once and repeated FINs never, so a
      lost FIN_ACK is not made good by the peer resending its FIN. */
  lemma {:induction false} PassiveAcksOnce(l: Life, ms: seq<Moment>)
    requires LifeOk(l) && AckedOnce(l)
    ensures AckedOnce(LiveAll(l, ms))
    decreases |ms|
  {
    if ms != [] {
      LiveKeepsOk(l, ms[0].inp, ms[0].now);
      StepAcksOnce(l, ms[0].inp, ms[0].now);
      PassiveAcksOnce(Live(l, ms[0].inp, ms[0].now), ms[1..]);
    }
  }

  lemma StepAcksOnce(l: Life, inp: Input, now: real)
    requires LifeOk(l) && AckedOnce(l)
    ensures AckedOnce(Live(l, inp, now))
  {
    if !Over(l) {
      var o := Step(l.m, inp, now);
      StepSurfaces(l.m, inp, now);
      CountAppend(l.sent, o.packets, FIN_ACK);
      if PEER_CLOSED in o.events {
        FirstFinAck(l, inp, now);
      } else if PEER_CLOSED in l.events {
        SilentAboutFins(l.m, inp, now);
        NoneSaid(o.packets, FIN_ACK);
      }
    }
  }

  lemma FirstFinAck(l: Life, inp: Input, now: real)
    requires LifeOk(l) && !Over(l) && PEER_CLOSED in Step(l.m, inp, now).events
    ensures Count(l.sent, FIN_ACK) == 0 && Count(Step(l.m, inp, now).packets, FIN_ACK) == 1
  {
    StepSurfaces(l.m, inp, now);
    NoneSaid(l.sent, FIN_ACK);
    CountOfTwo(FinAckFor(l.m, inp.p), FinPacket(l.m), FIN_ACK);
  }

  lemma SilentAboutFins(m: Machine, inp: Input, now: real)
    requires Shape(m, false) && m.state.CloseWait?
    ensures forall p :: p in Step(m, inp, now).packets ==> p.ptype != FIN_ACK
  {
  }
}
