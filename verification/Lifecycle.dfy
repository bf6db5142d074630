/** Session lifecycle (photontcp/session/state_machine.py): what one machine does on each input. */
module Lifecycle {
  import opened Prelude
  import opened Packets

  datatype State = Closed | SynSent | SynRcvd | Established | FinWait | CloseWait

  datatype Event = ESTABLISHED | CLOSED | TIMED_OUT | CONNECT_FAILED | PEER_CLOSED

  datatype Settings = Settings(
    initiator: bool,
    isn: int,
    heartbeat: real,
    idle: real,
    controlRto: real,
    maxRetries: nat)

  /** `pending` is the control packet awaiting a reply, last sent at `since`, resent `retries` times. */
  datatype Machine = Machine(
    cfg: Settings,
    sid: int,
    seqno: int,
    state: State,
    lastSend: Option<real>,
    lastRecv: Option<real>,
    finAcked: bool,
    peerFinAcked: bool,
    pending: Option<Packet>,
    since: real,
    retries: nat)

  datatype Outcome = Outcome(m: Machine, packets: seq<Packet>, events: seq<Event>)

  function NewMachine(cfg: Settings, sid: int): Machine
  {
    Machine(cfg, sid, cfg.isn, Closed, None, None, false, false, None, 0.0, 0)
  }

  function Make(sid: int, ptype: PacketType, seqno: int, ackno: int, flags: int): Packet
  {
    Bare(ptype, sid, 0, seqno, ackno, 0, flags)
  }

  function Idle(m: Machine): Outcome
  {
    Outcome(m, [], [])
  }

  function Armed(m: Machine, p: Packet, now: real): Machine
  {
    m.(pending := Some(p), since := now, retries := 0)
  }

  function Disarmed(m: Machine): Machine
  {
    m.(pending := None, since := 0.0, retries := 0)
  }

  function Connect(m: Machine, now: real): Outcome
  {
    if !m.cfg.initiator || !m.state.Closed? then Idle(m)
    else
      var syn := Make(m.sid, SYN, m.cfg.isn, 0, FLAG_SYN);
      Outcome(Armed(m.(state := SynSent, lastSend := Some(now)), syn, now), [syn], [])
  }

  function FinPacket(m: Machine): Packet
  {
    Make(m.sid, FIN, m.seqno, 0, FLAG_FIN)
  }

  function Close(m: Machine, now: real): Outcome
  {
    if !m.state.Established? then Idle(m)
    else Outcome(Armed(m.(state := FinWait, lastSend := Some(now)), FinPacket(m), now), [FinPacket(m)], [])
  }

  function NoteDataActivity(m: Machine, now: real): Machine
  {
    if m.state.Established? || m.state.FinWait? || m.state.CloseWait? then m.(lastRecv := Some(now)) else m
  }

  /** A SYN reaching a responder that is still closed: accepted whatever session it names. */
  predicate Opens(m: Machine, p: Packet)
  {
    m.state.Closed? && !m.cfg.initiator && p.ptype == SYN
  }

  function FinAckFor(m: Machine, fin: Packet): Packet
  {
    Make(m.sid, FIN_ACK, m.seqno, fin.seqno + 1, FLAG_FIN + FLAG_ACK)
  }

  function OnPacket(m: Machine, p: Packet, now: real): Outcome
  {
    if Opens(m, p) then OnSyn(m.(lastRecv := Some(now)), p, now)
    else if p.session != m.sid then Idle(m)
    else
      var h := m.(lastRecv := Some(now));
      match (m.state, p.ptype)
      case (SynSent, SYN_ACK) =>
        var seqno := m.cfg.isn + 1;
        Outcome(Disarmed(h).(state := Established, seqno := seqno, lastSend := Some(now)),
                [Make(m.sid, ACK, seqno, p.seqno + 1, FLAG_ACK)], [ESTABLISHED])
      case (SynRcvd, ACK) =>
        Outcome(Disarmed(h).(state := Established, seqno := m.cfg.isn + 1), [], [ESTABLISHED])
      case (Established, SYN_ACK) =>
        Outcome(h.(lastSend := Some(now)), [Make(m.sid, ACK, m.seqno, p.seqno + 1, FLAG_ACK)], [])
      case (Established, FIN) =>
        Outcome(Armed(h.(state := CloseWait, peerFinAcked := true, lastSend := Some(now)), FinPacket(m), now),
                [FinAckFor(m, p), FinPacket(m)], [PEER_CLOSED])
      case (FinWait, FIN_ACK) =>
        if m.peerFinAcked then Outcome(Disarmed(h).(finAcked := true, state := Closed), [], [CLOSED])
        else Idle(Disarmed(h).(finAcked := true))
      case (FinWait, FIN) =>
        var acked := h.(peerFinAcked := true, lastSend := Some(now));
        if m.finAcked then Outcome(acked.(state := Closed), [FinAckFor(m, p)], [CLOSED])
        else Outcome(acked, [FinAckFor(m, p)], [])
      case (CloseWait, FIN_ACK) =>
        Outcome(Disarmed(h).(finAcked := true, state := Closed), [], [CLOSED])
      case _ => Idle(h)
  }

  function OnSyn(h: Machine, p: Packet, now: real): Outcome
  {
    var reply := Make(p.session, SYN_ACK, h.cfg.isn, p.seqno + 1, FLAG_SYN + FLAG_ACK);
    Outcome(Armed(h.(sid := p.session, state := SynRcvd, lastSend := Some(now)), reply, now), [reply], [])
  }

  predicate IdleExpired(m: Machine, now: real)
  {
    !m.state.Closed? && m.lastRecv.Some? && now - m.lastRecv.value >= m.cfg.idle
  }

  predicate RetryDue(m: Machine, now: real)
  {
    m.pending.Some? && now - m.since >= m.cfg.controlRto
  }

  function OnTick(m: Machine, now: real): Outcome
  {
    if IdleExpired(m, now) then
      Outcome(Disarmed(m).(state := Closed), [],
              [if m.state.FinWait? || m.state.CloseWait? then CLOSED else TIMED_OUT])
    else if RetryDue(m, now) then
      if m.retries > m.cfg.maxRetries then
        Outcome(Disarmed(m).(state := Closed), [],
                [if m.state.SynSent? || m.state.SynRcvd? then CONNECT_FAILED else TIMED_OUT])
      else
        Outcome(m.(retries := m.retries + 1, since := now, lastSend := Some(now)), [m.pending.value], [])
    else if m.state.Established? && (m.lastSend.None? || now - m.lastSend.value >= m.cfg.heartbeat) then
      Outcome(m.(lastSend := Some(now)), [Make(m.sid, HEARTBEAT, m.seqno, 0, FLAG_NONE)], [])
    else Idle(m)
  }

  datatype Input = Opening | Closing | Receive(p: Packet) | Activity | Ticking

  function Step(m: Machine, inp: Input, now: real): Outcome
  {
    match inp
    case Opening => Connect(m, now)
    case Closing => Close(m, now)
    case Receive(p) => OnPacket(m, p, now)
    case Activity => Idle(NoteDataActivity(m, now))
    case Ticking => OnTick(m, now)
  }

  datatype Moment = Moment(inp: Input, now: real)

  /** A machine taking inputs one after the other, closed or not. */
  function StepAll(m: Machine, ms: seq<Moment>): Outcome
    decreases |ms|
  {
    if ms == [] then Idle(m)
    else
      var o := Step(m, ms[0].inp, ms[0].now);
      var rest := StepAll(o.m, ms[1..]);
      Outcome(rest.m, o.packets + rest.packets, o.events + rest.events)
  }

  // ---- one incarnation -------------------------------------------------------------------------

  /** A machine with the record of what it took in and gave out since it was made. */
  datatype Life = Life(m: Machine, begun: bool, received: seq<Packet>, sent: seq<Packet>, events: seq<Event>)

  /** The incarnation ends at the first return to Closed. */
  predicate Over(l: Life)
  {
    l.begun && l.m.state.Closed?
  }

  function NewLife(cfg: Settings, sid: int): Life
  {
    Life(NewMachine(cfg, sid), false, [], [], [])
  }

  function Live(l: Life, inp: Input, now: real): Life
  {
    if Over(l) then l
    else
      var o := Step(l.m, inp, now);
      Life(o.m, l.begun || !o.m.state.Closed?,
           l.received + (if inp.Receive? then [inp.p] else []), l.sent + o.packets, l.events + o.events)
  }

  function LiveAll(l: Life, ms: seq<Moment>): Life
    decreases |ms|
  {
    if ms == [] then l else LiveAll(Live(l, ms[0].inp, ms[0].now), ms[1..])
  }
}
