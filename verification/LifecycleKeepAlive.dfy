/** Why idle sessions live on: two established machines, each ticking often enough at times of its own,
    over a link that delivers heartbeats in order within some delay. */
module LifecycleKeepAlive {
  import opened Prelude
  import opened Packets
  import opened Lifecycle
  import opened LifecycleLocal

  /** A packet under way, and when it was sent. */
  datatype Flight = Flight(p: Packet, sentAt: real)

  /** A machine, what is under way to it, and when it last ticked. */
  datatype Line = Line(m: Machine, inbox: seq<Flight>, ticked: real)

  datatype Both = Both(x: Line, y: Line, clock: real, events: seq<Event>)

  datatype Move = Beat(first: bool, now: real) | Arrive(first: bool, now: real)

  function Fly(packets: seq<Packet>, now: real): (q: seq<Flight>)
    ensures |q| == |packets| && forall i :: 0 <= i < |q| ==> q[i] == Flight(packets[i], now)
  {
    seq(|packets|, i requires 0 <= i < |packets| => Flight(packets[i], now))
  }

  /** One side acts: its timers run, or the oldest packet under way reaches it. */
  function Act(x: Line, arrives: bool, now: real): Outcome
  {
    if !arrives then OnTick(x.m, now) else if x.inbox == [] then Idle(x.m) else OnPacket(x.m, x.inbox[0].p, now)
  }

  function Acted(x: Line, arrives: bool, now: real): Line
  {
    var m := Act(x, arrives, now).m;
    if !arrives then Line(m, x.inbox, now) else Line(m, if x.inbox == [] then [] else x.inbox[1..], x.ticked)
  }

  function Toward(y: Line, packets: seq<Packet>, now: real): Line
  {
    y.(inbox := y.inbox + Fly(packets, now))
  }

  function StepBoth(s: Both, v: Move): Both
  {
    var arrives := v.Arrive?;
    if v.first then
      var o := Act(s.x, arrives, v.now);
      Both(Acted(s.x, arrives, v.now), Toward(s.y, o.packets, v.now), v.now, s.events + o.events)
    else
      var o := Act(s.y, arrives, v.now);
      Both(Toward(s.x, o.packets, v.now), Acted(s.y, arrives, v.now), v.now, s.events + o.events)
  }

  predicate InTime(l: Line, gap: real, delay: real, now: real)
  {
    now - l.ticked <= gap && forall i :: 0 <= i < |l.inbox| ==> now - l.inbox[i].sentAt <= delay
  }

  /** Time never runs past a tick that is due or a packet that is. */
  predicate Allowed(s: Both, v: Move, gap: real, delay: real)
  {
    && s.clock <= v.now && InTime(s.x, gap, delay, v.now) && InTime(s.y, gap, delay, v.now)
    && (v.Arrive? ==> (if v.first then s.x else s.y).inbox != [])
  }

  predicate LegalMoves(s: Both, moves: seq<Move>, gap: real, delay: real)
    decreases |moves|
  {
    moves == [] || (Allowed(s, moves[0], gap, delay) && LegalMoves(StepBoth(s, moves[0]), moves[1..], gap, delay))
  }

  function RunBoth(s: Both, moves: seq<Move>): Both
    decreases |moves|
  {
    if moves == [] then s else RunBoth(StepBoth(s, moves[0]), moves[1..])
  }

  // ---- what keeps them alive -------------------------------------------------------------------

  /** Each packet under way was sent less than `span` after the one before it, the first one less than
      that after `from`. */
  predicate Chain(from: real, q: seq<Flight>, span: real)
  {
    && (q != [] ==> q[0].sentAt < from + span)
    && forall i, j :: 0 <= i && j == i + 1 < |q| ==> q[j].sentAt < q[i].sentAt + span
  }

  predicate Heartbeats(q: seq<Flight>, sid: int, clock: real)
  {
    forall i :: 0 <= i < |q| ==> q[i].p.ptype == HEARTBEAT && q[i].p.session == sid && q[i].sentAt <= clock
  }

  function Newest(from: real, q: seq<Flight>): real
  {
    if q == [] then from else q[|q| - 1].sentAt
  }

  predicate Alive(m: Machine)
  {
    m.state.Established? && m.pending.None? && m.lastSend.Some? && m.lastRecv.Some?
  }

  /** All `x` sent is with `y` or on its way there, nowhere with a wide gap, and the last of it is recent. */
  predicate HeardBy(x: Line, y: Line, gap: real, clock: real)
  {
    && Alive(x.m) && Alive(y.m) && x.m.sid == y.m.sid
    && y.m.lastRecv.value <= clock
    && Heartbeats(y.inbox, x.m.sid, clock)
    && Chain(y.m.lastRecv.value, y.inbox, x.m.cfg.heartbeat + gap)
    && x.m.lastSend.value <= Newest(y.m.lastRecv.value, y.inbox)
    && x.ticked - x.m.lastSend.value < x.m.cfg.heartbeat
  }

  predicate InTouch(s: Both, gap: real)
  {
    HeardBy(s.x, s.y, gap, s.clock) && HeardBy(s.y, s.x, gap, s.clock)
  }

  /** Heartbeat interval, tick spacing and delay together stay within the other side's idle time-out. */
  predicate Timely(x: Machine, y: Machine, gap: real, delay: real)
  {
    && delay >= 0.0 && x.cfg.heartbeat > 0.0 && y.cfg.heartbeat > 0.0
    && x.cfg.heartbeat + gap + delay <= y.cfg.idle && y.cfg.heartbeat + gap + delay <= x.cfg.idle
  }

  /** The idle time-out of `y` is not reached while all is in time. */
  lemma NotIdle(x: Line, y: Line, gap: real, delay: real, clock: real, now: real)
    requires HeardBy(x, y, gap, clock) && delay >= 0.0 && x.m.cfg.heartbeat + gap + delay <= y.m.cfg.idle
    requires InTime(x, gap, delay, now) && InTime(y, gap, delay, now)
    ensures !IdleExpired(y.m, now)
  {
    if y.inbox != [] {
      assert now - y.inbox[0].sentAt <= delay;
      assert y.inbox[0].sentAt < y.m.lastRecv.value + (x.m.cfg.heartbeat + gap);
    }
  }

  /** A tick in touch sends a heartbeat exactly when one is due, and never ends the session. */
  lemma TickInTouch(x: Line, y: Line, gap: real, delay: real, clock: real, now: real)
    requires HeardBy(x, y, gap, clock) && HeardBy(y, x, gap, clock) && Timely(x.m, y.m, gap, delay)
    requires InTime(x, gap, delay, now) && InTime(y, gap, delay, now)
    ensures var o := OnTick(x.m, now);
      && o.events == []
      && if now - x.m.lastSend.value >= x.m.cfg.heartbeat
         then o.packets == [Make(x.m.sid, HEARTBEAT, x.m.seqno, 0, FLAG_NONE)] && o.m == x.m.(lastSend := Some(now))
         else o.packets == [] && o.m == x.m
  {
    NotIdle(y, x, gap, delay, clock, now);
  }

  lemma TickKeepsTouch(x: Line, y: Line, gap: real, delay: real, clock: real, now: real)
    requires HeardBy(x, y, gap, clock) && HeardBy(y, x, gap, clock) && Timely(x.m, y.m, gap, delay)
    requires InTime(x, gap, delay, now) && InTime(y, gap, delay, now) && clock <= now
    ensures var o := OnTick(x.m, now); var (x', y') := (Acted(x, false, now), Toward(y, o.packets, now));
      HeardBy(x', y', gap, now) && HeardBy(y', x', gap, now) && o.events == []
  {
    var o := OnTick(x.m, now);
    TickInTouch(x, y, gap, delay, clock, now);
    if o.packets != [] {
      assert Toward(y, o.packets, now).inbox == y.inbox + [Flight(o.packets[0], now)];
    } else {
      assert Toward(y, o.packets, now).inbox == y.inbox;
    }
  }

  lemma ArrivalKeepsTouch(x: Line, y: Line, gap: real, clock: real, now: real)
    requires HeardBy(x, y, gap, clock) && HeardBy(y, x, gap, clock) && x.inbox != [] && clock <= now
    ensures var o := Act(x, true, now); var (x', y') := (Acted(x, true, now), Toward(y, o.packets, now));
      HeardBy(x', y', gap, now) && HeardBy(y', x', gap, now) && o.events == [] && x'.m.cfg == x.m.cfg
  {
    var p := x.inbox[0].p;
    assert p.ptype == HEARTBEAT && p.session == x.m.sid;
    assert OnPacket(x.m, p, now) == Idle(x.m.(lastRecv := Some(now)));
    assert Toward(y, [], now) == y;
  }

  lemma StepKeepsTouch(s: Both, v: Move, gap: real, delay: real)
    requires InTouch(s, gap) && Timely(s.x.m, s.y.m, gap, delay) && Allowed(s, v, gap, delay)
    ensures var t := StepBoth(s, v);
      InTouch(t, gap) && t.events == s.events && Timely(t.x.m, t.y.m, gap, delay)
  {
    var (x, y) := if v.first then (s.x, s.y) else (s.y, s.x);
    if v.Arrive? {
      ArrivalKeepsTouch(x, y, gap, s.clock, v.now);
    } else {
      TickKeepsTouch(x, y, gap, delay, s.clock, v.now);
      TickInTouch(x, y, gap, delay, s.clock, v.now);
    }
  }

  /** However long nothing else happens and however the ticks of the two sides and the arrivals interleave,
      two machines that tick at least every `gap` stay established and surface nothing, provided heartbeat
      interval, `gap` and the delay of the link together do not exceed either idle time-out. */
  lemma {:induction false} HeartbeatsKeepBothAlive(s: Both, moves: seq<Move>, gap: real, delay: real)
    requires InTouch(s, gap) && Timely(s.x.m, s.y.m, gap, delay) && LegalMoves(s, moves, gap, delay)
    ensures var t := RunBoth(s, moves);
      && t.x.m.state.Established? && t.y.m.state.Established? && t.events == s.events
      && InTouch(t, gap)
    decreases |moves|
  {
    if moves != [] {
      StepKeepsTouch(s, moves[0], gap, delay);
      HeartbeatsKeepBothAlive(StepBoth(s, moves[0]), moves[1..], gap, delay);
    }
  }

  /** A handshake quicker than a heartbeat leaves the two sides in touch. */
  lemma HandshakePutsInTouch(i: Machine, r: Machine, t0: real, t1: real, t2: real, t3: real, gap: real)
    requires i == NewMachine(i.cfg, i.sid) && i.cfg.initiator && r == NewMachine(r.cfg, r.sid) && !r.cfg.initiator
    requires t0 <= t1 <= t2 <= t3 && t3 - t2 < i.cfg.heartbeat && t3 - t1 < r.cfg.heartbeat
    ensures var syn := Connect(i, t0); var synAck := OnPacket(r, syn.packets[0], t1);
      var ack := OnPacket(syn.m, synAck.packets[0], t2); var done := OnPacket(synAck.m, ack.packets[0], t3);
      InTouch(Both(Line(ack.m, [], t3), Line(done.m, [], t3), t3, []), gap)
  {
    var syn := Connect(i, t0);
    var synAck := OnPacket(r, syn.packets[0], t1);
    assert synAck.m.state.SynRcvd?;
    var ack := OnPacket(syn.m, synAck.packets[0], t2);
    assert ack.m.state.Established?;
  }

  // ---- data keeps a session alive ----------------------------------------------------------------

  /** Data coming in puts the idle time-out off by its full length, in the three open states; in the others
      it changes nothing. */
  lemma DataPostponesIdle(m: Machine, at: real, now: real)
    ensures var m' := NoteDataActivity(m, at);
      && (m.state == Established || m.state == FinWait || m.state == CloseWait ==>
            m' == m.(lastRecv := Some(at)) && (now - at < m.cfg.idle ==> !IdleExpired(m', now)))
      && (m.state == Closed || m.state == SynSent || m.state == SynRcvd ==> m' == m)
  {
  }

  /** Between ticks data comes in often enough: no tick is an idle time-out away from what was heard last. */
  predicate Busy(heard: real, idle: real, ms: seq<Moment>)
    decreases |ms|
  {
    ms == [] ||
    (if ms[0].inp.Activity? then Busy(ms[0].now, idle, ms[1..])
     else ms[0].inp.Ticking? && ms[0].now - heard < idle && Busy(heard, idle, ms[1..]))
  }

  /** A session that transfers data stays established without a single control packet from its peer, however
      long, and surfaces nothing. */
  lemma {:induction false} DataKeepsAlive(m: Machine, ms: seq<Moment>)
    requires m.state.Established? && m.pending.None? && m.lastRecv.Some? && Busy(m.lastRecv.value, m.cfg.idle, ms)
    ensures var o := StepAll(m, ms); o.m.state.Established? && o.m.pending.None? && o.events == []
    decreases |ms|
  {
    if ms != [] {
      DataKeepsAlive(Step(m, ms[0].inp, ms[0].now).m, ms[1..]);
    }
  }

  // ---- how tight the bound is ------------------------------------------------------------------

  /** `y` has been told nothing since time 0 and is not going to be before `low` + delay; both tick now. */
  predicate Waiting(s: Both, low: real, idle: real)
  {
    && s.x.m.state.Established? && s.x.m.pending.None? && s.x.m.lastRecv == Some(0.0) && s.x.m.cfg.idle > idle
    && s.x.m.lastSend.Some? && (s.clock < low ==> s.x.m.lastSend == Some(0.0))
    && s.y.m.state.Established? && s.y.m.pending.None? && s.y.m.lastRecv == Some(0.0) && s.y.m.cfg.idle == idle
    && s.y.m.lastSend == Some(0.0) && s.y.m.cfg.heartbeat > idle
    && s.x.inbox == [] && (forall i :: 0 <= i < |s.y.inbox| ==> low <= s.y.inbox[i].sentAt <= s.clock)
    && s.x.ticked == s.clock == s.y.ticked && s.events == []
  }

  function BothBeat(now: real): seq<Move>
  {
    [Beat(true, now)] + ([Beat(false, now)] + [])
  }

  lemma FirstMove(s: Both, v: Move, rest: seq<Move>, gap: real, delay: real)
    ensures RunBoth(s, [v] + rest) == RunBoth(StepBoth(s, v), rest)
    ensures LegalMoves(s, [v] + rest, gap, delay) <==> Allowed(s, v, gap, delay) && LegalMoves(StepBoth(s, v), rest, gap, delay)
  {
    assert ([v] + rest)[1..] == rest;
  }

  /** Both tick, `y` quietly. */
  lemma BothWait(s: Both, low: real, idle: real, gap: real, delay: real, now: real)
    requires Waiting(s, low, idle) && s.clock < now < idle && now <= s.clock + gap && now <= low + delay
    requires now < s.x.m.cfg.heartbeat || now >= low
    ensures LegalMoves(s, BothBeat(now), gap, delay)
    ensures var t := RunBoth(s, BothBeat(now)); Waiting(t, low, idle) && t.clock == now && t.x.m.cfg == s.x.m.cfg
  {
    var (v1, v2) := (Beat(true, now), Beat(false, now));
    var s1 := StepBoth(s, v1);
    FirstMove(s, v1, [v2] + [], gap, delay);
    FirstMove(s1, v2, [], gap, delay);
  }

  /** `n` ticks of both, `gap` apart, up to `low`. */
  function Waits(low: real, gap: real, n: nat): seq<Move>
    decreases n
  {
    if n == 0 || low <= 0.0 then [] else Waits(low - gap, gap, n - 1) + BothBeat(low)
  }

  lemma {:induction false} RunBothAppend(s: Both, a: seq<Move>, b: seq<Move>, gap: real, delay: real)
    ensures RunBoth(s, a + b) == RunBoth(RunBoth(s, a), b)
    ensures LegalMoves(s, a, gap, delay) && LegalMoves(RunBoth(s, a), b, gap, delay) ==> LegalMoves(s, a + b, gap, delay)
    decreases |a|
  {
    if a == [] {
      assert a + b == b;
    } else {
      assert (a + b)[1..] == a[1..] + b;
      RunBothAppend(StepBoth(s, a[0]), a[1..], b, gap, delay);
    }
  }

  lemma {:induction false} WaitingOn(s: Both, low: real, idle: real, gap: real, delay: real, upTo: real, n: nat)
    requires Waiting(s, low, idle) && s.clock == 0.0 && gap > 0.0 && delay >= 0.0
    requires upTo <= low && upTo < idle && upTo <= n as real * gap
    requires upTo < s.x.m.cfg.heartbeat || (upTo == low && low - gap < s.x.m.cfg.heartbeat)
    ensures LegalMoves(s, Waits(upTo, gap, n), gap, delay)
    ensures var t := RunBoth(s, Waits(upTo, gap, n));
      Waiting(t, low, idle) && t.clock == (if upTo > 0.0 then upTo else 0.0) && t.x.m.cfg == s.x.m.cfg
    decreases n
  {
    if upTo > 0.0 && n > 0 {
      assert n as real * gap == (n - 1) as real * gap + gap;
      WaitingOn(s, low, idle, gap, delay, upTo - gap, n - 1);
      var t := RunBoth(s, Waits(upTo - gap, gap, n - 1));
      BothWait(t, low, idle, gap, delay, upTo);
      RunBothAppend(s, Waits(upTo - gap, gap, n - 1), BothBeat(upTo), gap, delay);
    }
  }

  /** The bound is tight: beyond it, with a delay no longer than the tick spacing, two machines in touch
      can keep all the times and still have one of them time out, with nothing lost. */
  lemma BeyondTheBoundOneTimesOut(s: Both, gap: real, delay: real) returns (moves: seq<Move>)
    requires gap > 0.0 && 0.0 <= delay <= gap && s.y.m.cfg.idle > 0.0
    requires s.x.m.cfg.heartbeat + gap + delay > s.y.m.cfg.idle
    requires InTouch(s, gap) && Waiting(s, s.y.m.cfg.idle - delay, s.y.m.cfg.idle) && s.clock == 0.0 && s.y.inbox == []
    ensures LegalMoves(s, moves, gap, delay)
    ensures RunBoth(s, moves).events == [TIMED_OUT] && RunBoth(s, moves).y.m.state.Closed?
  {
    var idle := s.y.m.cfg.idle;
    var low := idle - delay;
    var n: nat := if low > 0.0 then (low / gap).Floor + 1 else 0;
    EnoughSteps(low, gap, n);
    var upTo := if delay > 0.0 then low else low - gap;
    WaitingOn(s, low, idle, gap, delay, upTo, n);
    var t := RunBoth(s, Waits(upTo, gap, n));
    var last := Beat(false, idle);
    FirstMove(t, last, [], gap, delay);
    RunBothAppend(s, Waits(upTo, gap, n), [last] + [], gap, delay);
    return Waits(upTo, gap, n) + ([last] + []);
  }

  lemma EnoughSteps(low: real, gap: real, n: nat)
    requires gap > 0.0 && n == if low > 0.0 then (low / gap).Floor + 1 else 0
    ensures low <= n as real * gap
  {
    if low > 0.0 {
      ScaledUp(low / gap, n as real, gap);
    }
  }

  lemma ScaledUp(a: real, b: real, gap: real)
    requires a <= b && gap > 0.0
    ensures a * gap <= b * gap
  {
  }
}
