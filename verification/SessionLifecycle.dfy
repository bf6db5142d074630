/** The lifecycles of two sessions over the whole stack: up to the first reopening they are a legal run of
    the initiator and the responder of LifecyclePair, so what holds of those holds of the sessions. */
module SessionLifecycle {
  import opened Prelude
  import opened Packets
  import opened Header
  import opened ArqModel
  import opened ArqSystem
  import opened LifecycleLocal
  import opened LifecycleLoss
  import L = Lifecycle
  import P = LifecyclePair
  import M = Mux
  import opened S = Session
  import opened SessionPair
  import opened SessionControl

  /** Two ends with all they surfaced. */
  datatype Duo = Duo(e: Ends, ea: seq<L.Event>, eb: seq<L.Event>)

  function StepDuo(d: Duo, t: Turn): Duo
  {
    if t.side.A? then Duo(StepEnds(d.e, t), d.ea + Do(d.e.a.h.s, t.call).out.events, d.eb)
    else Duo(StepEnds(d.e, t), d.ea, d.eb + Do(d.e.b.h.s, t.call).out.events)
  }

  function RunDuo(d: Duo, turns: seq<Turn>): Duo
    decreases |turns|
  {
    if turns == [] then d else RunDuo(StepDuo(d, turns[0]), turns[1..])
  }

  lemma {:induction false} RunDuoRunsTurns(d: Duo, turns: seq<Turn>)
    ensures RunDuo(d, turns).e == RunTurns(d.e, turns)
    decreases |turns|
  {
    if turns != [] {
      RunDuoRunsTurns(StepDuo(d, turns[0]), turns[1..]);
    }
  }

  /** A call that opens again a session that has been closed before: a second connect(), or a SYN. */
  predicate Again(s: State, events: seq<L.Event>, c: Call)
  {
    && events != [] && s.machine.state.Closed?
    && ControlInput(s, c).Some? && Reopens(s.machine, ControlInput(s, c).value.inp)
  }

  predicate NeverAgain(d: Duo, turns: seq<Turn>)
    decreases |turns|
  {
    turns == [] ||
    (!(if turns[0].side.A? then Again(d.e.a.h.s, d.ea, turns[0].call) else Again(d.e.b.h.s, d.eb, turns[0].call)) &&
     NeverAgain(StepDuo(d, turns[0]), turns[1..]))
  }

  // ---- one end -------------------------------------------------------------------------------

  ghost predicate SameControl(sent: seq<Packet>, l: L.Life)
  {
    && (forall p :: p in l.sent ==> p.stream == 0)
    && (forall p: Packet :: p.stream == 0 ==> (p in sent <==> p in l.sent))
  }

  /** An end is a life: the same machine while the life lasts, and a closed one after it. */
  ghost predicate Mirrors(x: End, events: seq<L.Event>, l: L.Life)
  {
    && Apart(x.h.s) && LifeOk(l) && events == l.events && SameControl(x.sent, l)
    && x.h.s.machine.(lastRecv := l.m.lastRecv) == l.m
    && (!L.Over(l) ==> x.h.s.machine == l.m)
  }

  function LiveOn(l: L.Life, t: Option<L.Moment>): L.Life
  {
    if t.None? then l else L.Live(l, t.value.inp, t.value.now)
  }

  lemma ClosedStep(m: L.Machine, inp: L.Input, now: real)
    requires m.state.Closed? && m.pending.None? && !Reopens(m, inp)
    ensures var o := L.Step(m, inp, now); o.packets == [] && o.events == [] && o.m.(lastRecv := m.lastRecv) == m
  {
  }

  lemma MoreSameControl(sent: seq<Packet>, l: L.Life, more: seq<Packet>, l': L.Life, control: seq<Packet>)
    requires SameControl(sent, l) && l'.sent == l.sent + control
    requires M.OnStream(more, 0) == control && M.AllOn(control, 0)
    ensures SameControl(sent + more, l')
  {
    OnStreamHas(more);
  }

  lemma {:induction false} OnStreamHas(packets: seq<Packet>)
    ensures forall p: Packet :: p.stream == 0 ==> (p in M.OnStream(packets, 0) <==> p in packets)
  {
    if packets != [] {
      OnStreamHas(packets[1..]);
    }
  }

  /** One call keeps an end and its life alike, unless it opens the session again. */
  lemma CallMirrors(x: End, events: seq<L.Event>, l: L.Life, c: Call)
    requires Mirrors(x, events, l) && OffControlStream(c) && !Again(x.h.s, events, c)
    ensures Mirrors(StepEnd(x, c), events + Do(x.h.s, c).out.events, LiveOn(l, ControlInput(x.h.s, c)))
  {
    var t := ControlInput(x.h.s, c);
    var (o, l') := (Do(x.h.s, c), LiveOn(l, t));
    DoSpeaksOnZero(x.h.s, c);
    if t.None? {
      NothingFirst(l.sent);
      NothingFirst(events);
      MoreSameControl(x.sent, l, o.out.packets, l', []);
    } else if L.Over(l) {
      ClosedStep(x.h.s.machine, t.value.inp, t.value.now);
      NothingFirst(l.sent);
      NothingFirst(events);
      MoreSameControl(x.sent, l, o.out.packets, l', []);
    } else {
      LiveKeepsOk(l, t.value.inp, t.value.now);
      MoreSameControl(x.sent, l, o.out.packets, l', L.Step(l.m, t.value.inp, t.value.now).packets);
    }
  }

  // ---- both ends -----------------------------------------------------------------------------

  ghost predicate BothMirror(d: Duo, p: P.Pair)
  {
    Mirrors(d.e.a, d.ea, p.i) && Mirrors(d.e.b, d.eb, p.r)
  }

  /** What a turn of the sessions is to the lifecycles. */
  function PairTurn(d: Duo, t: Turn): Option<P.Turn>
  {
    var x := if t.side.A? then d.e.a else d.e.b;
    match ControlInput(x.h.s, t.call)
    case Some(mo) => Some(P.Turn(if t.side.A? then P.Initiator else P.Responder, mo.inp, mo.now))
    case None => None
  }

  function PairTurns(d: Duo, turns: seq<Turn>): seq<P.Turn>
    decreases |turns|
  {
    if turns == [] then []
    else
      var rest := PairTurns(StepDuo(d, turns[0]), turns[1..]);
      match PairTurn(d, turns[0])
      case Some(t) => [t] + rest
      case None => rest
  }

  /** A control packet that arrives is one the other life sent. */
  lemma ArrivalWasSaid(s: State, c: Call, sent: seq<Packet>, l: L.Life)
    requires SameControl(sent, l) && (c.Frame? ==> Understood(c.raw, sent))
    ensures var t := ControlInput(s, c); t.Some? && t.value.inp.Receive? ==> t.value.inp.p in l.sent
  {
  }

  /** One end acts. */
  lemma EndActs(x: End, events: seq<L.Event>, l: L.Life, y: End, other: L.Life, c: Call, x': End, events': seq<L.Event>)
    requires Mirrors(x, events, l) && SameControl(y.sent, other) && OffControlStream(c) && !Again(x.h.s, events, c)
    requires c.Frame? ==> Understood(c.raw, y.sent)
    requires x' == StepEnd(x, c) && events' == events + Do(x.h.s, c).out.events
    ensures match ControlInput(x.h.s, c)
      case Some(mo) => (mo.inp.Receive? ==> mo.inp.p in other.sent) && Mirrors(x', events', L.Live(l, mo.inp, mo.now))
      case None => Mirrors(x', events', l)
  {
    CallMirrors(x, events, l, c);
    ArrivalWasSaid(x.h.s, c, y.sent, other);
  }

  lemma TurnMirrors(d: Duo, p: P.Pair, t: Turn)
    requires BothMirror(d, p) && Possible(d.e, t)
    requires !(if t.side.A? then Again(d.e.a.h.s, d.ea, t.call) else Again(d.e.b.h.s, d.eb, t.call))
    ensures match PairTurn(d, t)
      case Some(u) => P.Enabled(p, u) && BothMirror(StepDuo(d, t), P.StepPair(p, u))
      case None => BothMirror(StepDuo(d, t), p)
  {
    var d' := StepDuo(d, t);
    if t.side.A? {
      EndActs(d.e.a, d.ea, p.i, d.e.b, p.r, t.call, d'.e.a, d'.ea);
    } else {
      EndActs(d.e.b, d.eb, p.r, d.e.a, p.i, t.call, d'.e.b, d'.eb);
    }
  }

  lemma {:induction false} RunMirrors(d: Duo, p: P.Pair, turns: seq<Turn>)
    requires BothMirror(d, p) && LegalTurns(d.e, turns) && NeverAgain(d, turns)
    ensures P.Legal(p, PairTurns(d, turns)) && BothMirror(RunDuo(d, turns), P.RunPair(p, PairTurns(d, turns)))
    decreases |turns|
  {
    if turns != [] {
      var d1 := StepDuo(d, turns[0]);
      var rest := PairTurns(d1, turns[1..]);
      TurnMirrors(d, p, turns[0]);
      match PairTurn(d, turns[0]) {
        case Some(u) =>
          RunMirrors(d1, P.StepPair(p, u), turns[1..]);
          assert PairTurns(d, turns) == [u] + rest;
          PairStep(p, u, rest);
        case None =>
          RunMirrors(d1, p, turns[1..]);
      }
    }
  }

  // ---- what the sessions agree on ----------------------------------------------------------------

  predicate FreshDuo(d: Duo, sid: int)
  {
    FreshEnds(d.e, sid) && d.ea == [] && d.eb == []
  }

  /** The lives the two sessions begin with. */
  function FreshLives(d: Duo): P.Pair
  {
    P.Pair(L.NewLife(d.e.a.h.s.machine.cfg, d.e.a.h.s.machine.sid), L.NewLife(d.e.b.h.s.machine.cfg, d.e.b.h.s.machine.sid))
  }

  lemma FreshMirrors(d: Duo, sid: int)
    requires FreshDuo(d, sid)
    ensures P.FreshPair(FreshLives(d)) && BothMirror(d, FreshLives(d)) && FreshLives(d).i.m.sid == sid
  {
  }

  predicate Sent(x: End, t: PacketType)
  {
    exists p :: p in x.sent && p.stream == 0 && p.ptype == t
  }

  lemma SentIsSaid(x: End, events: seq<L.Event>, l: L.Life, t: PacketType)
    requires Mirrors(x, events, l) && Said(l, t)
    ensures Sent(x, t)
  {
    var p :| p in l.sent && p.ptype == t;
    assert p in x.sent;
  }

  /** Whatever the two applications call and whatever the channel does to the frames, as long as neither
      session is opened a second time: the accepting session is established only if the connecting one was,
      that one only if it was answered, and both then run under the id the connecting one proposed. */
  lemma SessionsAgree(d: Duo, sid: int, turns: seq<Turn>)
    requires FreshDuo(d, sid) && LegalTurns(d.e, turns) && NeverAgain(d, turns)
    ensures var f := RunDuo(d, turns);
      && (L.ESTABLISHED in f.eb ==> L.ESTABLISHED in f.ea)
      && (L.ESTABLISHED in f.ea ==>
            Sent(f.e.b, SYN_ACK) && f.e.a.h.s.machine.sid == sid && f.e.b.h.s.machine.sid == sid)
      && !(L.PEER_CLOSED in f.ea && L.PEER_CLOSED in f.eb)
  {
    var p := FreshLives(d);
    var f := RunDuo(d, turns);
    var q := P.RunPair(p, PairTurns(d, turns));
    FreshMirrors(d, sid);
    RunMirrors(d, p, turns);
    P.HandshakeAgrees(p, PairTurns(d, turns));
    P.OnlyOneIsPassive(p, PairTurns(d, turns));
    P.RunKeepsPair(p, PairTurns(d, turns));
    if L.ESTABLISHED in f.ea {
      SentIsSaid(f.e.b, f.eb, q.r, SYN_ACK);
    }
  }

  /** The other end of a close: its FIN was acknowledged by it and it sent its own. */
  predicate ClosesToo(y: End, events: seq<L.Event>)
  {
    var m := y.h.s.machine;
    m.peerFinAcked && (m.state.FinWait? || m.state.CloseWait? || (m.state.Closed? && events != []))
  }

  lemma ClosesTooByLife(y: End, events: seq<L.Event>, l: L.Life)
    requires Mirrors(y, events, l) && l.m.peerFinAcked && (l.m.state.FinWait? || l.m.state.CloseWait? || L.Over(l))
    ensures ClosesToo(y, events)
  {
  }

  /** Where a frame ends the life of a machine, as a step of the lives. */
  lemma ClosingFrame(x: End, events: seq<L.Event>, l: L.Life, c: Call)
    requires Mirrors(x, events, l) && OffControlStream(c) && c.Frame?
    requires !x.h.s.machine.state.Closed? && StepEnd(x, c).h.s.machine.state.Closed?
    ensures var t := ControlInput(x.h.s, c);
      t.Some? && t.value.inp.Receive? && !L.Over(l) && L.Over(LiveOn(l, t))
  {
    DoSpeaksOnZero(x.h.s, c);
  }

  /** When a frame closes a session, the other has acknowledged its FIN and sent its own: it is closing or
      closed as well. */
  lemma SessionsCloseTogether(d: Duo, sid: int, turns: seq<Turn>, f: Duo, t: Turn)
    requires FreshDuo(d, sid) && LegalTurns(d.e, turns) && NeverAgain(d, turns) && f == RunDuo(d, turns)
    requires Possible(f.e, t) && t.call.Frame?
    ensures var (x, x', y, ey) := if t.side.A? then (f.e.a, StepEnd(f.e.a, t.call), f.e.b, f.eb) else (f.e.b, StepEnd(f.e.b, t.call), f.e.a, f.ea);
      !x.h.s.machine.state.Closed? && x'.h.s.machine.state.Closed? ==> ClosesToo(y, ey)
  {
    var p := FreshLives(d);
    var q := P.RunPair(p, PairTurns(d, turns));
    FreshMirrors(d, sid);
    RunMirrors(d, p, turns);
    var (x, events, l, y, ey, m) := if t.side.A? then (f.e.a, f.ea, q.i, f.e.b, f.eb, q.r) else (f.e.b, f.eb, q.r, f.e.a, f.ea, q.i);
    if !x.h.s.machine.state.Closed? && StepEnd(x, t.call).h.s.machine.state.Closed? {
      ClosingFrame(x, events, l, t.call);
      ArrivalWasSaid(x.h.s, t.call, y.sent, m);
      P.GracefulCloseIsShared(p, PairTurns(d, turns), PairTurn(f, t).value);
      ClosesTooByLife(y, ey, m);
    }
  }
}
