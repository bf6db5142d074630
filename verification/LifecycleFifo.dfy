/** The same two incarnations over a link that loses nothing and keeps order, with no timer due: any
    interleaving of deliveries and close() calls comes to rest, with both sides closed once either called. */
module LifecycleFifo {
  import opened Prelude
  import opened Packets
  import opened Lifecycle
  import opened LifecycleLocal
  import opened LifecyclePair

  /** `qi` holds what the initiator sent and the responder has not received yet; `qr` the reverse. */
  datatype Link = Link(s: Pair, qi: seq<Packet>, qr: seq<Packet>)

  datatype Move = Dial | HangUp(who: Role) | Deliver(to: Role)

  predicate CanMove(k: Link, mv: Move)
  {
    mv.Deliver? ==> (if mv.to.Initiator? then k.qr else k.qi) != []
  }

  function TurnOf(k: Link, mv: Move, now: real): Turn
    requires CanMove(k, mv)
  {
    match mv
    case Dial => Turn(Initiator, Opening, now)
    case HangUp(who) => Turn(who, Closing, now)
    case Deliver(to) => Turn(to, Receive(if to.Initiator? then k.qr[0] else k.qi[0]), now)
  }

  function StepLink(k: Link, mv: Move, now: real): Link
    requires CanMove(k, mv)
  {
    var t := TurnOf(k, mv, now);
    var s := StepPair(k.s, t);
    if t.role.Initiator? then
      Link(s, k.qi + s.i.sent[|k.s.i.sent|..], if mv.Deliver? then k.qr[1..] else k.qr)
    else
      Link(s, if mv.Deliver? then k.qi[1..] else k.qi, k.qr + s.r.sent[|k.s.r.sent|..])
  }

  datatype TimedMove = TimedMove(mv: Move, now: real)

  predicate LegalMoves(k: Link, moves: seq<TimedMove>)
    decreases |moves|
  {
    moves == [] || (CanMove(k, moves[0].mv) && LegalMoves(StepLink(k, moves[0].mv, moves[0].now), moves[1..]))
  }

  function RunLink(k: Link, moves: seq<TimedMove>): Link
    requires LegalMoves(k, moves)
    decreases |moves|
  {
    if moves == [] then k else RunLink(StepLink(k, moves[0].mv, moves[0].now), moves[1..])
  }

  /** Moves that are not refused: every delivery, and the calls that do something. */
  function Effective(k: Link, moves: seq<TimedMove>): nat
    requires LegalMoves(k, moves)
    decreases |moves|
  {
    if moves == [] then 0
    else
      var k1 := StepLink(k, moves[0].mv, moves[0].now);
      (if k1 == k then 0 else 1) + Effective(k1, moves[1..])
  }

  // ---- what is in flight -----------------------------------------------------------------------

  function Bit(b: bool): nat
  {
    if b then 1 else 0
  }

  predicate FinSent(x: Life)
  {
    x.m.state.FinWait? || x.m.state.CloseWait? || Over(x)
  }

  /** Both directions torn down, and surfaced as such. */
  predicate ClosedGracefully(x: Life)
  {
    && Over(x) && x.m.finAcked && x.m.peerFinAcked
    && (x.events == [ESTABLISHED, CLOSED] || x.events == [ESTABLISHED, PEER_CLOSED, CLOSED])
  }

  /** Each FIN is either in flight or acknowledged by its receiver, each FIN_ACK in flight or received. */
  predicate CloseOk(x: Life, y: Life, qx: seq<Packet>, qy: seq<Packet>)
  {
    && Count(qx, FIN) + Bit(y.m.peerFinAcked) == Bit(FinSent(x))
    && Count(qy, FIN_ACK) + Bit(x.m.finAcked) == Bit(y.m.peerFinAcked)
    && (Over(x) ==> ClosedGracefully(x))
  }

  /** Where the handshake stands. */
  predicate HandshakeOk(i: Life, r: Life, qi: seq<Packet>, qr: seq<Packet>)
  {
    if !i.begun then qi == [] && qr == [] && !r.begun
    else if i.m.state.SynSent? then
      || (|qi| == 1 && qi[0].ptype == SYN && qr == [] && !r.begun)
      || (qi == [] && |qr| == 1 && qr[0].ptype == SYN_ACK && r.m.state.SynRcvd?)
    else
      && r.begun
      && Count(qi, SYN) == 0 && Count(qr, SYN_ACK) == 0
      && if r.m.state.SynRcvd? then qi != [] && qi[0].ptype == ACK && Count(qi[1..], ACK) == 0 && qr == []
         else Count(qi, ACK) == 0
  }

  predicate InFlight(q: seq<Packet>, sent: seq<Packet>)
  {
    forall p :: p in q ==> p in sent
  }

  predicate LinkOk(k: Link)
  {
    && PairOk(k.s)
    && InFlight(k.qi, k.s.i.sent) && InFlight(k.qr, k.s.r.sent)
    && HandshakeOk(k.s.i, k.s.r, k.qi, k.qr)
    && CloseOk(k.s.i, k.s.r, k.qi, k.qr)
    && CloseOk(k.s.r, k.s.i, k.qr, k.qi)
  }

  predicate FreshLink(k: Link)
  {
    FreshPair(k.s) && k.qi == [] && k.qr == []
  }

  // ---- the measure -----------------------------------------------------------------------------

  function Weight(q: seq<Packet>): nat
  {
    if q == [] then 0
    else (match q[0].ptype case SYN => 3 case SYN_ACK => 2 case FIN => 2 case _ => 1) + Weight(q[1..])
  }

  lemma {:induction false} WeightAppend(q: seq<Packet>, more: seq<Packet>)
    ensures Weight(q + more) == Weight(q) + Weight(more)
  {
    if q == [] {
      assert q + more == more;
    } else {
      assert (q + more)[1..] == q[1..] + more;
      WeightAppend(q[1..], more);
    }
  }

  lemma WeightOfTwo(a: Packet, b: Packet)
    ensures Weight([a, b]) == Weight([a]) + Weight([b])
  {
    assert [a, b][1..] == [b];
  }

  function Potential(x: Life): nat
  {
    (if FinSent(x) then 0 else 3) + (if x.begun || !x.m.cfg.initiator then 0 else 4)
  }

  /** A refused call changes nothing; any other input gives out less than it uses up. */
  lemma CallSpends(x: Life, inp: Input, now: real)
    requires LifeOk(x) && !Over(x) && (inp.Opening? || inp.Closing?)
    ensures var o := Step(x.m, inp, now); var x' := Live(x, inp, now);
      if x'.m == x.m then x' == x && o.packets == [] else Weight(o.packets) + Potential(x') < Potential(x)
  {
    assert x.received + [] == x.received && x.sent + [] == x.sent && x.events + [] == x.events;
  }

  lemma DeliverySpends(x: Life, p: Packet, now: real)
    requires LifeOk(x) && !Over(x)
    ensures var o := OnPacket(x.m, p, now); var x' := Live(x, Receive(p), now);
      Weight(o.packets) + Potential(x') < Weight([p]) + Potential(x)
  {
    WeightOfTwo(FinAckFor(x.m, p), FinPacket(x.m));
  }

  /** What is in flight, and what each side may still set off. */
  function Energy(k: Link): nat
  {
    Weight(k.qi) + Weight(k.qr) + Potential(k.s.i) + Potential(k.s.r)
  }

  /** One side's share of the energy: what it has put in flight and what it may still set off. */
  lemma SideSpends(x: Life, qx: seq<Packet>, inp: Input, now: real)
    requires LifeOk(x) && (inp.Receive? || inp.Opening? || inp.Closing?)
    ensures var x' := Live(x, inp, now); var qx' := qx + x'.sent[|x.sent|..];
      var before := Weight(qx) + Potential(x); var after := Weight(qx') + Potential(x');
      if inp.Receive? then after < before + Weight([inp.p]) else (x' == x && qx' == qx) || after < before
  {
    var x' := Live(x, inp, now);
    assert qx + [] == qx;
    if Over(x) {
      assert x.sent[|x.sent|..] == [];
    } else {
      var o := Step(x.m, inp, now);
      assert x'.sent[|x.sent|..] == o.packets;
      WeightAppend(qx, o.packets);
      if inp.Receive? {
        DeliverySpends(x, inp.p, now);
      } else {
        CallSpends(x, inp, now);
      }
    }
  }

  lemma StepLowersEnergy(k: Link, mv: Move, now: real)
    requires PairOk(k.s) && CanMove(k, mv)
    ensures StepLink(k, mv, now) == k || Energy(StepLink(k, mv, now)) < Energy(k)
  {
    var t := TurnOf(k, mv, now);
    if t.role.Initiator? {
      SideSpends(k.s.i, k.qi, t.inp, now);
    } else {
      SideSpends(k.s.r, k.qr, t.inp, now);
    }
  }

  // ---- the counting invariant ------------------------------------------------------------------

  lemma CallKeepsClose(x: Life, y: Life, qx: seq<Packet>, qy: seq<Packet>, inp: Input, now: real)
    requires LifeOk(x) && LifeOk(y) && !Over(x) && (inp.Opening? || inp.Closing?)
    requires CloseOk(x, y, qx, qy) && CloseOk(y, x, qy, qx)
    ensures var x' := Live(x, inp, now); var qx' := qx + Step(x.m, inp, now).packets;
      CloseOk(x', y, qx', qy) && CloseOk(y, x', qy, qx')
  {
    var o := Step(x.m, inp, now);
    CountAppend(qx, o.packets, FIN);
    CountAppend(qx, o.packets, FIN_ACK);
  }

  /** What receiving `p` does to the close bookkeeping of one side. */
  predicate Effect(x: Life, x': Life, t: PacketType, out: seq<Packet>)
  {
    && Count(out, FIN) == Bit(t == FIN && !FinSent(x))
    && Count(out, FIN_ACK) == Bit(t == FIN)
    && x'.m.peerFinAcked == (x.m.peerFinAcked || t == FIN)
    && x'.m.finAcked == (x.m.finAcked || t == FIN_ACK)
    && FinSent(x') == (FinSent(x) || t == FIN)
    && (Over(x') ==> ClosedGracefully(x'))
  }

  lemma DeliveryEffect(x: Life, p: Packet, now: real)
    requires LifeOk(x) && !Over(x) && (x.begun ==> p.session == x.m.sid)
    requires p.ptype == FIN ==> x.m.state.Established? || (x.m.state.FinWait? && !x.m.peerFinAcked)
    requires p.ptype == FIN_ACK ==> x.m.state.FinWait? || x.m.state.CloseWait?
    ensures Effect(x, Live(x, Receive(p), now), p.ptype, OnPacket(x.m, p, now).packets)
  {
    CountOfTwo(FinAckFor(x.m, p), FinPacket(x.m), FIN);
    CountOfTwo(FinAckFor(x.m, p), FinPacket(x.m), FIN_ACK);
    if Over(Live(x, Receive(p), now)) {
      ClosingPacket(x.m, p, now);
    }
  }

  lemma DeliveryKeepsClose(x: Life, y: Life, qx: seq<Packet>, qy: seq<Packet>, now: real)
    requires LifeOk(x) && !Over(x) && qy != []
    requires x.begun ==> qy[0].session == x.m.sid
    requires qy[0].ptype == FIN || qy[0].ptype == FIN_ACK ==> Opened(x.m)
    requires CloseOk(x, y, qx, qy) && CloseOk(y, x, qy, qx)
    ensures var x' := Live(x, Receive(qy[0]), now); var qx' := qx + OnPacket(x.m, qy[0], now).packets;
      CloseOk(x', y, qx', qy[1..]) && CloseOk(y, x', qy[1..], qx')
  {
    var out := OnPacket(x.m, qy[0], now).packets;
    CountAppend(qx, out, FIN);
    CountAppend(qx, out, FIN_ACK);
    assert Count(qy, FIN) == Bit(qy[0].ptype == FIN) + Count(qy[1..], FIN);
    assert Count(qy, FIN_ACK) == Bit(qy[0].ptype == FIN_ACK) + Count(qy[1..], FIN_ACK);
    DeliveryEffect(x, qy[0], now);
    CloseFollows(x, Live(x, Receive(qy[0]), now), y, qx, qy, out);
  }

  lemma CloseFollows(x: Life, x': Life, y: Life, qx: seq<Packet>, qy: seq<Packet>, out: seq<Packet>)
    requires qy != [] && Effect(x, x', qy[0].ptype, out)
    requires CloseOk(x, y, qx, qy) && CloseOk(y, x, qy, qx)
    requires forall t :: t == FIN || t == FIN_ACK ==> Count(qx + out, t) == Count(qx, t) + Count(out, t)
    requires forall t :: t == FIN || t == FIN_ACK ==> Count(qy, t) == Bit(qy[0].ptype == t) + Count(qy[1..], t)
    ensures CloseOk(x', y, qx + out, qy[1..]) && CloseOk(y, x', qy[1..], qx + out)
  {
  }

  // ---- the handshake invariant -----------------------------------------------------------------

  predicate NoneOf(q: seq<Packet>)
  {
    Count(q, SYN) == 0 && Count(q, SYN_ACK) == 0 && Count(q, ACK) == 0
  }

  /** Once open, a side sends FIN and FIN_ACK only, and does not return to the handshake. */
  lemma CloseSideStays(x: Life, inp: Input, now: real)
    requires LifeOk(x) && !Over(x) && Opened(x.m)
    requires inp.Opening? || inp.Closing? || (inp.Receive? && inp.p.ptype != SYN_ACK)
    ensures var x' := Live(x, inp, now);
      x'.begun && NoneOf(Step(x.m, inp, now).packets) && (Opened(x'.m) || Over(x'))
  {
    if inp.Receive? {
      CountOfTwo(FinAckFor(x.m, inp.p), FinPacket(x.m), SYN);
      CountOfTwo(FinAckFor(x.m, inp.p), FinPacket(x.m), SYN_ACK);
      CountOfTwo(FinAckFor(x.m, inp.p), FinPacket(x.m), ACK);
    }
  }

  predicate Arrives(inp: Input, q: seq<Packet>, sid: int)
  {
    inp.Receive? && q != [] && inp.p == q[0] && inp.p.session == sid
  }

  function Rest(inp: Input, q: seq<Packet>): seq<Packet>
  {
    if inp.Receive? && q != [] then q[1..] else q
  }

  lemma OpenInitiatorActs(i: Life, r: Life, qi: seq<Packet>, qr: seq<Packet>, inp: Input, now: real)
    requires LifeOk(i) && !Over(i) && Opened(i.m)
    requires HandshakeOk(i, r, qi, qr)
    requires inp.Opening? || inp.Closing? || Arrives(inp, qr, i.m.sid)
    ensures HandshakeOk(Live(i, inp, now), r, qi + Step(i.m, inp, now).packets, Rest(inp, qr))
  {
    var out := Step(i.m, inp, now).packets;
    CloseSideStays(i, inp, now);
    CountAppend(qi, out, SYN);
    CountAppend(qi, out, ACK);
    if qi != [] {
      assert (qi + out)[1..] == qi[1..] + out;
      CountAppend(qi[1..], out, ACK);
    }
  }

  lemma OpeningInitiatorActs(i: Life, r: Life, qi: seq<Packet>, qr: seq<Packet>, inp: Input, now: real)
    requires LifeOk(i) && i.m.cfg.initiator && !Over(i) && !Opened(i.m)
    requires HandshakeOk(i, r, qi, qr) && (r.m.state.SynRcvd? ==> r.begun)
    requires inp.Opening? || inp.Closing? || Arrives(inp, qr, i.m.sid)
    ensures HandshakeOk(Live(i, inp, now), r, qi + Step(i.m, inp, now).packets, Rest(inp, qr))
  {
    assert qi + [] == qi;
  }

  lemma ResponderActs(i: Life, r: Life, qi: seq<Packet>, qr: seq<Packet>, inp: Input, now: real)
    requires LifeOk(r) && !Over(r) && !r.m.cfg.initiator
    requires HandshakeOk(i, r, qi, qr)
    requires inp.Closing? || (Arrives(inp, qi, if r.begun then r.m.sid else i.m.sid) && inp.p.ptype != SYN_ACK)
    ensures HandshakeOk(i, Live(r, inp, now), Rest(inp, qi), qr + Step(r.m, inp, now).packets)
  {
    var out := Step(r.m, inp, now).packets;
    if Opened(r.m) {
      CloseSideStays(r, inp, now);
      CountAppend(qr, out, SYN_ACK);
    } else {
      assert qr + [] == qr;
    }
  }

  // ---- one move --------------------------------------------------------------------------------

  predicate BothWays(x: Life, y: Life, qx: seq<Packet>, qy: seq<Packet>)
  {
    CloseOk(x, y, qx, qy) && CloseOk(y, x, qy, qx)
  }

  /** No FIN and no FIN_ACK reaches a side whose incarnation is over. */
  lemma OverTakesNothing(x: Life, y: Life, qx: seq<Packet>, qy: seq<Packet>)
    requires BothWays(x, y, qx, qy) && Over(x) && qy != []
    ensures BothWays(x, y, qx, qy[1..])
  {
  }

  lemma SideKeepsClose(x: Life, y: Life, qx: seq<Packet>, qy: seq<Packet>, inp: Input, now: real)
    requires LifeOk(x) && LifeOk(y) && BothWays(x, y, qx, qy)
    requires inp.Opening? || inp.Closing? || (inp.Receive? && qy != [] && inp.p == qy[0])
    requires inp.Receive? && x.begun ==> inp.p.session == x.m.sid
    requires inp.Receive? && (inp.p.ptype == FIN || inp.p.ptype == FIN_ACK) ==> Opened(x.m) || Over(x)
    ensures var x' := Live(x, inp, now);
      BothWays(x', y, qx + x'.sent[|x.sent|..], Rest(inp, qy))
  {
    var x' := Live(x, inp, now);
    assert qx + [] == qx;
    if Over(x) {
      assert x.sent[|x.sent|..] == [];
      if inp.Receive? {
        OverTakesNothing(x, y, qx, qy);
      }
    } else {
      assert x'.sent[|x.sent|..] == Step(x.m, inp, now).packets;
      if inp.Receive? {
        DeliveryKeepsClose(x, y, qx, qy, now);
      } else {
        CallKeepsClose(x, y, qx, qy, inp, now);
      }
    }
  }

  lemma HeadIsTimely(i: Life, r: Life, qi: seq<Packet>, qr: seq<Packet>)
    requires LifeOk(i) && LifeOk(r) && HandshakeOk(i, r, qi, qr) && i.m.cfg.initiator && !r.m.cfg.initiator
    ensures qr != [] && (qr[0].ptype == FIN || qr[0].ptype == FIN_ACK) ==> Opened(i.m) || Over(i)
    ensures qi != [] && (qi[0].ptype == FIN || qi[0].ptype == FIN_ACK) ==> Opened(r.m) || Over(r)
  {
  }

  lemma InitiatorKeepsHandshake(i: Life, r: Life, qi: seq<Packet>, qr: seq<Packet>, inp: Input, now: real)
    requires LifeOk(i) && LifeOk(r) && i.m.cfg.initiator && HandshakeOk(i, r, qi, qr)
    requires inp.Opening? || inp.Closing? || Arrives(inp, qr, i.m.sid)
    ensures var i' := Live(i, inp, now); HandshakeOk(i', r, qi + i'.sent[|i.sent|..], Rest(inp, qr))
  {
    var i' := Live(i, inp, now);
    if Over(i) {
      assert i.sent[|i.sent|..] == [] && qi + [] == qi;
    } else {
      assert i'.sent[|i.sent|..] == Step(i.m, inp, now).packets;
      if Opened(i.m) {
        OpenInitiatorActs(i, r, qi, qr, inp, now);
      } else {
        OpeningInitiatorActs(i, r, qi, qr, inp, now);
      }
    }
  }

  lemma ResponderKeepsHandshake(i: Life, r: Life, qi: seq<Packet>, qr: seq<Packet>, inp: Input, now: real)
    requires LifeOk(i) && LifeOk(r) && !r.m.cfg.initiator && HandshakeOk(i, r, qi, qr)
    requires inp.Closing? || (Arrives(inp, qi, if r.begun then r.m.sid else i.m.sid) && inp.p.ptype != SYN_ACK)
    ensures var r' := Live(r, inp, now); HandshakeOk(i, r', Rest(inp, qi), qr + r'.sent[|r.sent|..])
  {
    var r' := Live(r, inp, now);
    if Over(r) {
      assert r.sent[|r.sent|..] == [] && qr + [] == qr;
    } else {
      assert r'.sent[|r.sent|..] == Step(r.m, inp, now).packets;
      ResponderActs(i, r, qi, qr, inp, now);
    }
  }

  lemma SendingIsInFlight(x: Life, inp: Input, now: real, qx: seq<Packet>)
    requires InFlight(qx, x.sent)
    ensures InFlight(qx + Live(x, inp, now).sent[|x.sent|..], Live(x, inp, now).sent)
  {
  }

  lemma StepKeepsLink(k: Link, mv: Move, now: real)
    requires LinkOk(k) && CanMove(k, mv)
    ensures LinkOk(StepLink(k, mv, now)) && SamePeers(k.s, StepLink(k, mv, now).s)
  {
    var t := TurnOf(k, mv, now);
    StepKeepsPair(k.s, t);
    HeadIsTimely(k.s.i, k.s.r, k.qi, k.qr);
    if t.role.Initiator? {
      InitiatorMoves(k, t);
    } else {
      ResponderMoves(k, t);
    }
  }

  lemma InitiatorMoves(k: Link, t: Turn)
    requires LinkOk(k) && t.role.Initiator?
    requires t.inp.Opening? || t.inp.Closing? || (t.inp.Receive? && k.qr != [] && t.inp.p == k.qr[0])
    ensures var i' := Live(k.s.i, t.inp, t.now); var qi' := k.qi + i'.sent[|k.s.i.sent|..]; var qr' := Rest(t.inp, k.qr);
      && HandshakeOk(i', k.s.r, qi', qr') && BothWays(i', k.s.r, qi', qr')
      && InFlight(qi', i'.sent) && InFlight(qr', k.s.r.sent)
  {
    HeadIsTimely(k.s.i, k.s.r, k.qi, k.qr);
    if t.inp.Receive? {
      assert Lawful(t.inp.p, k.s.i.m.sid, k.s.r.m.cfg.isn, k.s.i.m.cfg.isn, false);
    }
    InitiatorKeepsHandshake(k.s.i, k.s.r, k.qi, k.qr, t.inp, t.now);
    SideKeepsClose(k.s.i, k.s.r, k.qi, k.qr, t.inp, t.now);
    SendingIsInFlight(k.s.i, t.inp, t.now, k.qi);
  }

  lemma ResponderMoves(k: Link, t: Turn)
    requires LinkOk(k) && t.role.Responder?
    requires t.inp.Closing? || (t.inp.Receive? && k.qi != [] && t.inp.p == k.qi[0])
    ensures var r' := Live(k.s.r, t.inp, t.now); var qr' := k.qr + r'.sent[|k.s.r.sent|..]; var qi' := Rest(t.inp, k.qi);
      && HandshakeOk(k.s.i, r', qi', qr') && BothWays(r', k.s.i, qr', qi')
      && InFlight(qr', r'.sent) && InFlight(qi', k.s.i.sent)
  {
    HeadIsTimely(k.s.i, k.s.r, k.qi, k.qr);
    if t.inp.Receive? {
      assert Lawful(t.inp.p, k.s.i.m.sid, k.s.i.m.cfg.isn, k.s.r.m.cfg.isn, true);
    }
    ResponderKeepsHandshake(k.s.i, k.s.r, k.qi, k.qr, t.inp, t.now);
    SideKeepsClose(k.s.r, k.s.i, k.qr, k.qi, t.inp, t.now);
    SendingIsInFlight(k.s.r, t.inp, t.now, k.qr);
  }

  // ---- every run -------------------------------------------------------------------------------

  lemma {:induction false} RunKeepsLink(k: Link, moves: seq<TimedMove>)
    requires LinkOk(k) && LegalMoves(k, moves)
    ensures LinkOk(RunLink(k, moves))
    ensures Energy(RunLink(k, moves)) + Effective(k, moves) <= Energy(k)
    decreases |moves|
  {
    if moves != [] {
      StepKeepsLink(k, moves[0].mv, moves[0].now);
      StepLowersEnergy(k, moves[0].mv, moves[0].now);
      RunKeepsLink(StepLink(k, moves[0].mv, moves[0].now), moves[1..]);
    }
  }

  /** Over a lossless ordered link no run does more than ten effective moves, whatever the order of
      deliveries and close() calls. Once nothing is in flight, either the initiator never dialled, or
      both sides are established and nobody hung up, or both sides closed gracefully. */
  lemma EveryCloseCompletes(k: Link, moves: seq<TimedMove>)
    requires FreshLink(k) && LegalMoves(k, moves)
    ensures Effective(k, moves) <= 10
    ensures var e := RunLink(k, moves);
      e.qi == [] && e.qr == [] ==>
        || (!e.s.i.begun && !e.s.r.begun)
        || (e.s.i.m.state.Established? && e.s.r.m.state.Established?)
        || (ClosedGracefully(e.s.i) && ClosedGracefully(e.s.r))
    ensures var e := RunLink(k, moves);
      e.qi == [] && e.qr == [] && (Said(e.s.i, FIN) || Said(e.s.r, FIN)) ==> ClosedGracefully(e.s.i) && ClosedGracefully(e.s.r)
  {
    FreshIsOk(k);
    RunKeepsLink(k, moves);
    var e := RunLink(k, moves);
    if e.qi == [] && e.qr == [] {
      AtRest(e);
    }
  }

  lemma FreshIsOk(k: Link)
    requires FreshLink(k)
    ensures LinkOk(k) && Energy(k) == 10
  {
  }

  lemma AtRest(e: Link)
    requires LinkOk(e) && e.qi == [] && e.qr == []
    ensures (!e.s.i.begun && !e.s.r.begun)
      || (e.s.i.m.state.Established? && e.s.r.m.state.Established?)
      || (ClosedGracefully(e.s.i) && ClosedGracefully(e.s.r))
  {
  }
}
