/** An initiator and a responder over a network that may lose, duplicate and reorder: what the two
    incarnations agree on in every reachable state. */
module LifecyclePair {
  import opened Prelude
  import opened Packets
  import opened Lifecycle
  import opened LifecycleLocal

  datatype Role = Initiator | Responder

  datatype Pair = Pair(i: Life, r: Life)

  datatype Turn = Turn(role: Role, inp: Input, now: real)

  /** The network keeps every packet ever sent; any of them may arrive, any number of times. */
  predicate Enabled(s: Pair, t: Turn)
  {
    t.inp.Receive? ==> t.inp.p in (if t.role.Initiator? then s.r.sent else s.i.sent)
  }

  function StepPair(s: Pair, t: Turn): Pair
  {
    match t.role
    case Initiator => s.(i := Live(s.i, t.inp, t.now))
    case Responder => s.(r := Live(s.r, t.inp, t.now))
  }

  predicate Legal(s: Pair, turns: seq<Turn>)
    decreases |turns|
  {
    turns == [] || (Enabled(s, turns[0]) && Legal(StepPair(s, turns[0]), turns[1..]))
  }

  function RunPair(s: Pair, turns: seq<Turn>): Pair
    decreases |turns|
  {
    if turns == [] then s else RunPair(StepPair(s, turns[0]), turns[1..])
  }

  /** Every packet a peer can send, field by field. */
  predicate Lawful(p: Packet, sid: int, isn: int, peerIsn: int, initiator: bool)
  {
    match p.ptype
    case SYN => initiator && p == Make(sid, SYN, isn, 0, FLAG_SYN)
    case SYN_ACK => !initiator && p == Make(sid, SYN_ACK, isn, peerIsn + 1, FLAG_SYN + FLAG_ACK)
    case ACK => initiator && p == Make(sid, ACK, isn + 1, peerIsn + 1, FLAG_ACK)
    case FIN => p == Make(sid, FIN, isn + 1, 0, FLAG_FIN)
    case FIN_ACK => p == Make(sid, FIN_ACK, isn + 1, peerIsn + 2, FLAG_FIN + FLAG_ACK)
    case HEARTBEAT => p == Make(sid, HEARTBEAT, isn + 1, 0, FLAG_NONE)
    case _ => false
  }

  predicate AllLawful(sent: seq<Packet>, sid: int, isn: int, peerIsn: int, initiator: bool)
  {
    forall p :: p in sent ==> Lawful(p, sid, isn, peerIsn, initiator)
  }

  /** What a peer keeps about itself. */
  predicate OwnOk(x: Life, sid: int, peerIsn: int)
  {
    && LifeOk(x)
    && AllLawful(x.sent, sid, x.m.cfg.isn, peerIsn, x.m.cfg.initiator)
    && (x.m.pending.Some? ==> x.m.pending.value in x.sent)
    && (x.m.cfg.initiator || x.begun ==> x.m.sid == sid)
    && (x.sent != [] ==> x.begun)
    && (Said(x, ACK) ==> ESTABLISHED in x.events)
  }

  /** What a peer keeps about the other one. */
  predicate Toward(x: Life, y: Life)
  {
    && (ESTABLISHED in x.events ==> Said(y, if x.m.cfg.initiator then SYN_ACK else ACK))
    && (x.m.peerFinAcked ==> Said(y, FIN))
    && (x.m.finAcked ==> y.m.peerFinAcked)
    && (PEER_CLOSED in x.events ==> PEER_CLOSED !in y.events)
  }

  predicate PairOk(s: Pair)
  {
    && s.i.m.cfg.initiator && !s.r.m.cfg.initiator
    && OwnOk(s.i, s.i.m.sid, s.r.m.cfg.isn)
    && OwnOk(s.r, s.i.m.sid, s.i.m.cfg.isn)
    && Toward(s.i, s.r) && Toward(s.r, s.i)
  }

  /** What never changes. */
  predicate SamePeers(s: Pair, s': Pair)
  {
    s'.i.m.cfg == s.i.m.cfg && s'.r.m.cfg == s.r.m.cfg && s'.i.m.sid == s.i.m.sid
  }

  // ---- one step --------------------------------------------------------------------------------

  lemma SentLawful(x: Life, inp: Input, now: real, sid: int, peerIsn: int)
    requires OwnOk(x, sid, peerIsn) && !Over(x)
    requires inp.Receive? ==> Lawful(inp.p, sid, peerIsn, x.m.cfg.isn, !x.m.cfg.initiator)
    ensures AllLawful(Step(x.m, inp, now).packets, sid, x.m.cfg.isn, peerIsn, x.m.cfg.initiator)
  {
    match inp
    case Receive(p) => ReplyLawful(x, p, now, sid, peerIsn);
    case _ =>
  }

  lemma ReplyLawful(x: Life, p: Packet, now: real, sid: int, peerIsn: int)
    requires OwnOk(x, sid, peerIsn) && !Over(x)
    requires Lawful(p, sid, peerIsn, x.m.cfg.isn, !x.m.cfg.initiator)
    ensures AllLawful(OnPacket(x.m, p, now).packets, sid, x.m.cfg.isn, peerIsn, x.m.cfg.initiator)
  {
  }

  /** Facts about one step that need no network. */
  lemma StepFacts(x: Life, inp: Input, now: real, sid: int, peerIsn: int)
    requires OwnOk(x, sid, peerIsn) && !Over(x)
    requires inp.Receive? ==> inp.p.session == sid
    ensures var o := Step(x.m, inp, now);
      && o.m.cfg == x.m.cfg
      && (o.m.pending.Some? ==> o.m.pending == x.m.pending || o.m.pending.value in o.packets)
      && (x.m.cfg.initiator || x.begun ==> o.m.sid == x.m.sid)
      && (!o.m.state.Closed? ==> o.m.sid == sid)
      && (o.packets != [] ==> !o.m.state.Closed? || !x.m.state.Closed?)
      && ((exists p :: p in o.packets && p.ptype == ACK) ==> ESTABLISHED in o.events || ESTABLISHED in x.events)
  {
    match inp
    case Receive(p) => PacketFacts(x, p, now, sid, peerIsn);
    case _ =>
  }

  lemma PacketFacts(x: Life, p: Packet, now: real, sid: int, peerIsn: int)
    requires OwnOk(x, sid, peerIsn) && !Over(x)
    requires p.session == sid
    ensures var o := OnPacket(x.m, p, now);
      && o.m.cfg == x.m.cfg
      && (o.m.pending.Some? ==> o.m.pending == x.m.pending || o.m.pending.value in o.packets)
      && (x.m.cfg.initiator || x.begun ==> o.m.sid == x.m.sid)
      && (!o.m.state.Closed? ==> o.m.sid == sid)
      && (o.packets != [] ==> !o.m.state.Closed? || !x.m.state.Closed?)
      && ((exists p :: p in o.packets && p.ptype == ACK) ==> ESTABLISHED in o.events || ESTABLISHED in x.events)
  {
  }

  lemma OwnKept(x: Life, inp: Input, now: real, sid: int, peerIsn: int)
    requires OwnOk(x, sid, peerIsn)
    requires inp.Receive? ==> Lawful(inp.p, sid, peerIsn, x.m.cfg.isn, !x.m.cfg.initiator)
    ensures OwnOk(Live(x, inp, now), sid, peerIsn) && Live(x, inp, now).m.cfg == x.m.cfg
  {
    LiveKeepsOk(x, inp, now);
    if !Over(x) {
      StepFacts(x, inp, now, sid, peerIsn);
      SentLawful(x, inp, now, sid, peerIsn);
      SaidStays(x, inp, now, ACK);
    }
  }

  /** Hearing from the other side is how a peer learns about it. */
  lemma TowardKeptByActing(x: Life, y: Life, inp: Input, now: real)
    requires LifeOk(x) && LifeOk(y) && Toward(x, y) && Toward(y, x)
    requires x.m.cfg.initiator != y.m.cfg.initiator
    requires inp.Receive? ==> inp.p in y.sent
    ensures Toward(Live(x, inp, now), y)
  {
    if !Over(x) {
      var o := Step(x.m, inp, now);
      StepIsBacked(x.m, inp, now);
      StepSurfaces(x.m, inp, now);
    }
  }

  lemma TowardKeptByOther(x: Life, y: Life, inp: Input, now: real)
    requires LifeOk(x) && LifeOk(y) && Toward(x, y) && Toward(y, x)
    requires x.m.cfg.initiator != y.m.cfg.initiator
    requires inp.Receive? ==> inp.p in x.sent
    ensures Toward(x, Live(y, inp, now))
  {
    if !Over(y) {
      var o := Step(y.m, inp, now);
      StepIsBacked(y.m, inp, now);
      StepSurfaces(y.m, inp, now);
      SaidStays(y, inp, now, FIN);
      SaidStays(y, inp, now, if x.m.cfg.initiator then SYN_ACK else ACK);
    }
  }

  lemma StepKeepsPair(s: Pair, t: Turn)
    requires PairOk(s) && Enabled(s, t)
    ensures PairOk(StepPair(s, t)) && SamePeers(s, StepPair(s, t))
  {
    var sid := s.i.m.sid;
    match t.role
    case Initiator =>
      OwnKept(s.i, t.inp, t.now, sid, s.r.m.cfg.isn);
      TowardKeptByActing(s.i, s.r, t.inp, t.now);
      TowardKeptByOther(s.r, s.i, t.inp, t.now);
    case Responder =>
      OwnKept(s.r, t.inp, t.now, sid, s.i.m.cfg.isn);
      TowardKeptByActing(s.r, s.i, t.inp, t.now);
      TowardKeptByOther(s.i, s.r, t.inp, t.now);
  }

  // ---- every run -------------------------------------------------------------------------------

  predicate FreshPair(s: Pair)
  {
    && s.i == NewLife(s.i.m.cfg, s.i.m.sid) && s.i.m.cfg.initiator
    && s.r == NewLife(s.r.m.cfg, s.r.m.sid) && !s.r.m.cfg.initiator
  }

  lemma {:induction false} RunKeepsPair(s: Pair, turns: seq<Turn>)
    requires PairOk(s) && Legal(s, turns)
    ensures PairOk(RunPair(s, turns)) && SamePeers(s, RunPair(s, turns))
    decreases |turns|
  {
    if turns != [] {
      var s1 := StepPair(s, turns[0]);
      StepKeepsPair(s, turns[0]);
      RunKeepsPair(s1, turns[1..]);
    }
  }

  /** The responder is established only if the initiator was, the initiator only if the responder
      answered its SYN, and both then speak under the session id the initiator proposed. */
  lemma HandshakeAgrees(s: Pair, turns: seq<Turn>)
    requires FreshPair(s) && Legal(s, turns)
    ensures var e := RunPair(s, turns);
      && (ESTABLISHED in e.r.events ==> ESTABLISHED in e.i.events)
      && (ESTABLISHED in e.i.events ==> Said(e.r, SYN_ACK) && e.r.begun)
      && (ESTABLISHED in e.i.events ==> e.r.m.sid == e.i.m.sid == s.i.m.sid)
  {
    RunKeepsPair(s, turns);
  }

  /** Every packet either side ever sends is one of six, with every field fixed by the two initial
      sequence numbers and the proposed session id. */
  lemma EveryPacketIsLawful(s: Pair, turns: seq<Turn>)
    requires FreshPair(s) && Legal(s, turns)
    ensures var e := RunPair(s, turns);
      && AllLawful(e.i.sent, s.i.m.sid, s.i.m.cfg.isn, s.r.m.cfg.isn, true)
      && AllLawful(e.r.sent, s.i.m.sid, s.r.m.cfg.isn, s.i.m.cfg.isn, false)
  {
    RunKeepsPair(s, turns);
  }

  /** The header fields of a control packet, in numbers. */
  predicate ControlHeader(p: Packet, sid: int)
  {
    && p.session == sid && p.stream == 0 && p.window == 0 && p.version == 1 && p.payload == []
    && match p.ptype
       case SYN => p.flags == 1
       case SYN_ACK => p.flags == 3
       case ACK => p.flags == 2
       case FIN => p.flags == 4
       case FIN_ACK => p.flags == 6
       case HEARTBEAT => p.flags == 0
       case _ => false
  }

  /** Every packet either side ever sends is on stream 0 of the session, empty, and flagged by its kind. */
  lemma EveryControlHeader(s: Pair, turns: seq<Turn>)
    requires FreshPair(s) && Legal(s, turns)
    ensures var e := RunPair(s, turns);
      forall p :: p in e.i.sent || p in e.r.sent ==> ControlHeader(p, s.i.m.sid)
  {
    EveryPacketIsLawful(s, turns);
    var e := RunPair(s, turns);
    forall p | p in e.i.sent || p in e.r.sent ensures ControlHeader(p, s.i.m.sid) {
      if p in e.i.sent {
        assert Lawful(p, s.i.m.sid, s.i.m.cfg.isn, s.r.m.cfg.isn, true);
      } else {
        assert Lawful(p, s.i.m.sid, s.r.m.cfg.isn, s.i.m.cfg.isn, false);
      }
    }
  }

  /** At most one of the two ever sees the peer close first, so both are never in CloseWait. */
  lemma OnlyOneIsPassive(s: Pair, turns: seq<Turn>)
    requires FreshPair(s) && Legal(s, turns)
    ensures var e := RunPair(s, turns);
      && !(PEER_CLOSED in e.i.events && PEER_CLOSED in e.r.events)
      && !(e.i.m.state.CloseWait? && e.r.m.state.CloseWait?)
  {
    RunKeepsPair(s, turns);
  }

  /** When a packet closes one side, the other has acknowledged its FIN and sent its own: it is
      closing or closed too. */
  lemma GracefulCloseIsShared(s: Pair, turns: seq<Turn>, t: Turn)
    requires FreshPair(s) && Legal(s, turns) && Enabled(RunPair(s, turns), t) && t.inp.Receive?
    ensures var e := RunPair(s, turns); var e' := StepPair(e, t);
      var (x, x', y) := if t.role.Initiator? then (e.i, e'.i, e.r) else (e.r, e'.r, e.i);
      !Over(x) && Over(x') ==> y.m.peerFinAcked && (y.m.state.FinWait? || y.m.state.CloseWait? || Over(y))
  {
    RunKeepsPair(s, turns);
    var e := RunPair(s, turns);
    StepKeepsPair(e, t);
    var x := if t.role.Initiator? then e.i else e.r;
    if !Over(x) && OnPacket(x.m, t.inp.p, t.now).m.state.Closed? && !x.m.state.Closed? {
      ClosingPacket(x.m, t.inp.p, t.now);
    }
  }
}
