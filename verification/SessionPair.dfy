/** Two sessions, one initiator and one responder, over a channel that loses, repeats, reorders and damages
    frames: what the application at one end takes from a stream, against what the other end gave it. */
module SessionPair {
  import opened Prelude
  import opened Packets
  import opened Serial
  import opened Header
  import opened Rto
  import opened ArqModel
  import opened ArqSafety
  import opened ArqSystem
  import opened ArqTheorems
  import opened ArqWrap
  import opened ArqStored
  import opened MuxStreams
  import opened MuxPair
  import L = Lifecycle
  import M = Mux
  import opened S = Session

  /** A session with its history, every packet it ever sent and, per stream, the chunks its application
      submitted. */
  datatype End = End(h: History, sent: seq<Packet>, submitted: map<int, seq<bytes>>)

  datatype Ends = Ends(a: End, b: End, clock: real)

  datatype Turn = Turn(side: Side, call: Call)

  /** The time a call reads, or the time of the last one. */
  function TimeOf(c: Call, clock: real): real
  {
    match c
    case Connect(at) => at
    case Close(at) => at
    case Send(_, _, at) => at
    case Frame(_, at) => at
    case Clocks(_, dataAt) => dataAt
    case _ => clock
  }

  /** A frame that arrives decodes to a packet of the other side or is refused by the decoder. */
  predicate Understood(raw: bytes, sent: seq<Packet>)
  {
    match Unpack(raw)
    case Good(p) => p in sent
    case UnknownType => false
    case _ => true
  }

  /** What any link leaves alone: time runs forward, and applications keep off the control stream. */
  predicate Timely(e: Ends, t: Turn)
  {
    && e.clock <= TimeOf(t.call, e.clock)
    && (t.call.Send? ==> t.call.k != M.CONTROL_STREAM_ID)
  }

  function SentTo(e: Ends, side: Side): seq<Packet>
  {
    if side.A? then e.b.sent else e.a.sent
  }

  predicate Possible(e: Ends, t: Turn)
  {
    Timely(e, t) && (t.call.Frame? ==> Understood(t.call.raw, SentTo(e, t.side)))
  }

  function ChunksGiven(s: State, c: Call): map<int, seq<bytes>>
  {
    if c.Send? && s.machine.state.Established? then map[c.k := Chunks(c.data, s.mux.maxPayload)] else map[]
  }

  function StepEnd(x: End, c: Call): End
  {
    var o := Do(x.h.s, c);
    End(History(o.s, Logged(x.h.returned, o.out.returned), Logged(x.h.delivered, o.out.delivered)),
        x.sent + o.out.packets, Logged(x.submitted, ChunksGiven(x.h.s, c)))
  }

  function StepEnds(e: Ends, t: Turn): Ends
  {
    var clock := TimeOf(t.call, e.clock);
    if t.side.A? then Ends(StepEnd(e.a, t.call), e.b, clock) else Ends(e.a, StepEnd(e.b, t.call), clock)
  }

  predicate LegalTurns(e: Ends, turns: seq<Turn>)
    decreases |turns|
  {
    turns == [] || (Possible(e, turns[0]) && LegalTurns(StepEnds(e, turns[0]), turns[1..]))
  }

  /** The turns happen over a link that loses, repeats and reorders frames and may impair any of them. */
  ghost predicate OverLink(e: Ends, turns: seq<Turn>)
    decreases |turns|
  {
    turns == [] ||
    (Timely(e, turns[0]) && (turns[0].call.Frame? ==> Arrives(turns[0].call.raw, SentTo(e, turns[0].side))) &&
     OverLink(StepEnds(e, turns[0]), turns[1..]))
  }

  /** Such a link is one over which every frame is understood or refused: the checksum sees to it. */
  lemma {:induction false} LinkIsUnderstood(e: Ends, turns: seq<Turn>)
    requires OverLink(e, turns)
    ensures LegalTurns(e, turns)
    decreases |turns|
  {
    if turns != [] {
      if turns[0].call.Frame? {
        ArrivesSoundOrNotAtAll(turns[0].call.raw, SentTo(e, turns[0].side));
      }
      LinkIsUnderstood(StepEnds(e, turns[0]), turns[1..]);
    }
  }

  function RunTurns(e: Ends, turns: seq<Turn>): Ends
    decreases |turns|
  {
    if turns == [] then e else RunTurns(StepEnds(e, turns[0]), turns[1..])
  }

  // ---- one stream of an end --------------------------------------------------------------------

  /** What a call is to the endpoint of stream `k` once the mux speaks under `sid`; nothing before. */
  function StreamStep(s: State, c: Call, k: int, sid: int): Option<Input>
  {
    match c
    case Send(j, data, _) => if j == k && s.machine.state.Established? then Some(Submit(data)) else None
    case Frame(raw, _) =>
      (match Unpack(raw)
       case Good(p) => if p.stream == k && s.mux.session == sid then Some(Receive(p)) else None
       case _ => None)
    case Clocks(_, _) => if s.mux.session == sid then Some(Tick) else None
    case _ => None
  }

  predicate Pristine(y: Peer)
  {
    y.ep.snd.out == []
  }

  /** The lifecycle side: the id is the agreed one unless nothing was ever opened, and control packets
      stay on the control stream. */
  predicate MachineOk(m: L.Machine, sid: int)
  {
    && (m.sid == sid || (m.state.Closed? && !m.cfg.initiator))
    && (m.pending.Some? ==> ControlOk(m.pending.value, sid))
  }

  predicate ControlOk(p: Packet, sid: int)
  {
    p.stream == M.CONTROL_STREAM_ID && (p.ptype == SYN ==> p.session == sid)
  }

  /** The part of the reflection that a mux step moves. */
  ghost predicate Lane(mux: M.StreamMux, sent: seq<Packet>, delivered: map<int, seq<bytes>>, y: Peer, k: int, sid: int)
  {
    && M.MuxOk(mux) && M.StreamOf(mux, k).(session := sid) == y.ep && y.ep.cfg.maxPayload == mux.maxPayload
    && Log(delivered, k) == y.delivered
    && (forall p: Packet :: p.stream == k ==> (p in sent <==> p in y.sent))
  }

  /** Everything the stand-alone peer sends or keeps is under the agreed id. */
  ghost predicate OneVoice(y: Peer, sid: int)
  {
    y.ep.session == sid && AllStored(y.ep.snd.out, UnderSession(sid)) && forall p :: p in y.sent ==> p.session == sid
  }

  /** Nothing is ever in flight on the control stream of the mux. */
  predicate ControlStreamFree(mux: M.StreamMux)
  {
    M.StreamOf(mux, M.CONTROL_STREAM_ID).snd.out == []
  }

  /** The id under which the mux speaks; before it is the agreed one nothing is in flight. */
  predicate IdOk(mux: M.StreamMux, m: L.Machine, y: Peer, sid: int)
  {
    if mux.session == sid then m.sid == sid else Pristine(y) && !m.cfg.initiator
  }

  ghost predicate AllControlOk(sent: seq<Packet>, sid: int)
  {
    forall p :: p in sent && p.stream == M.CONTROL_STREAM_ID ==> ControlOk(p, sid)
  }

  /** Stream `k` of an end is the stand-alone peer `y`. */
  ghost predicate Reflects(x: End, y: Peer, k: int, sid: int)
  {
    var mux := x.h.s.mux;
    && Lane(mux, x.sent, x.h.delivered, y, k, sid) && OneVoice(y, sid) && ControlStreamFree(mux)
    && IdOk(mux, x.h.s.machine, y, sid) && MachineOk(x.h.s.machine, sid)
    && Log(x.submitted, k) == y.submitted
    && AllControlOk(x.sent, sid)
  }

  // ---- the lifecycle side ----------------------------------------------------------------------

  lemma MachineKeeps(m: L.Machine, inp: L.Input, now: real, sid: int)
    requires MachineOk(m, sid) && (inp.Receive? && inp.p.ptype == SYN ==> inp.p.session == sid)
    ensures var o := L.Step(m, inp, now);
      && MachineOk(o.m, sid) && o.m.cfg == m.cfg && (m.sid == sid ==> o.m.sid == sid)
      && forall p :: p in o.packets ==> ControlOk(p, sid)
  {
    match inp
    case Receive(p) => PacketKeepsMachine(m, p, now, sid);
    case _ =>
  }

  lemma PacketKeepsMachine(m: L.Machine, p: Packet, now: real, sid: int)
    requires MachineOk(m, sid) && (p.ptype == SYN ==> p.session == sid)
    ensures var o := L.OnPacket(m, p, now);
      && MachineOk(o.m, sid) && o.m.cfg == m.cfg && (m.sid == sid ==> o.m.sid == sid)
      && forall q :: q in o.packets ==> ControlOk(q, sid)
  {
  }

  // ---- the stream side -------------------------------------------------------------------------

  lemma StepKeepsShape(m: Arith, x: M.StreamMux, inp: M.MuxInput, now: real)
    requires !inp.Adopting?
    ensures var y := M.Step(m, x, inp, now).mux;
      y.session == x.session && y.maxPayload == x.maxPayload
  {
    match inp
    case Ticking => TickAllKeepsKeys(x, x.order, now);
    case _ =>
  }

  /** A mux that does not speak under `sid` yet does nothing on a stream with nothing in flight. */
  lemma ForeignStep(x: M.StreamMux, inp: M.MuxInput, now: real, k: int, sid: int)
    requires M.MuxOk(x) && x.session != sid && M.StreamOf(x, k).snd.out == []
    requires inp.Ticking? || inp.Opening? || (inp.Arriving? && (inp.p.stream == k ==> inp.p.session == sid))
    ensures var r := M.Step(Serial32, x, inp, now);
      M.MuxOk(r.mux) && M.StreamOf(r.mux, k) == M.StreamOf(x, k)
      && M.OnStream(r.out.packets, k) == [] && M.DeliveredOn(r.out, k) == []
  {
    StepShows(Serial32, x, inp, now, k);
    assert M.StreamOf(x, k).session == x.session;
  }

  lemma AdoptStep(x: M.StreamMux, id: int, k: int)
    requires M.MuxOk(x)
    ensures var y := M.SetSession(x, id);
      M.MuxOk(y) && M.StreamOf(y, k) == M.StreamOf(x, k).(session := id) && y.session == id && y.maxPayload == x.maxPayload
  {
    AdoptingShows(Serial32, x, id, 0.0, k);
  }

  lemma LaneIsMirror(x: Track, y: Peer, k: int, sid: int)
    requires x.mux.session == sid
    ensures Lane(x.mux, x.packets, x.delivered, y, k, sid)
      <==> Mirrors(x, y, k) && y.ep.cfg.maxPayload == x.mux.maxPayload
  {
    if M.MuxOk(x.mux) {
      assert M.StreamOf(x.mux, k).session == sid;
    }
  }

  lemma PayloadStays(y: Peer, c: Option<M.StreamInput>, now: real)
    ensures Moved(Serial32, y, c, now).ep.cfg == y.ep.cfg
  {
    if c.Some? && c.value.Act? {
      HalvesAreIndependent(Serial32, y.ep, c.value.input, now);
    }
  }

  lemma NativeLane(mux: M.StreamMux, sent: seq<Packet>, delivered: map<int, seq<bytes>>, y: Peer, k: int, sid: int,
                   inp: M.MuxInput, now: real)
    requires Lane(mux, sent, delivered, y, k, sid) && mux.session == sid && !inp.Adopting?
    ensures var r := M.Step(Serial32, mux, inp, now);
      && r.mux.session == sid
      && Lane(r.mux, sent + r.out.packets, Logged(delivered, r.out.delivered), Moved(Serial32, y, M.Concerning(inp, k), now), k, sid)
  {
    var x := Track(mux, sent, delivered);
    var x' := StepTrack(Serial32, x, Timed(inp, now));
    LaneIsMirror(x, y, k, sid);
    StepMirrors(Serial32, x, y, Timed(inp, now), k);
    StepKeepsShape(Serial32, mux, inp, now);
    PayloadStays(y, M.Concerning(inp, k), now);
    LaneIsMirror(x', Moved(Serial32, y, M.Concerning(inp, k), now), k, sid);
  }

  lemma ForeignLane(mux: M.StreamMux, sent: seq<Packet>, delivered: map<int, seq<bytes>>, y: Peer, k: int, sid: int,
                    inp: M.MuxInput, now: real)
    requires Lane(mux, sent, delivered, y, k, sid) && mux.session != sid && Pristine(y)
    requires inp.Ticking? || inp.Opening? || (inp.Arriving? && (inp.p.stream == k ==> inp.p.session == sid))
    ensures var r := M.Step(Serial32, mux, inp, now);
      && r.mux.session == mux.session
      && Lane(r.mux, sent + r.out.packets, Logged(delivered, r.out.delivered), y, k, sid)
  {
    var r := M.Step(Serial32, mux, inp, now);
    ForeignStep(mux, inp, now, k, sid);
    StepKeepsShape(Serial32, mux, inp, now);
    OnStreamMembers(r.out.packets, k);
    LogOfLogged(delivered, r.out.delivered, k);
    assert Log(r.out.delivered, k) == [];
    assert Log(delivered, k) + [] == Log(delivered, k);
  }

  lemma VoiceStays(y: Peer, sid: int, input: Input, now: real)
    requires OneVoice(y, sid)
    ensures OneVoice(StepPeer(Serial32, y, input, now), sid)
  {
    ReactSpeaks(Serial32, y.ep, input, now);
    HalvesAreIndependent(Serial32, y.ep, input, now);
    var packets := React(Serial32, y.ep, input, now).output.packets;
    forall p | p in StepPeer(Serial32, y, input, now).sent ensures p.session == sid {
      if p in packets {
        var i :| 0 <= i < |packets| && packets[i] == p;
        assert UnderSession(sid)(packets[i]);
      }
    }
  }

  /** No mux packet is on the control stream. */
  lemma ControlStreamStaysFree(mux: M.StreamMux, inp: M.MuxInput, now: real)
    requires M.MuxOk(mux) && ControlStreamFree(mux) && (inp.Sending? ==> inp.k != M.CONTROL_STREAM_ID)
    ensures var r := M.Step(Serial32, mux, inp, now);
      ControlStreamFree(r.mux) && forall p :: p in r.out.packets ==> p.stream != M.CONTROL_STREAM_ID
  {
    StepShows(Serial32, mux, inp, now, M.CONTROL_STREAM_ID);
    OnStreamMembers(M.Step(Serial32, mux, inp, now).out.packets, M.CONTROL_STREAM_ID);
  }

  lemma LaneIgnores(mux: M.StreamMux, sent: seq<Packet>, more: seq<Packet>, delivered: map<int, seq<bytes>>, y: Peer, k: int, sid: int)
    requires Lane(mux, sent, delivered, y, k, sid) && forall p :: p in more ==> p.stream != k
    ensures Lane(mux, sent + more, delivered, y, k, sid)
    ensures Lane(mux, sent + more, Logged(delivered, map[]), y, k, sid)
  {
    LogOfLogged(delivered, map[], k);
    assert Log(delivered, k) + [] == Log(delivered, k);
  }

  lemma MoreControl(sent: seq<Packet>, more: seq<Packet>, sid: int)
    requires AllControlOk(sent, sid) && forall p :: p in more ==> p.stream == M.CONTROL_STREAM_ID ==> ControlOk(p, sid)
    ensures AllControlOk(sent + more, sid)
  {
  }

  lemma NothingSubmitted(submitted: map<int, seq<bytes>>, k: int)
    ensures Log(Logged(submitted, map[]), k) == Log(submitted, k)
  {
    LogOfLogged(submitted, map[], k);
    assert Log(submitted, k) + [] == Log(submitted, k);
  }

  /** A call that only moves the lifecycle. */
  lemma ControlReflects(x: End, y: Peer, k: int, sid: int, inp: L.Input, at: real, x': End)
    requires Reflects(x, y, k, sid) && k != M.CONTROL_STREAM_ID
    requires inp.Receive? && inp.p.ptype == SYN ==> inp.p.session == sid
    requires var o := L.Step(x.h.s.machine, inp, at);
      && x'.h.s == x.h.s.(machine := o.m) && x'.sent == x.sent + o.packets
      && x'.h.delivered == Logged(x.h.delivered, map[]) && x'.submitted == Logged(x.submitted, map[])
    ensures Reflects(x', y, k, sid)
  {
    var o := L.Step(x.h.s.machine, inp, at);
    MachineKeeps(x.h.s.machine, inp, at, sid);
    LaneIgnores(x.h.s.mux, x.sent, o.packets, x.h.delivered, y, k, sid);
    MoreControl(x.sent, o.packets, sid);
    NothingSubmitted(x.submitted, k);
  }

  /** A mux step under the agreed id. */
  lemma NativeReflects(x: End, y: Peer, k: int, sid: int, inp: M.MuxInput, now: real, more: map<int, seq<bytes>>, x': End)
    requires Reflects(x, y, k, sid) && k != M.CONTROL_STREAM_ID && x.h.s.mux.session == sid
    requires !inp.Adopting? && (inp.Sending? ==> inp.k != M.CONTROL_STREAM_ID)
    requires var r := M.Step(Serial32, x.h.s.mux, inp, now);
      && x'.h.s.mux == r.mux && x'.sent == x.sent + r.out.packets && x'.h.delivered == Logged(x.h.delivered, r.out.delivered)
    requires x'.h.s.machine == x.h.s.machine && x'.submitted == Logged(x.submitted, more)
    requires Log(more, k) == (if inp.Sending? && inp.k == k then Chunks(inp.data, x.h.s.mux.maxPayload) else [])
    ensures Reflects(x', Moved(Serial32, y, M.Concerning(inp, k), now), k, sid)
  {
    var r := M.Step(Serial32, x.h.s.mux, inp, now);
    NativeLane(x.h.s.mux, x.sent, x.h.delivered, y, k, sid, inp, now);
    ControlStreamStaysFree(x.h.s.mux, inp, now);
    MoreControl(x.sent, r.out.packets, sid);
    SubmissionFollows(x.submitted, more, y, inp, now, k);
    VoiceMoves(y, sid, M.Concerning(inp, k), now);
  }

  lemma VoiceMoves(y: Peer, sid: int, c: Option<M.StreamInput>, now: real)
    requires OneVoice(y, sid)
    ensures OneVoice(Moved(Serial32, y, c, now), sid)
  {
    if c.Some? && c.value.Act? {
      VoiceStays(y, sid, c.value.input, now);
    }
  }

  /** The submission log grows on stream `k` by exactly what the stand-alone peer is given. */
  lemma SubmissionFollows(submitted: map<int, seq<bytes>>, more: map<int, seq<bytes>>, y: Peer, inp: M.MuxInput, now: real, k: int)
    requires Log(submitted, k) == y.submitted && !inp.Adopting?
    requires Log(more, k) == (if inp.Sending? && inp.k == k then Chunks(inp.data, y.ep.cfg.maxPayload) else [])
    ensures Log(Logged(submitted, more), k) == Moved(Serial32, y, M.Concerning(inp, k), now).submitted
  {
    LogOfLogged(submitted, more, k);
    assert y.submitted + [] == y.submitted;
  }

  /** A mux step before the id is agreed. */
  lemma ForeignReflects(x: End, y: Peer, k: int, sid: int, inp: M.MuxInput, now: real, x': End)
    requires Reflects(x, y, k, sid) && k != M.CONTROL_STREAM_ID && x.h.s.mux.session != sid
    requires inp.Ticking? || inp.Opening? || (inp.Arriving? && (inp.p.stream == k ==> inp.p.session == sid))
    requires var r := M.Step(Serial32, x.h.s.mux, inp, now);
      && x'.h.s.mux == r.mux && x'.sent == x.sent + r.out.packets && x'.h.delivered == Logged(x.h.delivered, r.out.delivered)
    requires x'.h.s.machine == x.h.s.machine && x'.submitted == Logged(x.submitted, map[])
    ensures Reflects(x', y, k, sid)
  {
    var r := M.Step(Serial32, x.h.s.mux, inp, now);
    ForeignLane(x.h.s.mux, x.sent, x.h.delivered, y, k, sid, inp, now);
    ControlStreamStaysFree(x.h.s.mux, inp, now);
    MoreControl(x.sent, r.out.packets, sid);
    NothingSubmitted(x.submitted, k);
  }

  // ---- one call --------------------------------------------------------------------------------

  /** What the other side guarantees about an arriving frame, and what the application may not do. */
  predicate InputOk(c: Call, k: int, sid: int)
  {
    && (c.Send? ==> c.k != M.CONTROL_STREAM_ID)
    && (c.Frame? ==>
          match Unpack(c.raw)
          case Good(p) => (p.stream == M.CONTROL_STREAM_ID ==> ControlOk(p, sid)) && (p.stream == k ==> p.session == sid)
          case UnknownType => false
          case _ => true)
  }

  function Followed(s: State, y: Peer, c: Call, clock: real, k: int, sid: int): Peer
  {
    match StreamStep(s, c, k, sid)
    case Some(input) => StepPeer(Serial32, y, input, TimeOf(c, clock))
    case None => y
  }

  /** A call that touches neither the lifecycle nor a stream. */
  lemma QuietReflects(x: End, y: Peer, k: int, sid: int, x': End)
    requires Reflects(x, y, k, sid) && k != M.CONTROL_STREAM_ID
    requires x'.h.s == x.h.s.(buffers := x'.h.s.buffers) && x'.sent == x.sent + []
    requires x'.h.delivered == Logged(x.h.delivered, map[]) && x'.submitted == Logged(x.submitted, map[])
    ensures Reflects(x', y, k, sid)
  {
    LaneIgnores(x.h.s.mux, x.sent, [], x.h.delivered, y, k, sid);
    NothingSubmitted(x.submitted, k);
  }

  lemma AlignReflects(x: End, y: Peer, k: int, sid: int, x': End)
    requires Reflects(x, y, k, sid) && k != M.CONTROL_STREAM_ID
    requires x'.h.s == Sync(x.h.s) && x'.sent == x.sent && x'.h.delivered == x.h.delivered && x'.submitted == x.submitted
    ensures Reflects(x', y, k, sid)
  {
    AdoptStep(x.h.s.mux, x.h.s.machine.sid, k);
    AdoptStep(x.h.s.mux, x.h.s.machine.sid, M.CONTROL_STREAM_ID);
  }

  /** A step of the mux, agreed id or not. */
  lemma MuxReflects(x: End, y: Peer, k: int, sid: int, inp: M.MuxInput, now: real, x': End)
    requires Reflects(x, y, k, sid) && k != M.CONTROL_STREAM_ID
    requires inp.Ticking? || inp.Opening? || (inp.Arriving? && (inp.p.stream == k ==> inp.p.session == sid))
    requires var r := M.Step(Serial32, x.h.s.mux, inp, now);
      && x'.h.s.mux == r.mux && x'.sent == x.sent + r.out.packets && x'.h.delivered == Logged(x.h.delivered, r.out.delivered)
    requires x'.h.s.machine == x.h.s.machine && x'.submitted == x.submitted
    ensures Reflects(x', if x.h.s.mux.session == sid then Moved(Serial32, y, M.Concerning(inp, k), now) else y, k, sid)
  {
    LoggedNothing(x.submitted);
    if x.h.s.mux.session == sid {
      NativeReflects(x, y, k, sid, inp, now, map[], x');
    } else {
      ForeignReflects(x, y, k, sid, inp, now, x');
    }
  }

  lemma SendReflects(x: End, y: Peer, k: int, sid: int, c: Call, clock: real)
    requires Reflects(x, y, k, sid) && k != M.CONTROL_STREAM_ID && InputOk(c, k, sid)
    requires c.Send? && x.h.s.machine.state.Established?
    ensures Reflects(StepEnd(x, c), Followed(x.h.s, y, c, clock, k, sid), k, sid)
  {
    var x1 := x.(h := x.h.(s := Sync(x.h.s)));
    AlignReflects(x, y, k, sid, x1);
    var chunks := Chunks(c.data, x.h.s.mux.maxPayload);
    NativeReflects(x1, y, k, sid, M.Sending(c.k, c.data), c.at, map[c.k := chunks], StepEnd(x, c));
  }

  lemma ArrivalReflects(x: End, y: Peer, k: int, sid: int, p: Packet, at: real, x': End)
    requires Reflects(x, y, k, sid) && k != M.CONTROL_STREAM_ID && p.stream != M.CONTROL_STREAM_ID
    requires p.stream == k ==> p.session == sid
    requires var o := Route(x.h.s, p, at);
      && x'.h.s == o.s && x'.sent == x.sent + o.out.packets && x'.h.delivered == Logged(x.h.delivered, o.out.delivered)
      && x'.submitted == x.submitted
    ensures Reflects(x', if p.stream == k && x.h.s.mux.session == sid then StepPeer(Serial32, y, Receive(p), at) else y, k, sid)
  {
    var x1 := End(x.h.(s := x.h.s.(machine := L.NoteDataActivity(x.h.s.machine, at))), x.sent + [], x.submitted);
    LoggedNothing(x.h.delivered);
    LoggedNothing(x.submitted);
    ControlReflects(x, y, k, sid, L.Activity, at, x1);
    assert x.sent + [] == x.sent;
    RaisedDeliversNothing(x.h.s.mux, p, at);
    MuxReflects(x1, y, k, sid, M.Arriving(p), at, x');
  }

  lemma FrameReflects(x: End, y: Peer, k: int, sid: int, c: Call, clock: real)
    requires Reflects(x, y, k, sid) && k != M.CONTROL_STREAM_ID && InputOk(c, k, sid) && c.Frame?
    ensures Reflects(StepEnd(x, c), Followed(x.h.s, y, c, clock, k, sid), k, sid)
  {
    var x' := StepEnd(x, c);
    LoggedNothing(x.submitted);
    if Unpack(c.raw).Good? && Unpack(c.raw).p.stream != M.CONTROL_STREAM_ID {
      ArrivalReflects(x, y, k, sid, Unpack(c.raw).p, c.at, x');
    } else if Unpack(c.raw).Good? && (IsControlType(Unpack(c.raw).p.ptype) || (Unpack(c.raw).p.ptype == ACK && x.h.s.machine.state.SynRcvd?)) {
      ControlReflects(x, y, k, sid, L.Receive(Unpack(c.raw).p), c.at, x');
    } else {
      QuietReflects(x, y, k, sid, x');
    }
  }

  lemma ClocksParts(x: End, c: Call)
    requires c.Clocks?
    ensures var o := L.OnTick(x.h.s.machine, c.controlAt); var r := M.Step(Serial32, x.h.s.mux, M.Ticking, c.dataAt);
      var x' := StepEnd(x, c);
      && x'.h.s.machine == o.m && x'.h.s.mux == r.mux && x'.sent == x.sent + o.packets + r.out.packets
      && x'.h.delivered == Logged(x.h.delivered, r.out.delivered) && x'.submitted == x.submitted
  {
    LoggedNothing(x.submitted);
    M.TimersDeliverNothing(x.h.s.mux, x.h.s.mux.order, c.dataAt);
    LoggedNothing(map[]);
    var o := L.OnTick(x.h.s.machine, c.controlAt);
    var r := M.Step(Serial32, x.h.s.mux, M.Ticking, c.dataAt);
    assert (x.sent + o.packets) + r.out.packets == x.sent + (o.packets + r.out.packets);
  }

  lemma ClocksReflect(x: End, y: Peer, k: int, sid: int, c: Call, clock: real)
    requires Reflects(x, y, k, sid) && k != M.CONTROL_STREAM_ID && c.Clocks?
    ensures Reflects(StepEnd(x, c), Followed(x.h.s, y, c, clock, k, sid), k, sid)
  {
    var o := L.OnTick(x.h.s.machine, c.controlAt);
    var x1 := End(x.h.(s := x.h.s.(machine := o.m)), x.sent + o.packets, x.submitted);
    LoggedNothing(x.h.delivered);
    LoggedNothing(x.submitted);
    ControlReflects(x, y, k, sid, L.Ticking, c.controlAt, x1);
    ClocksParts(x, c);
    MuxReflects(x1, y, k, sid, M.Ticking, c.dataAt, StepEnd(x, c));
  }

  /** One call of one application, seen from stream `k`: a step of the stand-alone peer, or none. */
  lemma StepReflects(x: End, y: Peer, k: int, sid: int, c: Call, clock: real)
    requires Reflects(x, y, k, sid) && k != M.CONTROL_STREAM_ID && InputOk(c, k, sid)
    ensures Reflects(StepEnd(x, c), Followed(x.h.s, y, c, clock, k, sid), k, sid)
  {
    var x' := StepEnd(x, c);
    LoggedNothing(x.submitted);
    LoggedNothing(x.h.delivered);
    assert x.sent + [] == x.sent;
    match c
    case Connect(at) => ControlReflects(x, y, k, sid, L.Opening, at, x');
    case Close(at) => ControlReflects(x, y, k, sid, L.Closing, at, x');
    case OpenStream => MuxReflects(x, y, k, sid, M.Opening, 0.0, x');
    case Send(_, _, _) =>
      if x.h.s.machine.state.Established? {
        SendReflects(x, y, k, sid, c, clock);
      } else {
        QuietReflects(x, y, k, sid, x');
      }
    case Align => AlignReflects(x, y, k, sid, x');
    case Frame(_, _) => FrameReflects(x, y, k, sid, c, clock);
    case Clocks(_, _) => ClocksReflect(x, y, k, sid, c, clock);
    case _ => QuietReflects(x, y, k, sid, x');
  }

  // ---- both ends -------------------------------------------------------------------------------

  ghost predicate BothReflect(e: Ends, y: Sys, k: int, sid: int)
  {
    Reflects(e.a, y.a, k, sid) && Reflects(e.b, y.b, k, sid) && y.clock <= e.clock
  }

  /** What one turn is to the stand-alone pair of stream `k`. */
  function LabelOf(e: Ends, t: Turn, k: int, sid: int): Option<Label>
  {
    match StreamStep((if t.side.A? then e.a else e.b).h.s, t.call, k, sid)
    case Some(input) => Some(Label(t.side, input, TimeOf(t.call, e.clock)))
    case None => None
  }

  function LabelsOf(e: Ends, turns: seq<Turn>, k: int, sid: int): seq<Label>
    decreases |turns|
  {
    if turns == [] then []
    else
      var rest := LabelsOf(StepEnds(e, turns[0]), turns[1..], k, sid);
      match LabelOf(e, turns[0], k, sid)
      case Some(l) => [l] + rest
      case None => rest
  }

  /** What the peer sent is what an arriving frame may carry. */
  lemma ArrivalsAreOk(x: End, y: Peer, k: int, sid: int, c: Call)
    requires Reflects(x, y, k, sid) && (c.Send? ==> c.k != M.CONTROL_STREAM_ID)
    requires c.Frame? ==> Understood(c.raw, x.sent)
    ensures InputOk(c, k, sid)
    ensures c.Frame? && Unpack(c.raw).Good? && Unpack(c.raw).p.stream == k ==> Unpack(c.raw).p in y.sent
  {
  }

  lemma TurnReflects(e: Ends, y: Sys, k: int, sid: int, t: Turn)
    requires BothReflect(e, y, k, sid) && k != M.CONTROL_STREAM_ID && Possible(e, t)
    ensures match LabelOf(e, t, k, sid)
      case Some(l) => Enabled(y, l) && BothReflect(StepEnds(e, t), StepSys(Serial32, y, l), k, sid)
      case None => BothReflect(StepEnds(e, t), y, k, sid)
  {
    if t.side.A? {
      ArrivalsAreOk(e.b, y.b, k, sid, t.call);
      StepReflects(e.a, y.a, k, sid, t.call, e.clock);
    } else {
      ArrivalsAreOk(e.a, y.a, k, sid, t.call);
      StepReflects(e.b, y.b, k, sid, t.call, e.clock);
    }
  }

  lemma {:induction false} RunReflects(e: Ends, y: Sys, k: int, sid: int, turns: seq<Turn>)
    requires BothReflect(e, y, k, sid) && k != M.CONTROL_STREAM_ID && LegalTurns(e, turns)
    ensures Legal(Serial32, y, LabelsOf(e, turns, k, sid))
    ensures BothReflect(RunTurns(e, turns), Run(Serial32, y, LabelsOf(e, turns, k, sid)), k, sid)
    decreases |turns|
  {
    if turns != [] {
      TurnReflects(e, y, k, sid, turns[0]);
      var e1 := StepEnds(e, turns[0]);
      match LabelOf(e, turns[0], k, sid) {
        case Some(l) =>
          RunReflects(e1, StepSys(Serial32, y, l), k, sid, turns[1..]);
          var labels := LabelsOf(e, turns, k, sid);
          assert labels[0] == l && labels[1..] == LabelsOf(e1, turns[1..], k, sid);
          RunFirst(Serial32, y, labels);
        case None =>
          RunReflects(e1, y, k, sid, turns[1..]);
      }
    }
  }

  lemma {:induction false} TurnsKeep(e: Ends, turns: seq<Turn>)
    requires Kept(e.a.h.s, e.a.h.returned, e.a.h.delivered) && Kept(e.b.h.s, e.b.h.returned, e.b.h.delivered)
    ensures var f := RunTurns(e, turns);
      Kept(f.a.h.s, f.a.h.returned, f.a.h.delivered) && Kept(f.b.h.s, f.b.h.returned, f.b.h.delivered)
    decreases |turns|
  {
    if turns != [] {
      var x := if turns[0].side.A? then e.a else e.b;
      DoKeeps(x.h.s, turns[0].call, x.h.returned, x.h.delivered);
      TurnsKeep(StepEnds(e, turns[0]), turns[1..]);
    }
  }

  // ---- from the start --------------------------------------------------------------------------

  function NewEnd(cfg: L.Settings, sid: int, window: pos, maxPayload: pos, rto: Estimate): End
  {
    End(History(NewSession(cfg, sid, window, maxPayload, rto), map[], map[]), [], map[])
  }

  /** What the application of an end has of stream `k`: what it took, then what still waits for it. */
  function Received(x: End, k: int): seq<bytes>
  {
    Log(x.h.returned, k) + Log(x.h.s.buffers, k)
  }

  /** A fresh initiator that proposes `sid` and a fresh responder with an id of its own. */
  predicate FreshEnds(e: Ends, sid: int)
  {
    && e.clock == 0.0
    && e.a == NewEnd(e.a.h.s.machine.cfg, sid, e.a.h.s.mux.window, e.a.h.s.mux.maxPayload, e.a.h.s.mux.rto)
    && e.b == NewEnd(e.b.h.s.machine.cfg, e.b.h.s.machine.sid, e.b.h.s.mux.window, e.b.h.s.mux.maxPayload, e.b.h.s.mux.rto)
    && e.a.h.s.machine.cfg.initiator && !e.b.h.s.machine.cfg.initiator
    && e.a.h.s.mux.window < SEQ_HALF && e.b.h.s.mux.window < SEQ_HALF
  }

  function StandAlone(e: Ends, sid: int, k: int): Sys
  {
    StartOfStream(e.a.h.s.mux.window, e.b.h.s.mux.window, e.a.h.s.mux.maxPayload, e.b.h.s.mux.maxPayload,
                  e.a.h.s.mux.rto, e.b.h.s.mux.rto, sid, k)
  }

  lemma StartReflects(e: Ends, sid: int, k: int)
    requires FreshEnds(e, sid) && k != M.CONTROL_STREAM_ID
    ensures BothReflect(e, StandAlone(e, sid, k), k, sid)
    ensures Kept(e.a.h.s, e.a.h.returned, e.a.h.delivered) && Kept(e.b.h.s, e.b.h.returned, e.b.h.delivered)
  {
  }

  /** Each chunk received was submitted at the other end on the same stream, and no chunk more often. */
  predicate NothingInvented(received: seq<bytes>, emitted: seq<bytes>, pending: seq<bytes>, submitted: seq<bytes>)
  {
    received <= emitted && multiset(emitted) + multiset(pending) == multiset(submitted)
  }

  /** On stream `k` what one application received is the beginning of what the other end emitted, the
      emitted and the still queued chunks being exactly the submitted ones; and both ends are where a
      stand-alone 32-bit pair given that stream's inputs alone would be. */
  predicate StreamArrives(e: Ends, turns: seq<Turn>, sid: int, k: int)
  {
    var f := RunTurns(e, turns);
    var y := Run(Serial32, StandAlone(e, sid, k), LabelsOf(e, turns, k, sid));
    && NothingInvented(Received(f.b, k), y.a.emitted, y.a.ep.snd.pending, Log(f.a.submitted, k))
    && NothingInvented(Received(f.a, k), y.b.emitted, y.b.ep.snd.pending, Log(f.b.submitted, k))
    && y.a.ep == M.StreamOf(f.a.h.s.mux, k).(session := sid) && y.b.ep == M.StreamOf(f.b.h.s.mux, k).(session := sid)
  }

  /** No packet of stream `k` arrives 2^31 or more positions late; with fewer than 2^31 chunks submitted
      each way, none can. */
  ghost predicate NothingStale(e: Ends, turns: seq<Turn>, sid: int, k: int)
  {
    || HasFreshOrigins(StandAlone(e, sid, k), LabelsOf(e, turns, k, sid))
    || (|Log(RunTurns(e, turns).a.submitted, k)| < SEQ_HALF && |Log(RunTurns(e, turns).b.submitted, k)| < SEQ_HALF)
  }

  /** What a stream is at the end: its stand-alone pair, after a legal run in which nothing was stale, with
      nothing lost between delivery and the application. */
  lemma StreamIsWireRun(e: Ends, sid: int, k: int, turns: seq<Turn>)
    requires FreshEnds(e, sid) && k != M.CONTROL_STREAM_ID && LegalTurns(e, turns) && NothingStale(e, turns, sid, k)
    ensures var y0 := StandAlone(e, sid, k); var labels := LabelsOf(e, turns, k, sid);
      var f := RunTurns(e, turns); var y := Run(Serial32, y0, labels);
      && Legal(Serial32, y0, labels) && HasFreshOrigins(y0, labels)
      && BothReflect(f, y, k, sid)
      && Received(f.a, k) == y.a.delivered && Received(f.b, k) == y.b.delivered
  {
    var (ma, mb) := (e.a.h.s.mux, e.b.h.s.mux);
    var y0 := StandAlone(e, sid, k);
    var labels := LabelsOf(e, turns, k, sid);
    StartReflects(e, sid, k);
    RunReflects(e, y0, k, sid, turns);
    TurnsKeep(e, turns);
    if |Log(RunTurns(e, turns).a.submitted, k)| < SEQ_HALF && |Log(RunTurns(e, turns).b.submitted, k)| < SEQ_HALF {
      RunCounts(Serial32, y0, labels);
      ShortRunsFromStart(sid, M.Unopened(ma, k).cfg, M.Unopened(mb, k).cfg, 0, 0, ma.rto, mb.rto, labels);
    }
  }

  /** The whole stack. Whatever the two applications call and whatever the channel does to the frames, as
      long as what it passes on is understood or refused, every stream arrives in order. */
  lemma EveryStreamArrivesInOrder(e: Ends, sid: int, k: int, turns: seq<Turn>)
    requires FreshEnds(e, sid) && k != M.CONTROL_STREAM_ID && LegalTurns(e, turns) && NothingStale(e, turns, sid, k)
    ensures StreamArrives(e, turns, sid, k)
  {
    var (ma, mb) := (e.a.h.s.mux, e.b.h.s.mux);
    StreamIsWireRun(e, sid, k, turns);
    EveryWireRunDeliversInOrder(sid, M.Unopened(ma, k).cfg, M.Unopened(mb, k).cfg, 0, 0, ma.rto, mb.rto,
                                LabelsOf(e, turns, k, sid));
  }

  /** And so it does over every link that loses, repeats, reorders and impairs frames. */
  lemma EveryStreamSurvivesTheLink(e: Ends, sid: int, k: int, turns: seq<Turn>)
    requires FreshEnds(e, sid) && k != M.CONTROL_STREAM_ID && OverLink(e, turns) && NothingStale(e, turns, sid, k)
    ensures LegalTurns(e, turns) && StreamArrives(e, turns, sid, k)
  {
    LinkIsUnderstood(e, turns);
    EveryStreamArrivesInOrder(e, sid, k, turns);
  }

  /** As long as no NACK opens a window over a queue on stream `k`, the application receives the chunks the
      other one submitted, in the order of submission. */
  lemma EveryStreamFollowsSubmission(e: Ends, sid: int, k: int, turns: seq<Turn>)
    requires FreshEnds(e, sid) && k != M.CONTROL_STREAM_ID && LegalTurns(e, turns) && NothingStale(e, turns, sid, k)
    requires NeverWidens(Serial32, StandAlone(e, sid, k), LabelsOf(e, turns, k, sid))
    ensures var f := RunTurns(e, turns);
      Received(f.b, k) <= Log(f.a.submitted, k) && Received(f.a, k) <= Log(f.b.submitted, k)
  {
    var (ma, mb) := (e.a.h.s.mux, e.b.h.s.mux);
    StreamIsWireRun(e, sid, k, turns);
    WireDeliveryFollowsSubmission(sid, M.Unopened(ma, k).cfg, M.Unopened(mb, k).cfg, 0, 0, ma.rto, mb.rto,
                                  LabelsOf(e, turns, k, sid));
  }
}
