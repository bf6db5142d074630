/** The session driver (photontcp/session/session.py): frames in, packets and events out, delivered
    chunks kept per stream until the application takes them. */
module Session {
  import opened Prelude
  import opened Packets
  import opened Header
  import opened Rto
  import opened ArqModel
  import opened MuxStreams
  import L = Lifecycle
  import M = Mux

  datatype State = State(machine: L.Machine, mux: M.StreamMux, buffers: map<int, seq<bytes>>)

  /** What a call sends, surfaces and gives the application; `delivered` is what the data plane handed
      up meanwhile, and `raised` marks an exception. */
  datatype Output = Output(packets: seq<Packet>, events: seq<L.Event>, returned: map<int, seq<bytes>>,
                           delivered: map<int, seq<bytes>>, raised: bool)

  const QUIET := Output([], [], map[], map[], false)

  datatype Outcome = Outcome(s: State, out: Output)

  predicate IsControlType(t: PacketType)
  {
    t == SYN || t == SYN_ACK || t == FIN || t == FIN_ACK || t == HEARTBEAT
  }

  function Sync(s: State): State
  {
    s.(mux := M.SetSession(s.mux, s.machine.sid))
  }

  function EmitControl(s: State, o: L.Outcome): Outcome
  {
    Outcome(s.(machine := o.m), QUIET.(packets := o.packets, events := o.events))
  }

  /** Delivered chunks go to the end of their stream's buffer. When the engine raises, nothing is sent. */
  function EmitMux(s: State, r: M.MuxResult): Outcome
  {
    if r.out.raised then Outcome(s.(mux := r.mux), QUIET.(raised := true))
    else Outcome(s.(mux := r.mux, buffers := Logged(s.buffers, r.out.delivered)),
                 QUIET.(packets := r.out.packets, delivered := r.out.delivered))
  }

  function SendOn(s: State, k: int, data: bytes, now: real): Outcome
  {
    if !s.machine.state.Established? then Outcome(s, QUIET.(raised := true))
    else EmitMux(Sync(s), M.SendOn(Serial32, Sync(s).mux, k, data, now))
  }

  function RecvOn(s: State, k: int): Outcome
  {
    Outcome(s.(buffers := s.buffers - {k}), QUIET.(returned := if k in s.buffers then map[k := s.buffers[k]] else map[]))
  }

  function RecvAll(s: State): Outcome
  {
    Outcome(s.(buffers := map[]), QUIET.(returned := s.buffers))
  }

  /** One inbound frame. Damaged frames are dropped; a sound frame of unknown type escapes as an error. */
  function OnFrame(s: State, raw: bytes, now: real): Outcome
  {
    match Unpack(raw)
    case Malformed | BadChecksum => Outcome(s, QUIET)
    case UnknownType => Outcome(s, QUIET.(raised := true))
    case Good(p) => Route(s, p, now)
  }

  function Route(s: State, p: Packet, now: real): Outcome
  {
    if p.stream == M.CONTROL_STREAM_ID then
      if IsControlType(p.ptype) || (p.ptype == ACK && s.machine.state.SynRcvd?) then
        EmitControl(s, L.OnPacket(s.machine, p, now))
      else Outcome(s, QUIET)
    else
      var s1 := s.(machine := L.NoteDataActivity(s.machine, now));
      EmitMux(s1, M.Arrive(Serial32, s1.mux, p, now))
  }

  /** The timers that end every pump cycle: first the lifecycle's, then the streams'. */
  function Timers(s: State, controlAt: real, dataAt: real): Outcome
  {
    var c := EmitControl(s, L.OnTick(s.machine, controlAt));
    var d := EmitMux(c.s, M.Step(Serial32, c.s.mux, M.Ticking, dataAt));
    Outcome(d.s, Then(c.out, d.out))
  }

  function Then(a: Output, b: Output): Output
  {
    Output(a.packets + b.packets, a.events + b.events, Logged(a.returned, b.returned), Logged(a.delivered, b.delivered),
           a.raised || b.raised)
  }

  datatype Call =
    | Connect(at: real)
    | Close(at: real)
    | OpenStream
    | Send(k: int, data: bytes, at: real)
    | Take(k: int)
    | TakeAll
    | Align
    | Frame(raw: bytes, at: real)
    | Clocks(controlAt: real, dataAt: real)

  function Do(s: State, c: Call): Outcome
  {
    match c
    case Connect(at) => EmitControl(s, L.Connect(s.machine, at))
    case Close(at) => EmitControl(s, L.Close(s.machine, at))
    case OpenStream => Outcome(s.(mux := M.Open(s.mux).0), QUIET)
    case Send(k, data, at) => SendOn(s, k, data, at)
    case Take(k) => RecvOn(s, k)
    case TakeAll => RecvAll(s)
    case Align => Outcome(Sync(s), QUIET)
    case Frame(raw, at) => OnFrame(s, raw, at)
    case Clocks(c, d) => Timers(s, c, d)
  }

  /** Calls one after the other, up to the first that raises. */
  function DoAll(s: State, calls: seq<Call>): Outcome
    decreases |calls|
  {
    if calls == [] then Outcome(s, QUIET)
    else
      var first := Do(s, calls[0]);
      if first.out.raised then first
      else
        var rest := DoAll(first.s, calls[1..]);
        Outcome(rest.s, Then(first.out, rest.out))
  }

  datatype Arrival = Arrival(raw: bytes, at: real)

  function Frames(arrivals: seq<Arrival>): (calls: seq<Call>)
    ensures |calls| == |arrivals|
  {
    seq(|arrivals|, i requires 0 <= i < |arrivals| => Frame(arrivals[i].raw, arrivals[i].at))
  }

  /** One pump: align the ids, take the frames that are there, run the timers. */
  function PumpCalls(arrivals: seq<Arrival>, controlAt: real, dataAt: real): seq<Call>
  {
    [Align] + Frames(arrivals) + [Clocks(controlAt, dataAt)]
  }

  /** `calls`, after what `done` already gave out. */
  function Resume(done: Output, s: State, calls: seq<Call>): Outcome
  {
    var r := DoAll(s, calls);
    Outcome(r.s, Then(done, r.out))
  }

  lemma ThenIsAssociative(a: Output, b: Output, c: Output)
    ensures Then(Then(a, b), c) == Then(a, Then(b, c))
  {
    LoggedIsAssociative(a.returned, b.returned, c.returned);
    LoggedIsAssociative(a.delivered, b.delivered, c.delivered);
    assert (a.packets + b.packets) + c.packets == a.packets + (b.packets + c.packets);
    assert (a.events + b.events) + c.events == a.events + (b.events + c.events);
  }

  lemma LoggedIsAssociative(a: map<int, seq<bytes>>, b: map<int, seq<bytes>>, c: map<int, seq<bytes>>)
    ensures Logged(Logged(a, b), c) == Logged(a, Logged(b, c))
  {
    var (l, r) := (Logged(Logged(a, b), c), Logged(a, Logged(b, c)));
    assert l.Keys == r.Keys;
    forall k | k in l ensures l[k] == r[k] {
      LogIsAssociative(a, b, c, k);
    }
  }

  lemma LogIsAssociative(a: map<int, seq<bytes>>, b: map<int, seq<bytes>>, c: map<int, seq<bytes>>, k: int)
    ensures Log(Logged(Logged(a, b), c), k) == Log(Logged(a, Logged(b, c)), k)
  {
    LogOfLogged(Logged(a, b), c, k);
    LogOfLogged(a, b, k);
    LogOfLogged(a, Logged(b, c), k);
    LogOfLogged(b, c, k);
    ThreeInARow(Log(a, k), Log(b, k), Log(c, k));
  }

  lemma ThreeInARow(u: seq<bytes>, v: seq<bytes>, w: seq<bytes>)
    ensures (u + v) + w == u + (v + w)
  {
  }

  lemma QuietIsNeutral(a: Output)
    ensures Then(QUIET, a) == a && Then(a, QUIET) == a
  {
    LoggedNothing(a.returned);
    LoggedNothing(a.delivered);
    assert [] + a.packets == a.packets && a.packets + [] == a.packets;
    assert [] + a.events == a.events && a.events + [] == a.events;
  }

  lemma LoggedNothing(a: map<int, seq<bytes>>)
    ensures Logged(map[], a) == a && Logged(a, map[]) == a
  {
    assert Logged(map[], a).Keys == a.Keys == Logged(a, map[]).Keys;
    forall k | k in a ensures Logged(map[], a)[k] == a[k] && Logged(a, map[])[k] == a[k] {
      assert [] + a[k] == a[k] && a[k] + [] == a[k];
    }
  }

  /** Where a run of calls stands: ended by an error with all of it given out, or with `calls` to go. */
  predicate Underway(all: Outcome, o: Output, s: State, calls: seq<Call>)
  {
    all == if o.raised then Outcome(s, o) else Resume(o, s, calls)
  }

  lemma NextCall(all: Outcome, o: Output, s: State, calls: seq<Call>)
    requires calls != [] && !o.raised && Underway(all, o, s, calls)
    ensures var first := Do(s, calls[0]); Underway(all, Then(o, first.out), first.s, calls[1..])
  {
    ResumeOne(o, s, calls);
  }

  lemma NoCallLeft(all: Outcome, o: Output, s: State)
    requires Underway(all, o, s, [])
    ensures all == Outcome(s, o)
  {
    QuietIsNeutral(o);
  }

  lemma FirstCall(s: State, calls: seq<Call>)
    ensures Underway(DoAll(s, calls), QUIET, s, calls)
  {
    QuietIsNeutral(DoAll(s, calls).out);
  }

  /** The first of several calls, then the others. */
  lemma ResumeOne(done: Output, s: State, calls: seq<Call>)
    requires calls != []
    ensures var first := Do(s, calls[0]);
      Resume(done, s, calls) ==
        if first.out.raised then Outcome(first.s, Then(done, first.out))
        else Resume(Then(done, first.out), first.s, calls[1..])
  {
    var first := Do(s, calls[0]);
    if !first.out.raised {
      ThenIsAssociative(done, first.out, DoAll(first.s, calls[1..]).out);
    }
  }

  // ---- conservation ----------------------------------------------------------------------------

  /** What the application got, then what still waits, is what the streams delivered. */
  ghost predicate Kept(s: State, returned: map<int, seq<bytes>>, delivered: map<int, seq<bytes>>)
  {
    forall k :: Log(returned, k) + Log(s.buffers, k) == Log(delivered, k)
  }

  lemma DoKeeps(s: State, c: Call, returned: map<int, seq<bytes>>, delivered: map<int, seq<bytes>>)
    requires Kept(s, returned, delivered)
    ensures var o := Do(s, c); Kept(o.s, Logged(returned, o.out.returned), Logged(delivered, o.out.delivered))
  {
    var o := Do(s, c);
    forall k
      ensures Log(Logged(returned, o.out.returned), k) + Log(o.s.buffers, k) == Log(Logged(delivered, o.out.delivered), k)
    {
      DoKeepsStream(s, c, k);
      LogOfLogged(returned, o.out.returned, k);
      LogOfLogged(delivered, o.out.delivered, k);
      Regroup(Log(returned, k), Log(o.out.returned, k), Log(o.s.buffers, k), Log(s.buffers, k), Log(o.out.delivered, k));
    }
  }

  lemma Regroup(a: seq<bytes>, b: seq<bytes>, c: seq<bytes>, d: seq<bytes>, e: seq<bytes>)
    requires b + c == d + e
    ensures (a + b) + c == (a + d) + e
  {
    assert (a + b) + c == a + (b + c);
    assert (a + d) + e == a + (d + e);
  }

  lemma EmitMuxKeepsStream(s: State, r: M.MuxResult, k: int)
    ensures var o := EmitMux(s, r);
      o.out.returned == map[] && Log(o.s.buffers, k) == Log(s.buffers, k) + Log(o.out.delivered, k)
  {
    assert Log(s.buffers, k) + [] == Log(s.buffers, k);
  }

  lemma NothingReturned(a: seq<bytes>)
    ensures [] + a == a && a + [] == a
  {
  }

  /** On one stream, a call gives out from the front of the buffer what it does not leave there. */
  lemma DoKeepsStream(s: State, c: Call, k: int)
    ensures var o := Do(s, c);
      Log(o.out.returned, k) + Log(o.s.buffers, k) == Log(s.buffers, k) + Log(o.out.delivered, k)
  {
    NothingReturned(Log(s.buffers, k));
    NothingReturned(Log(Do(s, c).s.buffers, k));
    match c
    case Send(j, data, at) =>
      if s.machine.state.Established? {
        EmitMuxKeepsStream(Sync(s), M.SendOn(Serial32, Sync(s).mux, j, data, at), k);
      }
    case Frame(raw, at) =>
      if Unpack(raw).Good? {
        var s1 := s.(machine := L.NoteDataActivity(s.machine, at));
        EmitMuxKeepsStream(s1, M.Arrive(Serial32, s1.mux, Unpack(raw).p, at), k);
      }
    case Clocks(ct, dt) =>
      ClocksKeepStream(s, ct, dt, k);
    case _ =>
  }

  lemma ClocksKeepStream(s: State, controlAt: real, dataAt: real, k: int)
    ensures var o := Timers(s, controlAt, dataAt);
      Log(o.out.returned, k) == [] && Log(o.s.buffers, k) == Log(s.buffers, k) + Log(o.out.delivered, k)
  {
    var c := EmitControl(s, L.OnTick(s.machine, controlAt));
    EmitMuxKeepsStream(c.s, M.Step(Serial32, c.s.mux, M.Ticking, dataAt), k);
  }

  // ---- runs ------------------------------------------------------------------------------------

  /** What one call does to the streams. */
  function MuxInputs(s: State, c: Call): seq<Timed>
  {
    match c
    case OpenStream => [Timed(M.Opening, 0.0)]
    case Send(k, data, at) =>
      if s.machine.state.Established? then [Timed(M.Adopting(s.machine.sid), at), Timed(M.Sending(k, data), at)] else []
    case Align => [Timed(M.Adopting(s.machine.sid), 0.0)]
    case Frame(raw, at) =>
      (match Unpack(raw)
       case Good(p) => if p.stream != M.CONTROL_STREAM_ID then [Timed(M.Arriving(p), at)] else []
       case _ => [])
    case Clocks(_, d) => [Timed(M.Ticking, d)]
    case _ => []
  }

  function AllMuxInputs(s: State, calls: seq<Call>): seq<Timed>
    decreases |calls|
  {
    if calls == [] then [] else MuxInputs(s, calls[0]) + AllMuxInputs(Do(s, calls[0]).s, calls[1..])
  }

  /** A session with all it returned and all its streams delivered. */
  datatype History = History(s: State, returned: map<int, seq<bytes>>, delivered: map<int, seq<bytes>>)

  function After(h: History, calls: seq<Call>): History
    decreases |calls|
  {
    if calls == [] then h
    else
      var o := Do(h.s, calls[0]);
      After(History(o.s, Logged(h.returned, o.out.returned), Logged(h.delivered, o.out.delivered)), calls[1..])
  }

  ghost predicate SameLogs(a: map<int, seq<bytes>>, b: map<int, seq<bytes>>)
  {
    forall k :: Log(a, k) == Log(b, k)
  }

  ghost predicate Follows(x: Track, mux: M.StreamMux, delivered: map<int, seq<bytes>>)
  {
    x.mux == mux && SameLogs(x.delivered, delivered)
  }

  lemma RunOfOne(x: Track, a: Timed)
    ensures RunTrack(Serial32, x, [a]) == StepTrack(Serial32, x, a)
  {
  }

  lemma RunOfTwo(x: Track, a: Timed, b: Timed)
    ensures RunTrack(Serial32, x, [a, b]) == StepTrack(Serial32, StepTrack(Serial32, x, a), b)
  {
    var y := StepTrack(Serial32, x, a);
    var ts := [a, b];
    assert ts[1..] == [b];
    assert RunTrack(Serial32, x, ts) == RunTrack(Serial32, y, [b]);
    RunOfOne(y, b);
  }

  /** Logs after nothing was delivered. */
  lemma NothingLogged(a: map<int, seq<bytes>>, b: map<int, seq<bytes>>)
    requires SameLogs(a, b)
    ensures SameLogs(Logged(a, map[]), b) && SameLogs(a, Logged(b, map[])) && SameLogs(Logged(a, map[]), Logged(b, map[]))
  {
    forall k ensures Log(Logged(a, map[]), k) == Log(a, k) && Log(Logged(b, map[]), k) == Log(b, k) {
      assert Log(a, k) + [] == Log(a, k) && Log(b, k) + [] == Log(b, k);
    }
  }

  lemma SendRunsMux(s: State, k: int, data: bytes, at: real, x: Track, delivered: map<int, seq<bytes>>)
    requires Follows(x, s.mux, delivered) && s.machine.state.Established?
    ensures var o := SendOn(s, k, data, at);
      Follows(RunTrack(Serial32, x, MuxInputs(s, Send(k, data, at))), o.s.mux, Logged(delivered, o.out.delivered))
  {
    var (a, b) := (Timed(M.Adopting(s.machine.sid), at), Timed(M.Sending(k, data), at));
    var x1 := StepTrack(Serial32, x, a);
    NothingLogged(x.delivered, delivered);
    RunOfTwo(x, a, b);
    OneMuxStep(x1, b, M.SendOn(Serial32, x1.mux, k, data, at), delivered);
  }

  lemma FrameRunsMux(s: State, raw: bytes, at: real, x: Track, delivered: map<int, seq<bytes>>)
    requires Follows(x, s.mux, delivered) && MuxInputs(s, Frame(raw, at)) != []
    ensures var o := OnFrame(s, raw, at);
      Follows(RunTrack(Serial32, x, MuxInputs(s, Frame(raw, at))), o.s.mux, Logged(delivered, o.out.delivered))
  {
    var p := Unpack(raw).p;
    RaisedDeliversNothing(s.mux, p, at);
    OneMuxStep(x, Timed(M.Arriving(p), at), M.Arrive(Serial32, s.mux, p, at), delivered);
  }

  lemma ClocksRunMux(s: State, controlAt: real, dataAt: real, x: Track, delivered: map<int, seq<bytes>>)
    requires Follows(x, s.mux, delivered)
    ensures var o := Timers(s, controlAt, dataAt);
      Follows(RunTrack(Serial32, x, [Timed(M.Ticking, dataAt)]), o.s.mux, Logged(delivered, o.out.delivered))
  {
    M.TimersDeliverNothing(s.mux, s.mux.order, dataAt);
    OneMuxStep(x, Timed(M.Ticking, dataAt), M.Step(Serial32, s.mux, M.Ticking, dataAt), delivered);
  }

  /** The mux inside a session makes exactly the steps listed, and the call reports what they delivered. */
  lemma DoRunsMux(s: State, c: Call, x: Track, delivered: map<int, seq<bytes>>)
    requires Follows(x, s.mux, delivered)
    ensures var o := Do(s, c);
      Follows(RunTrack(Serial32, x, MuxInputs(s, c)), o.s.mux, Logged(delivered, o.out.delivered))
  {
    if c.Send? && s.machine.state.Established? {
      SendRunsMux(s, c.k, c.data, c.at, x, delivered);
    } else if c.Frame? && MuxInputs(s, c) != [] {
      FrameRunsMux(s, c.raw, c.at, x, delivered);
    } else if c.Clocks? {
      ClocksRunMux(s, c.controlAt, c.dataAt, x, delivered);
    } else {
      QuietRunsMux(s, c, x, delivered);
    }
  }

  lemma QuietRunsMux(s: State, c: Call, x: Track, delivered: map<int, seq<bytes>>)
    requires Follows(x, s.mux, delivered) && !c.Clocks?
    requires c.Send? ==> !s.machine.state.Established?
    requires c.Frame? ==> MuxInputs(s, c) == []
    ensures var o := Do(s, c);
      Follows(RunTrack(Serial32, x, MuxInputs(s, c)), o.s.mux, Logged(delivered, o.out.delivered))
  {
    NothingLogged(x.delivered, delivered);
    if c.OpenStream? || c.Align? {
      var t := MuxInputs(s, c)[0];
      assert RunTrack(Serial32, x, [t]) == StepTrack(Serial32, x, t);
    }
  }

  lemma OneMuxStep(x: Track, t: Timed, r: M.MuxResult, delivered: map<int, seq<bytes>>)
    requires SameLogs(x.delivered, delivered) && r == M.Step(Serial32, x.mux, t.inp, t.now)
    ensures Follows(StepTrack(Serial32, x, t), r.mux, Logged(delivered, r.out.delivered))
  {
    forall k ensures Log(Logged(x.delivered, r.out.delivered), k) == Log(Logged(delivered, r.out.delivered), k) {
      LogOfLogged(x.delivered, r.out.delivered, k);
      LogOfLogged(delivered, r.out.delivered, k);
    }
  }

  lemma RaisedDeliversNothing(x: M.StreamMux, p: Packet, now: real)
    ensures var r := M.Arrive(Serial32, x, p, now); r.out.raised ==> r.out.delivered == map[]
  {
  }

  lemma {:induction false} RunTrackAppend(x: Track, a: seq<Timed>, b: seq<Timed>)
    ensures RunTrack(Serial32, x, a + b) == RunTrack(Serial32, RunTrack(Serial32, x, a), b)
    decreases |a|
  {
    if a == [] {
      assert a + b == b;
    } else {
      assert (a + b)[1..] == a[1..] + b;
      RunTrackAppend(StepTrack(Serial32, x, a[0]), a[1..], b);
    }
  }

  lemma {:induction false} CallsRunMux(h: History, x: Track, calls: seq<Call>)
    requires Follows(x, h.s.mux, h.delivered) && Kept(h.s, h.returned, h.delivered)
    ensures var e := After(h, calls);
      Follows(RunTrack(Serial32, x, AllMuxInputs(h.s, calls)), e.s.mux, e.delivered) && Kept(e.s, e.returned, e.delivered)
    decreases |calls|
  {
    if calls != [] {
      var o := Do(h.s, calls[0]);
      var ts := MuxInputs(h.s, calls[0]);
      DoRunsMux(h.s, calls[0], x, h.delivered);
      DoKeeps(h.s, calls[0], h.returned, h.delivered);
      CallsRunMux(History(o.s, Logged(h.returned, o.out.returned), Logged(h.delivered, o.out.delivered)),
        RunTrack(Serial32, x, ts), calls[1..]);
      RunTrackAppend(x, ts, AllMuxInputs(o.s, calls[1..]));
    }
  }

  function NewSession(cfg: L.Settings, sid: int, window: pos, maxPayload: pos, rto: Estimate): State
  {
    State(L.NewMachine(cfg, sid), M.NewMux(sid, cfg.initiator, window, maxPayload, rto), map[])
  }

  /** For any calls in any order: on each stream, everything the application took followed by what
      still waits is what a stand-alone endpoint, given that stream's inputs alone, delivers. */
  lemma EveryStreamIsKept(cfg: L.Settings, sid: int, window: pos, maxPayload: pos, rto: Estimate, calls: seq<Call>, k: int)
    ensures var s := NewSession(cfg, sid, window, maxPayload, rto);
      var e := After(History(s, map[], map[]), calls);
      var alone := RunLane(Serial32, Lane(M.Unopened(s.mux, k), [], []), InputsOf(AllMuxInputs(s, calls), k));
      Log(e.returned, k) + Log(e.s.buffers, k) == alone.delivered && M.StreamOf(e.s.mux, k) == alone.ep
  {
    var s := NewSession(cfg, sid, window, maxPayload, rto);
    var x := Track(s.mux, [], map[]);
    CallsRunMux(History(s, map[], map[]), x, calls);
    RunIsLaneRun(Serial32, x, AllMuxInputs(s, calls), k);
  }

  // ---- what reaches what -----------------------------------------------------------------------

  /** A frame impaired by the channel leaves a session exactly as it was. */
  lemma ImpairedFramesAreIgnored(s: State, p: Packet, raw: bytes, raw': bytes, now: real)
    requires Pack(p) == Some(raw) && Impaired(raw, raw')
    ensures OnFrame(s, raw', now) == Outcome(s, QUIET)
  {
    ImpairmentIsRejected(p, raw, raw');
  }

  /** A frame is for one plane: the control stream never touches streams or buffers, the others never
      move the lifecycle beyond its idle timer, whatever state it is in. */
  lemma PlanesAreSeparate(s: State, p: Packet, now: real)
    ensures var o := Route(s, p, now);
      && (p.stream == M.CONTROL_STREAM_ID ==> o.s.mux == s.mux && o.s.buffers == s.buffers && o.out.delivered == map[])
      && (p.stream != M.CONTROL_STREAM_ID ==>
            && o.s.machine == L.NoteDataActivity(s.machine, now) && o.out.events == []
            && o.s.machine.(lastRecv := s.machine.lastRecv) == s.machine
            && o.s.mux == M.Arrive(Serial32, s.mux, p, now).mux)
  {
  }

  /** A control ACK counts only while a responder awaits it. */
  lemma AcksOnlyOpen(s: State, p: Packet, now: real)
    requires p.stream == M.CONTROL_STREAM_ID && p.ptype == ACK
    ensures Route(s, p, now).s == s <==>
      !s.machine.state.SynRcvd? || p.session != s.machine.sid
  {
  }
}
