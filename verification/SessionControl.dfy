/** The control plane of a session: whatever is called, the lifecycle machine inside it is a stand-alone
    machine fed what the calls mean for it, and its packets and events are that machine's. */
module SessionControl {
  import opened Prelude
  import opened Packets
  import opened Crc
  import opened Header
  import opened Rto
  import opened ArqModel
  import opened MuxStreams
  import opened MuxPair
  import L = Lifecycle
  import M = Mux
  import opened S = Session
  import opened SessionPair

  /** What a call means for the lifecycle: connect and close, the control clock, every sound frame on the
      control stream that is a control packet (an ACK only while the handshake waits for one), and the mere
      fact that a sound data frame came in. */
  function ControlInput(s: State, c: Call): Option<L.Moment>
  {
    match c
    case Connect(at) => Some(L.Moment(L.Opening, at))
    case Close(at) => Some(L.Moment(L.Closing, at))
    case Clocks(controlAt, _) => Some(L.Moment(L.Ticking, controlAt))
    case Frame(raw, at) =>
      (match Unpack(raw)
       case Good(p) =>
         if p.stream != 0 then Some(L.Moment(L.Activity, at))
         else if p.ptype == SYN || p.ptype == SYN_ACK || p.ptype == FIN || p.ptype == FIN_ACK || p.ptype == HEARTBEAT
                 || (p.ptype == ACK && s.machine.state == L.SynRcvd) then Some(L.Moment(L.Receive(p), at))
         else None
       case _ => None)
    case _ => None
  }

  function Alone(m: L.Machine, t: Option<L.Moment>): L.Outcome
  {
    if t.None? then L.Idle(m) else L.Step(m, t.value.inp, t.value.now)
  }

  /** What a mux sends over a few steps. */
  function MuxSays(mux: M.StreamMux, ts: seq<Timed>): seq<Packet>
    decreases |ts|
  {
    if ts == [] then []
    else
      var r := M.Step(Serial32, mux, ts[0].inp, ts[0].now);
      r.out.packets + MuxSays(r.mux, ts[1..])
  }

  lemma MuxSaysOne(mux: M.StreamMux, t: Timed)
    ensures MuxSays(mux, [t]) == M.Step(Serial32, mux, t.inp, t.now).out.packets
  {
    var packets := M.Step(Serial32, mux, t.inp, t.now).out.packets;
    assert [t][1..] == [] && packets + [] == packets;
  }

  lemma MuxSaysTwo(mux: M.StreamMux, t: Timed, u: Timed)
    ensures var r := M.Step(Serial32, mux, t.inp, t.now);
      MuxSays(mux, [t, u]) == r.out.packets + M.Step(Serial32, r.mux, u.inp, u.now).out.packets
  {
    assert [t, u][1..] == [u];
    MuxSaysOne(M.Step(Serial32, mux, t.inp, t.now).mux, u);
  }

  lemma NothingFirst<T>(q: seq<T>)
    ensures [] + q == q && q + [] == q
  {
  }

  /** An engine that raises has sent nothing. */
  lemma RaisedSaysNothing(mux: M.StreamMux, p: Packet, now: real)
    ensures var r := M.Arrive(Serial32, mux, p, now); r.out.raised ==> r.out.packets == []
  {
  }

  /** A call that makes the stand-alone machine's step, and then the mux's. */
  predicate SaysBoth(s: State, c: Call, o: S.Outcome)
  {
    var a := Alone(s.machine, ControlInput(s, c));
    && o.s.machine == a.m && o.out.events == a.events
    && o.out.packets == a.packets + MuxSays(s.mux, MuxInputs(s, c))
  }

  lemma FrameSaysBoth(s: State, raw: bytes, at: real)
    ensures SaysBoth(s, Frame(raw, at), Do(s, Frame(raw, at)))
  {
    var o := Do(s, Frame(raw, at));
    NothingFirst(o.out.packets);
    if Unpack(raw).Good? && Unpack(raw).p.stream != 0 {
      MuxSaysOne(s.mux, Timed(M.Arriving(Unpack(raw).p), at));
      RaisedSaysNothing(s.mux, Unpack(raw).p, at);
    }
  }

  lemma SendSaysBoth(s: State, k: int, data: bytes, at: real)
    ensures SaysBoth(s, Send(k, data, at), Do(s, Send(k, data, at)))
  {
    NothingFirst(Do(s, Send(k, data, at)).out.packets);
    if s.machine.state.Established? {
      var t := Timed(M.Adopting(s.machine.sid), at);
      MuxSaysTwo(s.mux, t, Timed(M.Sending(k, data), at));
      NothingFirst(M.Step(Serial32, Sync(s).mux, M.Sending(k, data), at).out.packets);
      SendingRaisesNothing(Sync(s).mux, k, data, at);
    }
  }

  lemma SendingRaisesNothing(mux: M.StreamMux, k: int, data: bytes, now: real)
    ensures !M.SendOn(Serial32, mux, k, data, now).out.raised
  {
  }

  lemma ClocksSayBoth(s: State, controlAt: real, dataAt: real)
    ensures SaysBoth(s, Clocks(controlAt, dataAt), Do(s, Clocks(controlAt, dataAt)))
  {
    MuxSaysOne(s.mux, Timed(M.Ticking, dataAt));
    M.TimersDeliverNothing(s.mux, s.mux.order, dataAt);
    NothingFirst(L.OnTick(s.machine, controlAt).events);
  }

  lemma OthersSayBoth(s: State, c: Call)
    requires !c.Frame? && !c.Send? && !c.Clocks?
    ensures SaysBoth(s, c, Do(s, c))
  {
    NothingFirst(Do(s, c).out.packets);
    if c.Align? {
      MuxSaysOne(s.mux, Timed(M.Adopting(s.machine.sid), 0.0));
    } else if c.OpenStream? {
      MuxSaysOne(s.mux, Timed(M.Opening, 0.0));
    }
  }

  /** One call: the machine inside the session moves as the stand-alone one does, with its events, and the
      session sends that machine's packets and then the mux's. */
  lemma DoRunsMachine(s: State, c: Call)
    ensures var o := Do(s, c); var a := Alone(s.machine, ControlInput(s, c));
      && o.s.machine == a.m && o.out.events == a.events
      && o.out.packets == a.packets + MuxSays(s.mux, MuxInputs(s, c))
  {
    match c
    case Frame(raw, at) => FrameSaysBoth(s, raw, at);
    case Send(k, data, at) => SendSaysBoth(s, k, data, at);
    case Clocks(ct, dt) => ClocksSayBoth(s, ct, dt);
    case _ => OthersSayBoth(s, c);
  }

  // ---- errors --------------------------------------------------------------------------------

  /** A frame of the right length and checksum whose type byte is none of the eight. */
  predicate SoundButUnknown(raw: bytes)
  {
    && |raw| >= 22 && 256 * raw[16] as int + raw[17] as int == |raw| - 22
    && Crc32(raw[..18] + [0, 0, 0, 0] + raw[22..])
       == 16777216 * raw[18] as int + 65536 * raw[19] as int + 256 * raw[20] as int + raw[21] as int
    && raw[1] > 7
  }

  lemma UnknownExactly(raw: bytes)
    ensures Unpack(raw).UnknownType? <==> SoundButUnknown(raw)
  {
    if |raw| >= 22 {
      assert Covered(raw[..18], raw[22..]) == raw[..18] + [0, 0, 0, 0] + raw[22..];
    }
  }

  /** A call raises in three cases only: sending outside ESTABLISHED, which changes nothing; a sound frame of
      unknown type, which changes nothing either; and data at which the stream's own engine raises. */
  lemma RaisesExactly(s: State, c: Call)
    ensures var o := Do(s, c);
      && (o.out.raised <==>
            || (c.Send? && s.machine.state != L.Established)
            || (c.Frame? && SoundButUnknown(c.raw))
            || (c.Frame? && Unpack(c.raw).Good? && Unpack(c.raw).p.stream != 0
                && M.Arrive(Serial32, s.mux, Unpack(c.raw).p, c.at).out.raised))
      && (c.Send? && s.machine.state != L.Established ==> o.s == s && o.out.packets == [])
      && (c.Frame? && SoundButUnknown(c.raw) ==> o.s == s && o.out.packets == [])
  {
    if c.Frame? {
      UnknownExactly(c.raw);
    } else if c.Clocks? {
      M.TimersDeliverNothing(s.mux, s.mux.order, c.dataAt);
    } else if c.Send? {
      SendingRaisesNothing(Sync(s).mux, c.k, c.data, c.at);
    }
  }

  // ---- any calls -----------------------------------------------------------------------------

  /** A session with all it sent and all it surfaced. */
  datatype Voice = Voice(s: State, packets: seq<Packet>, events: seq<L.Event>)

  function SayOne(v: Voice, c: Call): Voice
  {
    var o := Do(v.s, c);
    Voice(o.s, v.packets + o.out.packets, v.events + o.out.events)
  }

  function SayAll(v: Voice, calls: seq<Call>): Voice
    decreases |calls|
  {
    if calls == [] then v else SayAll(SayOne(v, calls[0]), calls[1..])
  }

  function AllControlInputs(s: State, calls: seq<Call>): seq<L.Moment>
    decreases |calls|
  {
    if calls == [] then []
    else
      var rest := AllControlInputs(Do(s, calls[0]).s, calls[1..]);
      match ControlInput(s, calls[0])
      case Some(t) => [t] + rest
      case None => rest
  }

  /** The two planes keep to their streams. */
  ghost predicate Apart(s: State)
  {
    && M.MuxOk(s.mux) && ControlStreamFree(s.mux)
    && (s.machine.pending.Some? ==> s.machine.pending.value.stream == 0)
  }

  lemma MachineSpeaksOnZero(m: L.Machine, inp: L.Input, now: real)
    requires m.pending.Some? ==> m.pending.value.stream == 0
    ensures var o := L.Step(m, inp, now);
      (o.m.pending.Some? ==> o.m.pending.value.stream == 0) && M.AllOn(o.packets, 0)
  {
  }

  lemma {:induction false} MuxStaysApart(mux: M.StreamMux, ts: seq<Timed>)
    requires M.MuxOk(mux) && ControlStreamFree(mux)
    requires forall i :: 0 <= i < |ts| ==> ts[i].inp.Sending? ==> ts[i].inp.k != 0
    ensures OnStreamNone(MuxSays(mux, ts)) && M.MuxOk(MuxAfter(mux, ts)) && ControlStreamFree(MuxAfter(mux, ts))
    decreases |ts|
  {
    if ts != [] {
      assert ts[0].inp.Sending? ==> ts[0].inp.k != 0;
      ControlStreamStaysFree(mux, ts[0].inp, ts[0].now);
      StepShows(Serial32, mux, ts[0].inp, ts[0].now, 0);
      forall i | 0 <= i < |ts| - 1 ensures ts[1..][i].inp.Sending? ==> ts[1..][i].inp.k != 0 {
        assert ts[i + 1].inp.Sending? ==> ts[i + 1].inp.k != 0;
      }
      MuxStaysApart(M.Step(Serial32, mux, ts[0].inp, ts[0].now).mux, ts[1..]);
    }
  }

  predicate OnStreamNone(packets: seq<Packet>)
  {
    forall p :: p in packets ==> p.stream != 0
  }

  function MuxAfter(mux: M.StreamMux, ts: seq<Timed>): M.StreamMux
    decreases |ts|
  {
    if ts == [] then mux else MuxAfter(M.Step(Serial32, mux, ts[0].inp, ts[0].now).mux, ts[1..])
  }

  lemma {:induction false} TrackFollowsMux(x: Track, ts: seq<Timed>)
    ensures RunTrack(Serial32, x, ts).mux == MuxAfter(x.mux, ts)
    decreases |ts|
  {
    if ts != [] {
      TrackFollowsMux(StepTrack(Serial32, x, ts[0]), ts[1..]);
    }
  }

  lemma DoMovesMux(s: State, c: Call)
    ensures Do(s, c).s.mux == MuxAfter(s.mux, MuxInputs(s, c))
  {
    var x := Track(s.mux, [], map[]);
    DoRunsMux(s, c, x, map[]);
    TrackFollowsMux(x, MuxInputs(s, c));
  }

  predicate OffControlStream(c: Call)
  {
    c.Send? ==> c.k != 0
  }

  lemma {:induction false} NoneOnZero(packets: seq<Packet>)
    requires OnStreamNone(packets)
    ensures M.OnStream(packets, 0) == []
  {
    if packets != [] {
      assert packets[0] in packets;
      NoneOnZero(packets[1..]);
    }
  }

  /** One call that keeps off the control stream: what the session sends there is the machine's. */
  lemma DoSpeaksOnZero(s: State, c: Call)
    requires Apart(s) && OffControlStream(c)
    ensures var o := Do(s, c); var a := Alone(s.machine, ControlInput(s, c));
      && Apart(o.s) && o.s.machine == a.m && o.out.events == a.events
      && M.OnStream(o.out.packets, 0) == a.packets && M.AllOn(a.packets, 0)
  {
    var a := Alone(s.machine, ControlInput(s, c));
    var ts := MuxInputs(s, c);
    DoRunsMachine(s, c);
    DoMovesMux(s, c);
    MuxStaysApart(s.mux, ts);
    if ControlInput(s, c).Some? {
      MachineSpeaksOnZero(s.machine, ControlInput(s, c).value.inp, ControlInput(s, c).value.now);
    }
    M.OnStreamAppend(a.packets, MuxSays(s.mux, ts), 0);
    M.OnStreamOfOne(a.packets, 0, 0);
    NoneOnZero(MuxSays(s.mux, ts));
    NothingFirst(a.packets);
  }

  /** What a stand-alone machine has given out and what it gives out next. */
  lemma StepAllFirst(m: L.Machine, t: Option<L.Moment>, rest: seq<L.Moment>, all: seq<L.Moment>)
    requires all == if t.Some? then [t.value] + rest else rest
    ensures var a := Alone(m, t); var r := L.StepAll(a.m, rest);
      L.StepAll(m, all) == L.Outcome(r.m, a.packets + r.packets, a.events + r.events)
  {
    if t.Some? {
      assert all[1..] == rest;
    } else {
      var r := L.StepAll(m, rest);
      NothingFirst(r.packets);
      NothingFirst(r.events);
    }
  }

  lemma AllControlInputsFirst(s: State, calls: seq<Call>, rest: seq<L.Moment>)
    requires calls != [] && rest == AllControlInputs(Do(s, calls[0]).s, calls[1..])
    ensures AllControlInputs(s, calls) == match ControlInput(s, calls[0]) case Some(t) => [t] + rest case None => rest
  {
  }

  lemma {:induction false} CallsRunMachine(v: Voice, calls: seq<Call>)
    requires Apart(v.s) && forall i :: 0 <= i < |calls| ==> OffControlStream(calls[i])
    ensures var e := SayAll(v, calls); var alone := L.StepAll(v.s.machine, AllControlInputs(v.s, calls));
      && e.s.machine == alone.m && e.events == v.events + alone.events
      && M.OnStream(e.packets, 0) == M.OnStream(v.packets, 0) + alone.packets
    decreases |calls|
  {
    if calls == [] {
      NothingFirst(v.events);
      NothingFirst(M.OnStream(v.packets, 0));
    } else {
      var (c, v1) := (calls[0], SayOne(v, calls[0]));
      var (t, rest) := (ControlInput(v.s, c), AllControlInputs(v1.s, calls[1..]));
      assert OffControlStream(calls[0]);
      DoSpeaksOnZero(v.s, c);
      CallsRunMachine(v1, calls[1..]);
      AllControlInputsFirst(v.s, calls, rest);
      StepAllFirst(v.s.machine, t, rest, AllControlInputs(v.s, calls));
      M.OnStreamAppend(v.packets, Do(v.s, c).out.packets, 0);
      var (a, r) := (Alone(v.s.machine, t), L.StepAll(v1.s.machine, rest));
      Regrouped3(v.events, a.events, r.events);
      Regrouped3(M.OnStream(v.packets, 0), a.packets, r.packets);
    }
  }

  lemma Regrouped3<T>(a: seq<T>, b: seq<T>, c: seq<T>)
    ensures a + b + c == a + (b + c)
  {
  }

  /** For any calls in any order that keep off the control stream: the machine inside the session, all its
      events and all packets on the control stream are those of a stand-alone machine given the connects and
      closes, the control clock, each sound control frame and the activity of each sound data frame. */
  lemma EveryControlIsKept(cfg: L.Settings, sid: int, window: pos, maxPayload: pos, rto: Estimate, calls: seq<Call>)
    requires forall i :: 0 <= i < |calls| ==> OffControlStream(calls[i])
    ensures var s := NewSession(cfg, sid, window, maxPayload, rto); var e := SayAll(Voice(s, [], []), calls);
      var alone := L.StepAll(L.NewMachine(cfg, sid), AllControlInputs(s, calls));
      e.s.machine == alone.m && e.events == alone.events && M.OnStream(e.packets, 0) == alone.packets
  {
    var s := NewSession(cfg, sid, window, maxPayload, rto);
    CallsRunMachine(Voice(s, [], []), calls);
    NothingFirst(L.StepAll(L.NewMachine(cfg, sid), AllControlInputs(s, calls)).events);
    NothingFirst(L.StepAll(L.NewMachine(cfg, sid), AllControlInputs(s, calls)).packets);
  }
}
