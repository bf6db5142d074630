/** The session object (photontcp/session/session.py): it owns the lifecycle machine, the mux and the
    per-stream buffers; the channel is what calls take in and give out. */
module SessionEngine {
  import opened Prelude
  import opened Packets
  import opened Serial
  import opened Header
  import opened Rto
  import opened ArqModel
  import opened ArqEngine
  import opened MuxStreams
  import L = Lifecycle
  import LE = LifecycleEngine
  import M = Mux
  import ME = MuxEngine
  import opened S = Session

  class SessionDriver {
    const machine: LE.SessionStateMachine
    const mux: ME.StreamMux
    var buffers: map<int, seq<bytes>>

    ghost predicate Valid()
      reads this, mux, mux.owned
    {
      mux.Valid()
    }

    function View(): State
      requires Valid()
      reads this, machine, mux, mux.owned, mux.estimators
    {
      State(machine.View(), mux.View(), buffers)
    }

    constructor (cfg: L.Settings, sid: int, window: pos, maxPayload: pos, template: Estimate)
      requires window < SEQ_HALF && template == NewEstimate(template.initialRto, template.minRto, template.maxRto)
      ensures Valid() && View() == NewSession(cfg, sid, window, maxPayload, template)
    {
      machine := new LE.SessionStateMachine(cfg, sid);
      mux := new ME.StreamMux(sid, cfg.initiator, window, maxPayload, template);
      buffers := map[];
    }

    method Connect(now: real) returns (o: Output)
      requires Valid()
      modifies machine
      ensures Valid() && Outcome(View(), o) == Do(old(View()), S.Connect(now))
    {
      var packets := machine.Connect(now);
      o := QUIET.(packets := packets);
    }

    method Close(now: real) returns (o: Output)
      requires Valid()
      modifies machine
      ensures Valid() && Outcome(View(), o) == Do(old(View()), S.Close(now))
    {
      var packets := machine.Close(now);
      o := QUIET.(packets := packets);
    }

    method SyncSessionId()
      requires Valid()
      modifies mux`sessionId, mux.owned
      ensures Valid() && View() == Sync(old(View()))
    {
      mux.SetSessionId(machine.sid);
    }

    /** Chunks handed up go to the end of their stream's buffer. */
    method Buffer(out: M.MuxOutput) returns (o: Output)
      requires Valid()
      modifies this`buffers
      ensures Valid() && Outcome(View(), o) == EmitMux(old(View()), M.MuxResult(mux.View(), out))
    {
      if out.raised {
        return QUIET.(raised := true);
      }
      buffers := Logged(buffers, out.delivered);
      o := QUIET.(packets := out.packets, delivered := out.delivered);
    }

    method SendOn(k: int, data: bytes, now: real) returns (o: Output)
      requires Valid()
      modifies this`buffers, mux, mux.owned
      ensures Valid() && mux.Grown() && Outcome(View(), o) == S.SendOn(old(View()), k, data, now)
    {
      if !machine.state.Established? {
        return QUIET.(raised := true);
      }
      SyncSessionId();
      var out := mux.Send(k, data, now);
      o := Buffer(out);
    }

    method RecvOn(k: int) returns (chunks: seq<bytes>)
      requires Valid()
      modifies this`buffers
      ensures Valid() && View() == S.RecvOn(old(View()), k).s
      ensures chunks == Log(S.RecvOn(old(View()), k).out.returned, k)
    {
      chunks := if k in buffers then buffers[k] else [];
      buffers := buffers - {k};
    }

    method RecvAll() returns (all: map<int, seq<bytes>>)
      requires Valid()
      modifies this`buffers
      ensures Valid() && View() == S.RecvAll(old(View())).s
      ensures all == S.RecvAll(old(View())).out.returned
    {
      all := buffers;
      buffers := map[];
    }

    method RoutePacket(p: Packet, now: real) returns (o: Output)
      requires Valid() && IsSerial(p.seqno)
      modifies this`buffers, machine, mux, mux.owned, mux.estimators
      ensures Valid() && mux.Grown() && Outcome(View(), o) == Route(old(View()), p, now)
    {
      if p.stream == M.CONTROL_STREAM_ID {
        o := RouteControl(p, now);
      } else {
        machine.NoteActivity(now);
        var out := mux.OnPacket(p, now);
        o := Buffer(out);
      }
    }

    method RouteControl(p: Packet, now: real) returns (o: Output)
      requires Valid() && p.stream == M.CONTROL_STREAM_ID
      modifies machine
      ensures Valid() && Outcome(View(), o) == Route(old(View()), p, now)
    {
      o := QUIET;
      if IsControlType(p.ptype) || (p.ptype == ACK && machine.state.SynRcvd?) {
        var packets, events := machine.OnPacket(p, now);
        o := QUIET.(packets := packets, events := events);
      }
    }

    method TakeFrame(raw: bytes, now: real) returns (o: Output)
      requires Valid()
      modifies this`buffers, machine, mux, mux.owned, mux.estimators
      ensures Valid() && mux.Grown() && Outcome(View(), o) == OnFrame(old(View()), raw, now)
    {
      match Unpack(raw)
      case Malformed | BadChecksum => o := QUIET;
      case UnknownType => o := QUIET.(raised := true);
      case Good(p) => o := RoutePacket(p, now);
    }

    method TickStreams(dataAt: real) returns (o: Output)
      requires Valid()
      modifies this`buffers, mux.owned, mux.estimators
      ensures Valid() && Outcome(View(), o) == EmitMux(old(View()), M.Step(Serial32, old(View()).mux, M.Ticking, dataAt))
    {
      var out := mux.OnTick(dataAt);
      o := Buffer(out);
    }

    method RunTimers(controlAt: real, dataAt: real) returns (o: Output)
      requires Valid()
      modifies this`buffers, machine, mux.owned, mux.estimators
      ensures Valid() && Outcome(View(), o) == Timers(old(View()), controlAt, dataAt)
    {
      var packets, events := machine.OnTick(controlAt);
      o := QUIET.(packets := packets, events := events);
      var d := TickStreams(dataAt);
      o := Then(o, d);
    }

    method OpenStream() returns (k: int)
      requires Valid()
      modifies mux
      ensures Valid() && View() == Do(old(View()), S.OpenStream).s && k == M.Open(old(View()).mux).1
    {
      k := mux.OpenStream();
    }

    /** Frames from the inbox, up to one that raises. */
    method Drain(arrivals: seq<Arrival>, ghost all: Outcome, ghost later: seq<Call>) returns (o: Output)
      requires Valid() && Underway(all, QUIET, View(), Frames(arrivals) + later)
      modifies this`buffers, machine, mux, mux.owned, mux.estimators
      ensures Valid() && mux.Grown() && Underway(all, o, View(), later)
    {
      o := QUIET;
      ghost var calls := Frames(arrivals) + later;
      var i := 0;
      while i < |arrivals| && !o.raised
        invariant 0 <= i <= |arrivals| && Valid() && mux.Grown()
        invariant Underway(all, o, View(), calls[i..])
      {
        assert calls[i..][0] == Frame(arrivals[i].raw, arrivals[i].at) && calls[i..][1..] == calls[i + 1..];
        NextCall(all, o, View(), calls[i..]);
        var one := TakeFrame(arrivals[i].raw, arrivals[i].at);
        o := Then(o, one);
        i := i + 1;
      }
      assert calls[|arrivals|..] == later;
    }

    method Prepare(ghost all: Outcome, ghost calls: seq<Call>)
      requires Valid() && calls != [] && calls[0].Align? && all == DoAll(View(), calls)
      modifies mux, mux.owned
      ensures Valid() && mux.Grown() && Underway(all, QUIET, View(), calls[1..])
    {
      FirstCall(View(), calls);
      NextCall(all, QUIET, View(), calls);
      QuietIsNeutral(QUIET);
      SyncSessionId();
    }

    method Finish(done: Output, ghost all: Outcome, controlAt: real, dataAt: real) returns (o: Output)
      requires Valid() && Underway(all, done, View(), [Clocks(controlAt, dataAt)])
      modifies this`buffers, machine, mux, mux.owned, mux.estimators
      ensures Valid() && Outcome(View(), o) == all
    {
      if done.raised {
        return done;
      }
      NextCall(all, done, View(), [Clocks(controlAt, dataAt)]);
      var timers := RunTimers(controlAt, dataAt);
      o := Then(done, timers);
      NoCallLeft(all, o, View());
    }

    /** One cycle over the frames now in the inbox, at most `maxFrames` of them where that is given. */
    method Pump(arrivals: seq<Arrival>, maxFrames: Option<nat>, controlAt: real, dataAt: real) returns (o: Output)
      requires Valid()
      modifies this`buffers, machine, mux, mux.owned, mux.estimators
      ensures Valid()
      ensures var n := if maxFrames.Some? && maxFrames.value < |arrivals| then maxFrames.value else |arrivals|;
        Outcome(View(), o) == DoAll(old(View()), PumpCalls(arrivals[..n], controlAt, dataAt))
    {
      var n := if maxFrames.Some? && maxFrames.value < |arrivals| then maxFrames.value else |arrivals|;
      ghost var calls := PumpCalls(arrivals[..n], controlAt, dataAt);
      ghost var all := DoAll(View(), calls);
      assert calls[1..] == Frames(arrivals[..n]) + [Clocks(controlAt, dataAt)];
      Prepare(all, calls);
      o := Drain(arrivals[..n], all, [Clocks(controlAt, dataAt)]);
      o := Finish(o, all, controlAt, dataAt);
    }
  }
}
