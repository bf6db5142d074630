/** A mux is a product of stand-alone endpoints: one stream's run depends on that stream's inputs alone. */
module MuxStreams {
  import opened Prelude
  import opened Packets
  import opened Rto
  import opened ArqModel
  import opened ArqSafety
  import opened Mux

  /** What one mux step shows of stream `k`. */
  ghost predicate Shows(x: StreamMux, r: MuxResult, k: int, alone: Result)
  {
    && StreamOf(r.mux, k) == alone.ep
    && OnStream(r.out.packets, k) == alone.output.packets
    && DeliveredOn(r.out, k) == alone.output.delivered
    && (k in r.out.failed <==> SEND_FAILED in alone.output.events)
  }

  lemma EnsureKeeps(x: StreamMux, j: int, k: int)
    requires MuxOk(x)
    ensures var y := Ensure(x, j);
      && MuxOk(y) && StreamOf(y, k) == StreamOf(x, k)
      && y.session == x.session && Unopened(y, k) == Unopened(x, k)
  {
    var y := Ensure(x, j);
    if j !in x.endpoints {
      forall a, b | 0 <= a < b < |y.order| ensures y.order[a] != y.order[b] {
        if b == |x.order| {
          assert x.order[a] in x.order;
        }
      }
    }
  }

  lemma SettleShows(y: StreamMux, j: int, k: int, r: Result)
    requires MuxOk(y) && j in y.endpoints
    requires Stores(r.ep, j) && AllOn(r.output.packets, j) && r.ep.session == y.session
    ensures var s := Settle(y, j, r);
      MuxOk(s.mux) && Shows(y, s, k, if j == k then r else Result(StreamOf(y, k), NOTHING))
  {
    OnStreamOfOne(r.output.packets, j, k);
    var s := Settle(y, j, r);
    assert s.mux.endpoints.Keys == y.endpoints.Keys;
  }

  lemma SendingShows(m: Arith, x: StreamMux, j: int, data: bytes, now: real, k: int)
    requires MuxOk(x)
    ensures var r := SendOn(m, x, j, data, now);
      MuxOk(r.mux) && Shows(x, r, k, Alone(m, StreamOf(x, k), Concerning(Sending(j, data), k), now))
  {
    var y := Ensure(x, j);
    EnsureKeeps(x, j, k);
    EnsureKeeps(x, j, j);
    ReactStores(m, y.endpoints[j], Submit(data), now, j);
    SettleShows(y, j, k, Send(m, y.endpoints[j], data, now));
  }

  lemma ArrivingShows(m: Arith, x: StreamMux, p: Packet, now: real, k: int)
    requires MuxOk(x)
    ensures var r := Arrive(m, x, p, now);
      MuxOk(r.mux) && Shows(x, r, k, Alone(m, StreamOf(x, k), Concerning(Arriving(p), k), now))
  {
    if p.stream != CONTROL_STREAM_ID {
      var j := p.stream;
      var y := Ensure(x, j);
      EnsureKeeps(x, j, k);
      EnsureKeeps(x, j, j);
      ReactStores(m, y.endpoints[j], Receive(p), now, j);
      SettleShows(y, j, k, OnPacket(m, y.endpoints[j], p, now));
    }
  }

  /** Timers: each listed stream takes one tick, the others none. */
  lemma {:induction false} TickAllShows(x: StreamMux, keys: seq<int>, now: real, k: int)
    requires MuxOk(x) && (forall i :: 0 <= i < |keys| ==> keys[i] in x.endpoints)
    requires forall i, j :: 0 <= i < j < |keys| ==> keys[i] != keys[j]
    ensures var r := TickAll(x, keys, now);
      && MuxOk(r.mux) && r.mux.endpoints.Keys == x.endpoints.Keys && r.mux.session == x.session
      && Shows(x, r, k, if k in keys then OnTick(StreamOf(x, k), now) else Result(StreamOf(x, k), NOTHING))
    decreases |keys|
  {
    if keys != [] {
      var j := keys[0];
      ReactStores(Unbounded, x.endpoints[j], Tick, now, j);
      SettleShows(x, j, k, OnTick(x.endpoints[j], now));
      var first := Settle(x, j, OnTick(x.endpoints[j], now));
      assert first.mux.endpoints.Keys == x.endpoints.Keys;
      TickAllShows(first.mux, keys[1..], now, k);
      var rest := TickAll(first.mux, keys[1..], now);
      OnStreamAppend(first.out.packets, rest.out.packets, k);
      assert k in keys <==> k == j || k in keys[1..];
      if k == j {
        assert k !in keys[1..];
      }
    }
  }

  lemma TickingShows(m: Arith, x: StreamMux, now: real, k: int)
    requires MuxOk(x)
    ensures var r := TickAll(x, x.order, now);
      MuxOk(r.mux) && Shows(x, r, k, Alone(m, StreamOf(x, k), Concerning(Ticking, k), now))
  {
    forall i | 0 <= i < |x.order| ensures x.order[i] in x.endpoints {
      assert x.order[i] in x.order;
    }
    TickAllShows(x, x.order, now, k);
  }

  lemma AdoptingShows(m: Arith, x: StreamMux, sid: int, now: real, k: int)
    requires MuxOk(x)
    ensures var r := MuxResult(SetSession(x, sid), NO_OUTPUT);
      MuxOk(r.mux) && Shows(x, r, k, Alone(m, StreamOf(x, k), Concerning(Adopting(sid), k), now))
  {
    assert SetSession(x, sid).endpoints.Keys == x.endpoints.Keys;
  }

  /** One mux step, seen from stream `k`, is one step of a stand-alone endpoint, or none. */
  lemma StepShows(m: Arith, x: StreamMux, inp: MuxInput, now: real, k: int)
    requires MuxOk(x)
    ensures var r := Step(m, x, inp, now);
      MuxOk(r.mux) && Shows(x, r, k, Alone(m, StreamOf(x, k), Concerning(inp, k), now))
  {
    match inp
    case Opening =>
      EnsureKeeps(x, Open(x).1, k);
    case Sending(j, data) => SendingShows(m, x, j, data, now, k);
    case Arriving(p) => ArrivingShows(m, x, p, now, k);
    case Ticking => TickingShows(m, x, now, k);
    case Adopting(sid) => AdoptingShows(m, x, sid, now, k);
  }

  // ---- runs of one mux -------------------------------------------------------------------------

  datatype Timed = Timed(inp: MuxInput, now: real)

  /** A mux with everything it sent and handed up. */
  datatype Track = Track(mux: StreamMux, packets: seq<Packet>, delivered: map<int, seq<bytes>>)

  function Log(delivered: map<int, seq<bytes>>, k: int): seq<bytes>
  {
    if k in delivered then delivered[k] else []
  }

  function Logged(delivered: map<int, seq<bytes>>, more: map<int, seq<bytes>>): map<int, seq<bytes>>
  {
    map k | k in delivered.Keys + more.Keys :: Log(delivered, k) + Log(more, k)
  }

  function StepTrack(m: Arith, x: Track, t: Timed): Track
  {
    var r := Step(m, x.mux, t.inp, t.now);
    Track(r.mux, x.packets + r.out.packets, Logged(x.delivered, r.out.delivered))
  }

  function RunTrack(m: Arith, x: Track, ts: seq<Timed>): Track
    decreases |ts|
  {
    if ts == [] then x else RunTrack(m, StepTrack(m, x, ts[0]), ts[1..])
  }

  /** A stand-alone endpoint with the same record. */
  datatype Lane = Lane(ep: Arq, packets: seq<Packet>, delivered: seq<bytes>)

  datatype LaneInput = LaneInput(c: StreamInput, now: real)

  function StepLane(m: Arith, l: Lane, i: LaneInput): Lane
  {
    var r := Alone(m, l.ep, Some(i.c), i.now);
    Lane(r.ep, l.packets + r.output.packets, l.delivered + r.output.delivered)
  }

  function RunLane(m: Arith, l: Lane, inputs: seq<LaneInput>): Lane
    decreases |inputs|
  {
    if inputs == [] then l else RunLane(m, StepLane(m, l, inputs[0]), inputs[1..])
  }

  /** The inputs of a mux run that concern stream `k`. */
  function InputsOf(ts: seq<Timed>, k: int): seq<LaneInput>
  {
    if ts == [] then []
    else
      match Concerning(ts[0].inp, k)
      case None => InputsOf(ts[1..], k)
      case Some(c) => [LaneInput(c, ts[0].now)] + InputsOf(ts[1..], k)
  }

  function LaneOf(x: Track, k: int): Lane
  {
    Lane(StreamOf(x.mux, k), OnStream(x.packets, k), Log(x.delivered, k))
  }

  lemma LogOfLogged(a: map<int, seq<bytes>>, b: map<int, seq<bytes>>, k: int)
    ensures Log(Logged(a, b), k) == Log(a, k) + Log(b, k)
  {
  }

  lemma StepAddsToLane(m: Arith, x: Track, t: Timed, k: int)
    requires MuxOk(x.mux)
    ensures var x' := StepTrack(m, x, t); var alone := Alone(m, StreamOf(x.mux, k), Concerning(t.inp, k), t.now);
      MuxOk(x'.mux) && LaneOf(x', k)
        == Lane(alone.ep, OnStream(x.packets, k) + alone.output.packets, Log(x.delivered, k) + alone.output.delivered)
  {
    var r := Step(m, x.mux, t.inp, t.now);
    StepShows(m, x.mux, t.inp, t.now, k);
    OnStreamAppend(x.packets, r.out.packets, k);
    LogOfLogged(x.delivered, r.out.delivered, k);
  }

  lemma StepIsLaneStep(m: Arith, x: Track, t: Timed, k: int)
    requires MuxOk(x.mux)
    ensures var x' := StepTrack(m, x, t);
      MuxOk(x'.mux) && LaneOf(x', k) == match Concerning(t.inp, k)
        case None => LaneOf(x, k)
        case Some(c) => StepLane(m, LaneOf(x, k), LaneInput(c, t.now))
  {
    StepAddsToLane(m, x, t, k);
    assert OnStream(x.packets, k) + [] == OnStream(x.packets, k) && Log(x.delivered, k) + [] == Log(x.delivered, k);
  }

  /** Projected on one stream, a whole mux run is the run of a stand-alone endpoint fed that stream's
      inputs: same endpoint, same packets, same deliveries. */
  lemma {:induction false} RunIsLaneRun(m: Arith, x: Track, ts: seq<Timed>, k: int)
    requires MuxOk(x.mux)
    ensures MuxOk(RunTrack(m, x, ts).mux)
    ensures LaneOf(RunTrack(m, x, ts), k) == RunLane(m, LaneOf(x, k), InputsOf(ts, k))
    decreases |ts|
  {
    if ts != [] {
      StepIsLaneStep(m, x, ts[0], k);
      RunIsLaneRun(m, StepTrack(m, x, ts[0]), ts[1..], k);
      if Concerning(ts[0].inp, k).Some? {
        assert InputsOf(ts, k)[1..] == InputsOf(ts[1..], k);
      }
    }
  }

  /** Two runs that agree on one stream's inputs agree on all that stream does, whatever happens on
      the others: a hole elsewhere delays nothing here. */
  lemma StreamsAreIndependent(m: Arith, x: Track, ts: seq<Timed>, ts': seq<Timed>, k: int)
    requires MuxOk(x.mux) && InputsOf(ts, k) == InputsOf(ts', k)
    ensures LaneOf(RunTrack(m, x, ts), k) == LaneOf(RunTrack(m, x, ts'), k)
  {
    RunIsLaneRun(m, x, ts, k);
    RunIsLaneRun(m, x, ts', k);
  }

  // ---- opening streams -------------------------------------------------------------------------

  /** Ids of this peer's parity below `nextOpen` are all taken. */
  predicate OpensLow(x: StreamMux)
  {
    var first := if x.initiator then 3 else 2;
    && x.nextOpen >= first && SameParity(x.nextOpen, first)
    && forall j :: first <= j < x.nextOpen && SameParity(j, first) ==> j in x.endpoints
  }

  lemma {:induction false} TickAllKeepsKeys(x: StreamMux, keys: seq<int>, now: real)
    ensures var y := TickAll(x, keys, now).mux;
      y.endpoints.Keys == x.endpoints.Keys && y == x.(endpoints := y.endpoints)
    decreases |keys|
  {
    if keys != [] && keys[0] in x.endpoints {
      var first := Settle(x, keys[0], OnTick(x.endpoints[keys[0]], now)).mux;
      assert first.endpoints.Keys == x.endpoints.Keys;
      TickAllKeepsKeys(first, keys[1..], now);
    }
  }

  lemma OthersKeepKeys(m: Arith, x: StreamMux, inp: MuxInput, now: real)
    requires !inp.Opening?
    ensures var y := Step(m, x, inp, now).mux;
      x.endpoints.Keys <= y.endpoints.Keys && y.nextOpen == x.nextOpen && y.initiator == x.initiator
  {
    match inp
    case Ticking => TickAllKeepsKeys(x, x.order, now);
    case _ =>
  }

  lemma ParityIsTransitive(i: int, j: int, k: int)
    requires SameParity(i, j)
    ensures SameParity(k, i) <==> SameParity(k, j)
  {
  }

  /** Opening hands out the lowest free id of this peer's parity. */
  lemma OpeningIsLowest(x: StreamMux)
    requires OpensLow(x)
    ensures var (y, k) := Open(x); var first := if x.initiator then 3 else 2;
      && OpensLow(y) && k !in x.endpoints && k in y.endpoints
      && k >= first && SameParity(k, first)
      && forall j :: first <= j < k && SameParity(j, first) ==> j in x.endpoints
  {
    var first := if x.initiator then 3 else 2;
    var k := Open(x).1;
    ParityIsTransitive(x.nextOpen, first, k);
    forall j | first <= j < k && SameParity(j, first) ensures j in x.endpoints {
      ParityIsTransitive(x.nextOpen, first, j);
    }
  }

  /** Whatever a mux did before, that stays so. */
  lemma {:induction false} EveryOpeningIsLowest(m: Arith, x: Track, ts: seq<Timed>)
    requires OpensLow(x.mux)
    ensures OpensLow(RunTrack(m, x, ts).mux)
    decreases |ts|
  {
    if ts != [] {
      if ts[0].inp.Opening? {
        OpeningIsLowest(x.mux);
      } else {
        OthersKeepKeys(m, x.mux, ts[0].inp, ts[0].now);
      }
      EveryOpeningIsLowest(m, StepTrack(m, x, ts[0]), ts[1..]);
    }
  }

  /** An initiator's ids and a responder's are never the same. */
  lemma OpenedIdsNeverCollide(x: StreamMux, y: StreamMux)
    requires OpensLow(x) && OpensLow(y) && x.initiator && !y.initiator
    ensures Open(x).1 != Open(y).1
  {
    OpeningIsLowest(x);
    OpeningIsLowest(y);
  }
}
