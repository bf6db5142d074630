/** One endpoint per stream behind a single session (photontcp/stream/mux.py). */
module Mux {
  import opened Prelude
  import opened Packets
  import opened Rto
  import opened ArqModel
  import opened ArqSafety
  import opened ArqStored

  const CONTROL_STREAM_ID := 0
  const DEFAULT_MAX_RETX: nat := 8

  /** `order` is the order in which the dictionary came by its keys; `rto` is what the factory makes. */
  datatype StreamMux = StreamMux(
    session: int,
    initiator: bool,
    window: pos,
    maxPayload: pos,
    rto: Estimate,
    endpoints: map<int, Arq>,
    order: seq<int>,
    nextOpen: int)

  datatype MuxOutput = MuxOutput(packets: seq<Packet>, delivered: map<int, seq<bytes>>, failed: seq<int>, raised: bool)

  const NO_OUTPUT := MuxOutput([], map[], [], false)

  datatype MuxResult = MuxResult(mux: StreamMux, out: MuxOutput)

  function NewMux(session: int, initiator: bool, window: pos, maxPayload: pos, rto: Estimate): StreamMux
  {
    StreamMux(session, initiator, window, maxPayload, rto, map[], [], if initiator then 3 else 2)
  }

  /** What a stream starts from. */
  function Unopened(x: StreamMux, k: int): Arq
  {
    NewEndpoint(x.session, Config(k, x.window, x.maxPayload, DEFAULT_MAX_RETX), 0, 0, x.rto)
  }

  /** Creates the endpoint of a stream seen for the first time. */
  function Ensure(x: StreamMux, k: int): (y: StreamMux)
    ensures k in y.endpoints
  {
    if k in x.endpoints then x else x.(endpoints := x.endpoints[k := Unopened(x, k)], order := x.order + [k])
  }

  predicate SameParity(j: int, k: int)
  {
    (j - k) % 2 == 0
  }

  /** The lowest id from `from` on, in steps of two, that no stream has. */
  function FirstFree(keys: set<int>, from: int): (k: int)
    ensures k >= from && SameParity(k, from) && k !in keys
    ensures forall j :: from <= j < k && SameParity(j, from) ==> j in keys
    decreases |keys|
  {
    if from in keys then
      var k := FirstFree(keys - {from}, from + 2);
      assert forall j :: from <= j < k && SameParity(j, from) ==> j == from || (j >= from + 2 && SameParity(j, from + 2));
      k
    else from
  }

  function Open(x: StreamMux): (StreamMux, int)
  {
    var k := FirstFree(x.endpoints.Keys, x.nextOpen);
    (Ensure(x, k).(nextOpen := k + 2), k)
  }

  /** Puts one endpoint's step in its place. */
  function Settle(x: StreamMux, k: int, r: Result): MuxResult
  {
    MuxResult(
      x.(endpoints := x.endpoints[k := r.ep]),
      MuxOutput(r.output.packets,
                if r.output.delivered != [] then map[k := r.output.delivered] else map[],
                if SEND_FAILED in r.output.events then [k] else [],
                r.output.raised))
  }

  function SendOn(m: Arith, x: StreamMux, k: int, data: bytes, now: real): MuxResult
  {
    var y := Ensure(x, k);
    Settle(y, k, Send(m, y.endpoints[k], data, now))
  }

  function Arrive(m: Arith, x: StreamMux, p: Packet, now: real): MuxResult
  {
    if p.stream == CONTROL_STREAM_ID then MuxResult(x, NO_OUTPUT)
    else
      var y := Ensure(x, p.stream);
      Settle(y, p.stream, OnPacket(m, y.endpoints[p.stream], p, now))
  }

  /** Timer outputs one after the other; timers deliver nothing and do not raise. */
  function Both(a: MuxOutput, b: MuxOutput): MuxOutput
  {
    MuxOutput(a.packets + b.packets, map[], a.failed + b.failed, false)
  }

  /** The timers of the streams listed, in that order. */
  function TickAll(x: StreamMux, keys: seq<int>, now: real): MuxResult
    decreases |keys|
  {
    if keys == [] || keys[0] !in x.endpoints then MuxResult(x, NO_OUTPUT)
    else
      var first := Settle(x, keys[0], OnTick(x.endpoints[keys[0]], now));
      var rest := TickAll(first.mux, keys[1..], now);
      MuxResult(rest.mux, Both(first.out, rest.out))
  }

  lemma TimersDeliverNothing(x: StreamMux, keys: seq<int>, now: real)
    ensures TickAll(x, keys, now).out.delivered == map[] && !TickAll(x, keys, now).out.raised
  {
  }

  function SetSession(x: StreamMux, sid: int): StreamMux
  {
    x.(session := sid, endpoints := map k | k in x.endpoints :: x.endpoints[k].(session := sid))
  }

  datatype MuxInput = Opening | Sending(k: int, data: bytes) | Arriving(p: Packet) | Ticking | Adopting(sid: int)

  function Step(m: Arith, x: StreamMux, inp: MuxInput, now: real): MuxResult
  {
    match inp
    case Opening => MuxResult(Open(x).0, NO_OUTPUT)
    case Sending(k, data) => SendOn(m, x, k, data, now)
    case Arriving(p) => Arrive(m, x, p, now)
    case Ticking => TickAll(x, x.order, now)
    case Adopting(sid) => MuxResult(SetSession(x, sid), NO_OUTPUT)
  }

  // ---- one stream of a mux ---------------------------------------------------------------------

  /** The endpoint of stream `k`, or what it would be created as. */
  function StreamOf(x: StreamMux, k: int): Arq
  {
    if k in x.endpoints then x.endpoints[k] else Unopened(x, k)
  }

  predicate Stores(e: Arq, k: int)
  {
    e.cfg.stream == k && forall i :: 0 <= i < |e.snd.out| ==> e.snd.out[i].packet.stream == k
  }

  ghost predicate Listed(order: seq<int>, keys: set<int>)
  {
    && (forall k :: k in order <==> k in keys)
    && (forall i, j :: 0 <= i < j < |order| ==> order[i] != order[j])
  }

  ghost predicate MuxOk(x: StreamMux)
  {
    && Listed(x.order, x.endpoints.Keys)
    && forall k :: k in x.endpoints ==> Stores(x.endpoints[k], k) && x.endpoints[k].session == x.session
  }

  /** What happens to one stream: an input of its own, or a new session id. */
  datatype StreamInput = Act(input: Input) | Adopt(sid: int)

  /** The part of a mux input that concerns stream `k`: it names no other stream. */
  function Concerning(inp: MuxInput, k: int): Option<StreamInput>
  {
    match inp
    case Opening => None
    case Sending(j, data) => if j == k then Some(Act(Submit(data))) else None
    case Arriving(p) => if p.stream == k && k != CONTROL_STREAM_ID then Some(Act(Receive(p))) else None
    case Ticking => Some(Act(Tick))
    case Adopting(sid) => Some(Adopt(sid))
  }

  /** A stand-alone endpoint taking such inputs. */
  function Alone(m: Arith, e: Arq, c: Option<StreamInput>, now: real): Result
  {
    match c
    case None => Result(e, NOTHING)
    case Some(Act(input)) => React(m, e, input, now)
    case Some(Adopt(sid)) => Result(e.(session := sid), NOTHING)
  }

  function OnStream(packets: seq<Packet>, k: int): seq<Packet>
  {
    if packets == [] then []
    else (if packets[0].stream == k then [packets[0]] else []) + OnStream(packets[1..], k)
  }

  function DeliveredOn(out: MuxOutput, k: int): seq<bytes>
  {
    if k in out.delivered then out.delivered[k] else []
  }

  // ---- packets keep to their stream ------------------------------------------------------------

  predicate AllOn(packets: seq<Packet>, k: int)
  {
    forall i :: 0 <= i < |packets| ==> packets[i].stream == k
  }

  lemma {:induction false} OnStreamAppend(a: seq<Packet>, b: seq<Packet>, k: int)
    ensures OnStream(a + b, k) == OnStream(a, k) + OnStream(b, k)
  {
    if a == [] {
      assert a + b == b;
    } else {
      assert (a + b)[1..] == a[1..] + b;
      OnStreamAppend(a[1..], b, k);
    }
  }

  lemma {:induction false} OnStreamOfOne(packets: seq<Packet>, j: int, k: int)
    requires AllOn(packets, j)
    ensures OnStream(packets, k) == if j == k then packets else []
  {
    if packets != [] {
      OnStreamOfOne(packets[1..], j, k);
    }
  }

  /** Whatever an endpoint does, it speaks on its own stream only. */
  lemma ReactStores(m: Arith, e: Arq, input: Input, now: real, k: int)
    requires Stores(e, k)
    ensures var r := React(m, e, input, now);
      Stores(r.ep, k) && AllOn(r.output.packets, k) && r.ep.session == e.session && r.ep.cfg == e.cfg
  {
    ReactKeeps(m, e, input, now, (p: Packet) => p.stream == k);
  }
}
