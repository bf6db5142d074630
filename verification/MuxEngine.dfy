/** The mux object (photontcp/stream/mux.py): a dictionary of endpoint objects changed in place. */
module MuxEngine {
  import opened Prelude
  import opened Packets
  import opened Serial
  import opened Rto
  import opened ArqModel
  import opened ArqEngine
  import M = Mux

  class StreamMux {
    const initiator: bool
    const windowSize: pos
    const maxPayload: pos
    const template: Estimate
    var sessionId: int
    var endpoints: map<int, ArqEndpoint>
    var order: seq<int>
    var nextOpenId: int
    // the objects this mux owns
    ghost var owned: set<ArqEndpoint>
    ghost var estimators: set<RtoEstimator>

    ghost predicate Valid()
      reads this, owned
    {
      && endpoints.Values <= owned && Rtos(endpoints) <= estimators
      && windowSize < SEQ_HALF
      && template == NewEstimate(template.initialRto, template.minRto, template.maxRto)
      && M.Listed(order, endpoints.Keys)
      && AllValid(endpoints, windowSize)
      && Separate(endpoints)
    }

    function View(): M.StreamMux
      requires Valid()
      reads this, owned, estimators
    {
      M.StreamMux(sessionId, initiator, windowSize, maxPayload, template, Views(endpoints), order, nextOpenId)
    }

    /** What is owned later is what was owned before, or new. */
    twostate predicate Grown()
      reads this
    {
      && (forall e :: e in owned ==> e in old(owned) || fresh(e))
      && (forall r :: r in estimators ==> r in old(estimators) || fresh(r))
    }

    constructor (sessionId: int, initiator: bool, windowSize: pos, maxPayload: pos, template: Estimate)
      requires windowSize < SEQ_HALF && template == NewEstimate(template.initialRto, template.minRto, template.maxRto)
      ensures Valid() && View() == M.NewMux(sessionId, initiator, windowSize, maxPayload, template)
      ensures owned == {} && estimators == {}
    {
      this.sessionId, this.initiator, this.windowSize, this.maxPayload := sessionId, initiator, windowSize, maxPayload;
      this.template, endpoints, order := template, map[], [];
      nextOpenId := if initiator then 3 else 2;
      owned, estimators := {}, {};
    }

    method NewEndpoint(k: int) returns (ep: ArqEndpoint)
      requires Valid()
      ensures fresh(ep) && fresh(ep.rto) && ep.Valid() && ep.windowSize == windowSize
      ensures ep.View() == M.Unopened(View(), k)
    {
      var rto := new RtoEstimator(template.initialRto, template.minRto, template.maxRto);
      ep := new ArqEndpoint(sessionId, 0, windowSize, rto, maxPayload, 0, k, M.DEFAULT_MAX_RETX);
    }

    /** The endpoint of a stream, made on first use. */
    method Endpoint(k: int) returns (ep: ArqEndpoint)
      requires Valid()
      modifies this`endpoints, this`order, this`owned, this`estimators
      ensures Valid() && Grown() && k in endpoints && endpoints[k] == ep
      ensures View() == M.Ensure(old(View()), k)
      ensures endpoints == old(endpoints)[k := ep]
      ensures if k in old(endpoints) then ep == old(endpoints)[k] else fresh(ep) && fresh(ep.rto)
    {
      if k in endpoints {
        ep := endpoints[k];
        assert endpoints == endpoints[k := ep];
      } else {
        ep := NewEndpoint(k);
        Add(k, ep);
      }
    }

    method Add(k: int, ep: ArqEndpoint)
      requires Valid() && k !in endpoints
      requires ep.Valid() && ep.windowSize == windowSize && ep !in owned && ep.rto !in estimators
      modifies this`endpoints, this`order, this`owned, this`estimators
      ensures Valid() && endpoints == old(endpoints)[k := ep]
      ensures View() == old(View()).(endpoints := old(View()).endpoints[k := ep.View()], order := old(order) + [k])
      ensures owned == old(owned) + {ep} && estimators == old(estimators) + {ep.rto}
    {
      ViewsUpdate(endpoints, k, ep);
      ListedMore(order, endpoints.Keys, k);
      SeparateMore(endpoints, k, ep);
      endpoints, order := endpoints[k := ep], order + [k];
      owned, estimators := owned + {ep}, estimators + {ep.rto};
    }

    method FindFree() returns (k: int)
      ensures k == M.FirstFree(endpoints.Keys, nextOpenId)
    {
      k := nextOpenId;
      ghost var ahead := endpoints.Keys;
      while k in endpoints
        invariant k >= nextOpenId && M.SameParity(k, nextOpenId)
        invariant forall j :: nextOpenId <= j < k && M.SameParity(j, nextOpenId) ==> j in endpoints
        invariant forall j :: j in endpoints && j >= k ==> j in ahead
        decreases |ahead|
      {
        ahead := ahead - {k};
        k := k + 2;
      }
      FirstFreeIs(endpoints.Keys, nextOpenId, k);
    }

    method OpenStream() returns (k: int)
      requires Valid()
      modifies this
      ensures Valid() && View() == M.Open(old(View())).0 && k == M.Open(old(View())).1
    {
      k := FindFree();
      OpenIs(View(), endpoints.Keys, k);
      var ep := Endpoint(k);
      SetNext(k + 2);
    }

    method SetNext(k: int)
      requires Valid()
      modifies this`nextOpenId
      ensures Valid() && View() == old(View()).(nextOpen := k)
    {
      nextOpenId := k;
    }

    method Send(k: int, data: bytes, now: real) returns (out: M.MuxOutput)
      requires Valid()
      modifies this, owned
      ensures Valid() && Grown()
      ensures M.MuxResult(View(), out) == M.SendOn(Serial32, old(View()), k, data, now)
    {
      var ep := Endpoint(k);
      out := SendVia(k, data, now);
    }

    method SendVia(k: int, data: bytes, now: real) returns (out: M.MuxOutput)
      requires Valid() && k in endpoints
      modifies endpoints[k]
      ensures Valid()
      ensures M.MuxResult(View(), out) == M.Settle(old(View()), k, ArqModel.Send(Serial32, old(endpoints[k].View()), data, now))
    {
      ghost var before := Views(endpoints);
      var o := endpoints[k].Send(data, now);
      OneChanged(endpoints, before, k);
      out := M.MuxOutput(o.packets, map[], [], false);
    }

    method OnPacket(p: Packet, now: real) returns (out: M.MuxOutput)
      requires Valid() && IsSerial(p.seqno)
      modifies this, owned, estimators
      ensures Valid() && Grown()
      ensures M.MuxResult(View(), out) == M.Arrive(Serial32, old(View()), p, now)
    {
      out := M.NO_OUTPUT;
      if p.stream != M.CONTROL_STREAM_ID {
        var ep := Endpoint(p.stream);
        out := DeliverTo(p.stream, p, now);
      }
    }

    method DeliverTo(k: int, p: Packet, now: real) returns (out: M.MuxOutput)
      requires Valid() && k in endpoints && IsSerial(p.seqno)
      modifies endpoints[k], endpoints[k].rto
      ensures Valid()
      ensures M.MuxResult(View(), out) == M.Settle(old(View()), k, ArqModel.OnPacket(Serial32, old(endpoints[k].View()), p, now))
    {
      ghost var before := Views(endpoints);
      var o := endpoints[k].OnPacket(p, now);
      OneChanged(endpoints, before, k);
      out := M.MuxOutput(o.packets, if o.delivered != [] then map[k := o.delivered] else map[],
                         if SEND_FAILED in o.events then [k] else [], o.raised);
    }

    method TickOne(k: int, now: real) returns (out: M.MuxOutput)
      requires Valid() && k in endpoints
      modifies endpoints[k], endpoints[k].rto
      ensures Valid()
      ensures M.MuxResult(View(), out) == M.Settle(old(View()), k, ArqModel.OnTick(old(endpoints[k].View()), now))
    {
      ghost var before := Views(endpoints);
      var o := endpoints[k].OnTick(now);
      OneChanged(endpoints, before, k);
      out := M.MuxOutput(o.packets, map[], if SEND_FAILED in o.events then [k] else [], false);
    }

    method OnTick(now: real) returns (out: M.MuxOutput)
      requires Valid()
      modifies owned, estimators
      ensures Valid()
      ensures M.MuxResult(View(), out) == M.TickAll(old(View()), old(order), now)
    {
      out := M.NO_OUTPUT;
      ghost var all := M.TickAll(View(), order, now);
      AfterNothing(View(), order, now);
      var i := 0;
      while i < |order|
        invariant 0 <= i <= |order| && Valid()
        invariant all == Continued(out, View(), order[i..], now)
        invariant out.delivered == map[] && !out.raised
      {
        assert order[i] in order && order[i..][1..] == order[i + 1..];
        out := TickNext(order[i..], out, now);
        i := i + 1;
      }
      BeforeNothing(View(), order[i..], out, now);
    }

    method TickNext(keys: seq<int>, done: M.MuxOutput, now: real) returns (out: M.MuxOutput)
      requires Valid() && keys != [] && keys[0] in endpoints
      modifies owned, estimators
      ensures Valid() && out.delivered == map[] && !out.raised
      ensures Continued(out, View(), keys[1..], now) == Continued(done, old(View()), keys, now)
    {
      assert keys[0] in View().endpoints;
      var one := TickOne(keys[0], now);
      ghost var rest := M.TickAll(View(), keys[1..], now).out;
      assert done.packets + (one.packets + rest.packets) == (done.packets + one.packets) + rest.packets;
      assert done.failed + (one.failed + rest.failed) == (done.failed + one.failed) + rest.failed;
      out := M.Both(done, one);
    }

    method Rename(k: int, sid: int)
      requires Valid() && k in endpoints
      modifies endpoints[k]
      ensures Valid() && Views(endpoints) == old(Views(endpoints))[k := old(Views(endpoints))[k].(session := sid)]
    {
      ghost var before := Views(endpoints);
      endpoints[k].sessionId := sid;
      OneChanged(endpoints, before, k);
    }

    method SetSessionId(sid: int)
      requires Valid()
      modifies this`sessionId, owned
      ensures Valid() && View() == M.SetSession(old(View()), sid)
    {
      ghost var before := Views(endpoints);
      var i := 0;
      while i < |order|
        invariant 0 <= i <= |order| && Valid()
        invariant Views(endpoints) == RenamedIn(before, order[..i], sid)
      {
        assert order[i] in order && order[..i + 1] == order[..i] + [order[i]];
        Rename(order[i], sid);
        i := i + 1;
      }
      assert order[..i] == order;
      AllRenamed(before, order, sid);
      sessionId := sid;
    }
  }

  /** Ticking the streams listed, after what was already given out. */
  function Continued(done: M.MuxOutput, x: M.StreamMux, keys: seq<int>, now: real): M.MuxResult
  {
    var rest := M.TickAll(x, keys, now);
    M.MuxResult(rest.mux, M.Both(done, rest.out))
  }

  lemma AfterNothing(x: M.StreamMux, keys: seq<int>, now: real)
    ensures Continued(M.NO_OUTPUT, x, keys, now) == M.TickAll(x, keys, now)
  {
    M.TimersDeliverNothing(x, keys, now);
    var out := M.TickAll(x, keys, now).out;
    assert [] + out.packets == out.packets && [] + out.failed == out.failed;
  }

  lemma BeforeNothing(x: M.StreamMux, keys: seq<int>, done: M.MuxOutput, now: real)
    requires keys == [] && done.delivered == map[] && !done.raised
    ensures Continued(done, x, keys, now) == M.MuxResult(x, done)
  {
    assert done.packets + [] == done.packets && done.failed + [] == done.failed;
  }

  lemma OpenIs(x: M.StreamMux, keys: set<int>, k: int)
    requires x.endpoints.Keys == keys && k == M.FirstFree(keys, x.nextOpen)
    ensures M.Open(x) == (M.Ensure(x, k).(nextOpen := k + 2), k)
  {
  }

  function RenamedIn(before: map<int, Arq>, done: seq<int>, sid: int): map<int, Arq>
  {
    map k | k in before :: if k in done then before[k].(session := sid) else before[k]
  }

  lemma AllRenamed(before: map<int, Arq>, order: seq<int>, sid: int)
    requires M.Listed(order, before.Keys)
    ensures RenamedIn(before, order, sid) == map k | k in before :: before[k].(session := sid)
  {
    assert forall k :: k in before ==> k in order;
  }

  lemma FirstFreeIs(keys: set<int>, from: int, k: int)
    requires k >= from && M.SameParity(k, from) && k !in keys
    requires forall j :: from <= j < k && M.SameParity(j, from) ==> j in keys
    ensures M.FirstFree(keys, from) == k
  {
  }

  lemma OneChanged(eps: map<int, ArqEndpoint>, before: map<int, Arq>, k: int)
    requires k in eps && before.Keys == eps.Keys
    requires forall j :: j in eps && j != k ==> eps[j].View() == before[j]
    ensures Views(eps) == before[k := eps[k].View()]
  {
    var after := before[k := eps[k].View()];
    assert Views(eps).Keys == eps.Keys == after.Keys;
    assert forall j :: j in eps ==> Views(eps)[j] == after[j];
  }

  ghost predicate AllValid(eps: map<int, ArqEndpoint>, windowSize: pos)
    reads eps.Values
  {
    forall k :: k in eps ==> eps[k].Valid() && eps[k].windowSize == windowSize
  }

  /** No two streams share an endpoint or an estimator. */
  ghost predicate Separate(eps: map<int, ArqEndpoint>)
  {
    forall j, k :: j in eps && k in eps && j != k ==> eps[j] != eps[k] && eps[j].rto != eps[k].rto
  }

  function Rtos(eps: map<int, ArqEndpoint>): set<RtoEstimator>
  {
    set k | k in eps :: eps[k].rto
  }

  function Views(eps: map<int, ArqEndpoint>): map<int, Arq>
    reads eps.Values, Rtos(eps)
  {
    map k | k in eps :: eps[k].View()
  }

  lemma ViewsUpdate(eps: map<int, ArqEndpoint>, k: int, ep: ArqEndpoint)
    ensures Views(eps[k := ep]) == Views(eps)[k := ep.View()]
  {
  }

  lemma ListedMore(order: seq<int>, keys: set<int>, k: int)
    requires M.Listed(order, keys) && k !in keys
    ensures M.Listed(order + [k], keys + {k})
  {
    var more := order + [k];
    forall a, b | 0 <= a < b < |more| ensures more[a] != more[b] {
      if b == |order| {
        assert order[a] in order;
      }
    }
  }

  lemma SeparateMore(eps: map<int, ArqEndpoint>, k: int, ep: ArqEndpoint)
    requires Separate(eps) && ep !in eps.Values && ep.rto !in Rtos(eps)
    ensures Separate(eps[k := ep])
  {
  }
}
