/** What the transmission history of an endpoint shows: which round trips are sampled (Karn), how often
    a hole is asked for, and how far timeouts can go before the endpoint gives up. */
module ArqHistory {
  import opened Prelude
  import opened Packets
  import opened Rto
  import opened ArqModel
  import opened ArqSafety
  import opened ArqSystem
  import opened ArqTheorems

  // ---- Karn ----------------------------------------------------------------------------------

  /** When the packet with sequence number `q` was put on the wire. */
  function TimesOf(tx: seq<Tx>, q: int): seq<real>
  {
    if tx == [] then [] else (if tx[0].seqno == q then [tx[0].time] else []) + TimesOf(tx[1..], q)
  }

  lemma {:induction false} TimesAppend(a: seq<Tx>, b: seq<Tx>, q: int)
    ensures TimesOf(a + b, q) == TimesOf(a, q) + TimesOf(b, q)
  {
    if a == [] {
      assert a + b == b;
    } else {
      var first := if a[0].seqno == q then [a[0].time] else [];
      assert (a + b)[1..] == a[1..] + b;
      TimesAppend(a[1..], b, q);
      assert TimesOf(a + b, q) == first + TimesOf(a[1..] + b, q);
      assert (first + TimesOf(a[1..], q)) + TimesOf(b, q) == first + (TimesOf(a[1..], q) + TimesOf(b, q));
    }
  }

  /** The bookkeeping of one entry agrees with its history of transmissions. */
  predicate Recorded(o: Outstanding, times: seq<real>)
  {
    |times| == 1 + o.retx && times[o.retx] == o.sendTime
  }

  /** Every entry agrees with the transmission times of its packet; later packets have none. */
  ghost predicate RecordedBy(s: Sender, times: int -> seq<real>)
  {
    && (forall i :: 0 <= i < |s.out| ==> Recorded(s.out[i], times(Una(s) + i)))
    && (forall q :: s.next <= q ==> times(q) == [])
  }

  ghost predicate AllRecorded(s: Sender, tx: seq<Tx>)
  {
    RecordedBy(s, q => TimesOf(tx, q))
  }

  lemma {:induction false} NewEntriesTx(e: Arq, next: int, chunks: seq<bytes>, now: real, q: int)
    ensures TimesOf(DataTx(PacketsOf(NewEntries(e, next, chunks, now)), now), q)
      == if next <= q < next + |chunks| then [now] else []
    decreases |chunks|
  {
    if chunks != [] {
      NewEntriesTx(e, next + 1, chunks[1..], now, q);
      var all := PacketsOf(NewEntries(e, next, chunks, now));
      assert all[1..] == PacketsOf(NewEntries(e, next + 1, chunks[1..], now));
    }
  }

  lemma EmittedRecords(e: Arq, s: Sender, chunks: seq<bytes>, pending: seq<bytes>, now: real,
                       before: int -> seq<real>, after: int -> seq<real>)
    requires RecordedBy(s, before)
    requires forall q :: after(q) == before(q) + (if s.next <= q < s.next + |chunks| then [now] else [])
    ensures RecordedBy(WithEmitted(e, s, chunks, pending, now).snd, after)
  {
    var t := WithEmitted(e, s, chunks, pending, now).snd;
    forall i | 0 <= i < |t.out|
      ensures Recorded(t.out[i], after(Una(t) + i))
    {
      if i < |s.out| {
        assert Recorded(s.out[i], before(Una(s) + i));
      }
    }
  }

  /** Emitting records one transmission of each new packet. */
  lemma EmittingRecords(e: Arq, s: Sender, chunks: seq<bytes>, pending: seq<bytes>, tx: seq<Tx>, now: real)
    requires AllRecorded(s, tx)
    ensures var r := WithEmitted(e, s, chunks, pending, now); AllRecorded(r.snd, tx + DataTx(r.packets, now))
  {
    var added := DataTx(WithEmitted(e, s, chunks, pending, now).packets, now);
    forall q
      ensures TimesOf(tx + added, q) == TimesOf(tx, q) + (if s.next <= q < s.next + |chunks| then [now] else [])
    {
      TimesAppend(tx, added, q);
      NewEntriesTx(e, s.next, chunks, now, q);
    }
    EmittedRecords(e, s, chunks, pending, now, q => TimesOf(tx, q), q => TimesOf(tx + added, q));
  }

  lemma {:induction false} TickStamps(out: seq<Outstanding>, now: real, rto: real, maxRetx: nat)
    ensures var t := TickScan(out, now, rto, maxRetx);
      |t.out| == |out| && forall i :: 0 <= i < |out| ==> t.out[i] == out[i] || t.out[i] == Resent(out[i], now)
  {
    if out != [] {
      TickStamps(out[1..], now, rto, maxRetx);
    }
  }

  /** The times a tick adds for position `q`: one if it stamps that entry. */
  function StampTimes(out: seq<Outstanding>, stamped: seq<Outstanding>, first: int, now: real, q: int): seq<real>
    requires |stamped| == |out|
  {
    if first <= q < first + |out| && stamped[q - first] == Resent(out[q - first], now) then [now] else []
  }

  lemma NotResent(o: Outstanding, now: real)
    ensures o != Resent(o, now)
  {
  }

  /** A tick adds one transmission exactly to the entries it stamps. */
  lemma {:induction false} TickTx(out: seq<Outstanding>, first: int, now: real, rto: real, maxRetx: nat, q: int)
    requires DataRun(out, first)
    ensures |TickScan(out, now, rto, maxRetx).out| == |out|
    ensures var t := TickScan(out, now, rto, maxRetx);
      TimesOf(DataTx(t.packets, now), q) == StampTimes(out, t.out, first, now, q)
  {
    TickStamps(out, now, rto, maxRetx);
    if out != [] {
      TickTx(out[1..], first + 1, now, rto, maxRetx, q);
      NotResent(out[0], now);
      if !Expired(out[0], now, rto) || out[0].retx >= maxRetx {
        NoneStamped(out, first, now, q);
      }
    }
  }

  lemma NoneStamped(out: seq<Outstanding>, first: int, now: real, q: int)
    ensures StampTimes(out, out, first, now, q) == []
  {
    if first <= q < first + |out| {
      NotResent(out[q - first], now);
    }
  }

  /** Entries sent again carry one more transmission, the others none. */
  predicate Stamped(o: Outstanding, o': Outstanding, before: seq<real>, after: seq<real>, now: real)
  {
    (o' == o && after == before) || (o' == Resent(o, now) && after == before + [now])
  }

  lemma StampingRecords(s: Sender, t: Sender, now: real, before: int -> seq<real>, after: int -> seq<real>)
    requires RecordedBy(s, before) && |t.out| == |s.out| && t.next == s.next
    requires forall i :: 0 <= i < |t.out| ==> Stamped(s.out[i], t.out[i], before(Una(s) + i), after(Una(s) + i), now)
    requires forall q :: s.next <= q ==> after(q) == before(q)
    ensures RecordedBy(t, after)
  {
    forall i | 0 <= i < |t.out|
      ensures Recorded(t.out[i], after(Una(t) + i))
    {
      assert Recorded(s.out[i], before(Una(s) + i));
      assert Stamped(s.out[i], t.out[i], before(Una(s) + i), after(Una(s) + i), now);
    }
  }

  lemma SingleTx(p: Packet, now: real, q: int)
    ensures TimesOf(DataTx([p], now), q) == if p.ptype == DATA && p.seqno == q then [now] else []
  {
    assert [p][1..] == [];
    assert DataTx([p], now) == if p.ptype == DATA then [Tx(p.seqno, now)] else [];
  }

  /** Data packets at consecutive positions from `first`. */
  predicate DataRun(out: seq<Outstanding>, first: int)
  {
    forall i :: 0 <= i < |out| ==> out[i].packet.seqno == first + i && out[i].packet.ptype == DATA
  }

  lemma WindowIsDataRun(w: pos, s: Sender, isn: int, emitted: seq<bytes>, clock: real)
    requires SenderOk(w, s, isn, emitted, clock)
    ensures DataRun(s.out, Una(s))
  {
    forall i | 0 <= i < |s.out|
      ensures s.out[i].packet.seqno == Una(s) + i && s.out[i].packet.ptype == DATA
    {
      assert EntryOk(s.out[i], isn, emitted, |emitted| - |s.out| + i, clock);
    }
  }

  lemma NackRecords(e: Arq, p: Packet, tx: seq<Tx>, now: real)
    requires DataRun(e.snd.out, Una(e.snd)) && AllRecorded(e.snd, tx)
    ensures var r := OnNack(e, p, now); AllRecorded(r.ep.snd, tx + DataTx(r.output.packets, now))
  {
    var s := e.snd;
    var k := IndexOf(s.out, p.ackno);
    if k < |s.out| {
      var added := DataTx([s.out[k].packet], now);
      forall q
        ensures TimesOf(tx + added, q) == TimesOf(tx, q) + (if q == Una(s) + k then [now] else [])
      {
        TimesAppend(tx, added, q);
        SingleTx(s.out[k].packet, now, q);
      }
      StampingRecords(s, OnNack(e, p, now).ep.snd, now, q => TimesOf(tx, q), q => TimesOf(tx + added, q));
    } else {
      assert tx + DataTx([], now) == tx;
    }
  }

  lemma TickAdds(s: Sender, tx: seq<Tx>, now: real, rto: real, maxRetx: nat, q: int)
    requires DataRun(s.out, Una(s))
    ensures var t := TickScan(s.out, now, rto, maxRetx);
      |t.out| == |s.out| && TimesOf(tx + DataTx(t.packets, now), q) == TimesOf(tx, q) + StampTimes(s.out, t.out, Una(s), now, q)
  {
    TimesAppend(tx, DataTx(TickScan(s.out, now, rto, maxRetx).packets, now), q);
    TickTx(s.out, Una(s), now, rto, maxRetx, q);
  }

  lemma ScanRecords(s: Sender, t: Ticked, u: Sender, now: real, before: int -> seq<real>, after: int -> seq<real>)
    requires RecordedBy(s, before) && |t.out| == |s.out| && u.out == t.out && u.next == s.next
    requires forall i :: 0 <= i < |s.out| ==> t.out[i] == s.out[i] || t.out[i] == Resent(s.out[i], now)
    requires forall q :: after(q) == before(q) + StampTimes(s.out, t.out, Una(s), now, q)
    ensures RecordedBy(u, after)
  {
    forall i | 0 <= i < |u.out| ensures Stamped(s.out[i], u.out[i], before(Una(s) + i), after(Una(s) + i), now) {
      NotResent(s.out[i], now);
      assert after(Una(s) + i) == before(Una(s) + i) + StampTimes(s.out, t.out, Una(s), now, Una(s) + i);
    }
    StampingRecords(s, u, now, before, after);
  }

  lemma TickRecords(e: Arq, tx: seq<Tx>, now: real)
    requires DataRun(e.snd.out, Una(e.snd)) && AllRecorded(e.snd, tx)
    ensures var r := OnTick(e, now); AllRecorded(r.ep.snd, tx + DataTx(r.output.packets, now))
  {
    var s := e.snd;
    if s.failed || NoneExpired(s, now) {
      assert tx + DataTx([], now) == tx;
    } else {
      var t := TickScan(s.out, now, s.rto.rto, e.cfg.maxRetx);
      var added := DataTx(t.packets, now);
      TickStamps(s.out, now, s.rto.rto, e.cfg.maxRetx);
      forall q ensures TimesOf(tx + added, q) == TimesOf(tx, q) + StampTimes(s.out, t.out, Una(s), now, q) {
        TickAdds(s, tx, now, s.rto.rto, e.cfg.maxRetx, q);
      }
      ScanRecords(s, t, OnTick(e, now).ep.snd, now, q => TimesOf(tx, q), q => TimesOf(tx + added, q));
    }
  }

  lemma SubmitRecords(e: Arq, data: bytes, tx: seq<Tx>, isn: int, emitted: seq<bytes>, now: real)
    requires SenderOk(e.cfg.window, e.snd, isn, emitted, now) && AllRecorded(e.snd, tx)
    ensures var r := Send(Unbounded, e, data, now); AllRecorded(r.ep.snd, tx + DataTx(r.output.packets, now))
  {
    var chunks := Chunks(data, e.cfg.maxPayload);
    var n := Least(Room(e.cfg.window, e.snd), |chunks|);
    KeysAreBelow(e.cfg.window, e.snd, isn, emitted, now);
    SendFillsWindow(e, e.snd, chunks, now);
    EmittingRecords(e, e.snd, chunks[..n], e.snd.pending + chunks[n..], tx, now);
  }

  lemma DroppingKeepsRecords(s: Sender, t: Sender, k: nat, tx: seq<Tx>)
    requires AllRecorded(s, tx) && k <= |s.out| && t.out == s.out[k..] && t.next == s.next
    ensures AllRecorded(t, tx)
  {
    forall i | 0 <= i < |t.out|
      ensures Recorded(t.out[i], TimesOf(tx, Una(t) + i))
    {
      assert Recorded(s.out[k + i], TimesOf(tx, Una(s) + (k + i)));
    }
  }

  lemma AckRecords(e: Arq, p: Packet, tx: seq<Tx>, isn: int, emitted: seq<bytes>, now: real)
    requires SenderOk(e.cfg.window, e.snd, isn, emitted, now) && AllRecorded(e.snd, tx)
    ensures var r := OnAck(Unbounded, e, p, now); AllRecorded(r.ep.snd, tx + DataTx(r.output.packets, now))
  {
    var t := Trimmed(e.snd, p, now);
    var n := Least(Room(e.cfg.window, t), |e.snd.pending|);
    AckEstimates(e, isn, emitted, p, now);
    DroppingKeepsRecords(e.snd, t, Covered(Una(e.snd), |e.snd.out|, p.ackno), tx);
    EmittingRecords(e, t, e.snd.pending[..n], e.snd.pending[n..], tx, now);
  }

  lemma DataRecords(e: Arq, p: Packet, tx: seq<Tx>, now: real)
    ensures tx + DataTx(OnData(Unbounded, e, p).output.packets, now) == tx
  {
    var packets := OnData(Unbounded, e, p).output.packets;
    assert |packets| == 2 ==> packets[1..][1..] == [];
    assert |packets| == 2 ==> DataTx(packets[1..], now) == [];
    assert DataTx(packets, now) == [];
  }

  lemma ReplyRecords(e: Arq, tx: seq<Tx>, isn: int, emitted: seq<bytes>, p: Packet, now: real)
    requires SenderOk(e.cfg.window, e.snd, isn, emitted, now) && AllRecorded(e.snd, tx)
    ensures var r := OnPacket(Unbounded, e, p, now); AllRecorded(r.ep.snd, tx + DataTx(r.output.packets, now))
  {
    if p.session == e.session && p.ptype == ACK {
      AckRecords(e, p, tx, isn, emitted, now);
    } else if p.session == e.session && p.ptype == NACK {
      WindowIsDataRun(e.cfg.window, e.snd, isn, emitted, now);
      NackRecords(e, p, tx, now);
    } else {
      DataRecords(e, p, tx, now);
      assert tx + [] == tx;
    }
  }

  lemma StepRecords(x: Peer, y: Peer, isn: int, clock: real, input: Input, now: real)
    requires Flow(x, y, isn, clock) && clock <= now && AllRecorded(x.ep.snd, x.tx)
    requires input.Receive? ==> input.p in y.sent
    ensures var x' := StepPeer(Unbounded, x, input, now); AllRecorded(x'.ep.snd, x'.tx)
  {
    SenderOkLater(x.ep.cfg.window, x.ep.snd, isn, x.emitted, clock, now);
    match input
    case Submit(data) => SubmitRecords(x.ep, data, x.tx, isn, x.emitted, now);
    case Tick =>
      WindowIsDataRun(x.ep.cfg.window, x.ep.snd, isn, x.emitted, now);
      TickRecords(x.ep, x.tx, now);
    case Receive(p) => ReplyRecords(x.ep, x.tx, isn, x.emitted, p, now);
  }

  lemma {:induction false} RunRecords(s: Sys, isnA: int, isnB: int, run: seq<Label>)
    requires Inv(s, isnA, isnB) && Legal(Unbounded, s, run)
    requires AllRecorded(s.a.ep.snd, s.a.tx) && AllRecorded(s.b.ep.snd, s.b.tx)
    ensures var t := Run(Unbounded, s, run); AllRecorded(t.a.ep.snd, t.a.tx) && AllRecorded(t.b.ep.snd, t.b.tx)
    decreases |run|
  {
    if run != [] {
      var l := run[0];
      StepKeepsInv(s, isnA, isnB, l);
      if l.side.A? {
        StepRecords(s.a, s.b, isnA, s.clock, l.input, l.now);
      } else {
        StepRecords(s.b, s.a, isnB, s.clock, l.input, l.now);
      }
      RunRecords(StepSys(Unbounded, s, l), isnA, isnB, run[1..]);
    }
  }

  /** The samples history allows when positions [from, to) are acknowledged at `now`: the ack time minus
      the transmission time, for each position transmitted exactly once. */
  function UnambiguousSamples(tx: seq<Tx>, from: int, to: int, now: real): seq<real>
    decreases to - from
  {
    if from >= to then []
    else
      var times := TimesOf(tx, from);
      (if |times| == 1 then [now - times[0]] else []) + UnambiguousSamples(tx, from + 1, to, now)
  }

  predicate RecordedFrom(out: seq<Outstanding>, tx: seq<Tx>, first: int, now: real)
  {
    forall i :: 0 <= i < |out| ==> Recorded(out[i], TimesOf(tx, first + i)) && out[i].sendTime <= now
  }

  lemma RestIsRecorded(out: seq<Outstanding>, tx: seq<Tx>, first: int, now: real)
    requires out != [] && RecordedFrom(out, tx, first, now)
    ensures Recorded(out[0], TimesOf(tx, first)) && RecordedFrom(out[1..], tx, first + 1, now)
  {
    assert Recorded(out[0], TimesOf(tx, first + 0));
    forall i | 0 <= i < |out[1..]|
      ensures Recorded(out[1..][i], TimesOf(tx, first + 1 + i)) && out[1..][i].sendTime <= now
    {
      assert Recorded(out[i + 1], TimesOf(tx, first + (i + 1)));
    }
  }

  /** One entry's contribution, from its record. */
  lemma SampleIsUnambiguous(o: Outstanding, times: seq<real>, now: real)
    requires Recorded(o, times) && o.sendTime <= now
    ensures (if o.retx == 0 then [now - o.sendTime] else []) == (if |times| == 1 then [now - times[0]] else [])
  {
  }

  lemma FirstOfSamples(out: seq<Outstanding>, now: real)
    requires out != []
    ensures Samples(out, now) == (if out[0].retx == 0 then [now - out[0].sendTime] else []) + Samples(out[1..], now)
  {
  }

  lemma FirstOfUnambiguous(tx: seq<Tx>, from: int, to: int, now: real, times: seq<real>)
    requires from < to && times == TimesOf(tx, from)
    ensures UnambiguousSamples(tx, from, to, now)
      == (if |times| == 1 then [now - times[0]] else []) + UnambiguousSamples(tx, from + 1, to, now)
  {
  }

  lemma {:induction false} SamplesMatchHistory(out: seq<Outstanding>, tx: seq<Tx>, first: int, to: int, now: real)
    requires RecordedFrom(out, tx, first, now) && to == first + |out|
    ensures Samples(out, now) == UnambiguousSamples(tx, first, to, now)
    decreases |out|
  {
    if out != [] {
      var rest := out[1..];
      RestIsRecorded(out, tx, first, now);
      SampleIsUnambiguous(out[0], TimesOf(tx, first), now);
      FirstOfSamples(out, now);
      FirstOfUnambiguous(tx, first, to, now, TimesOf(tx, first));
      SamplesMatchHistory(rest, tx, first + 1, to, now);
    }
  }

  lemma {:induction false} SamplesAreNotNegative(out: seq<Outstanding>, now: real)
    requires forall i :: 0 <= i < |out| ==> out[i].sendTime <= now
    ensures forall r :: r in Samples(out, now) ==> r >= 0.0
  {
    if out != [] {
      SamplesAreNotNegative(out[1..], now);
    }
  }

  lemma SamplesAreUnambiguous(out: seq<Outstanding>, tx: seq<Tx>, first: int, now: real)
    requires RecordedFrom(out, tx, first, now)
    ensures Samples(out, now) == UnambiguousSamples(tx, first, first + |out|, now)
    ensures forall r :: r in Samples(out, now) ==> r >= 0.0
  {
    SamplesMatchHistory(out, tx, first, first + |out|, now);
    assert forall i :: 0 <= i < |out| ==> Recorded(out[i], TimesOf(tx, first + i)) && out[i].sendTime <= now;
    SamplesAreNotNegative(out, now);
  }

  lemma PrefixIsRecorded(s: Sender, tx: seq<Tx>, k: nat, now: real)
    requires AllRecorded(s, tx) && k <= |s.out| && Consecutive(s.out, Una(s), now)
    ensures RecordedFrom(s.out[..k], tx, Una(s), now)
  {
    forall i | 0 <= i < k
      ensures Recorded(s.out[i], TimesOf(tx, Una(s) + i))
    {
      var times := q => TimesOf(tx, q);
      assert Recorded(s.out[i], times(Una(s) + i));
    }
  }

  lemma AckSamplesWhatIsRecorded(e: Arq, tx: seq<Tx>, isn: int, emitted: seq<bytes>, p: Packet, now: real)
    requires SenderOk(e.cfg.window, e.snd, isn, emitted, now) && AllRecorded(e.snd, tx)
    requires p.ackno <= e.snd.next
    ensures var rtts := UnambiguousSamples(tx, Una(e.snd), p.ackno, now);
      (forall r :: r in rtts ==> r >= 0.0) && OnAck(Unbounded, e, p, now).ep.snd.rto == SampleAll(e.snd.rto, rtts)
  {
    var s := e.snd;
    var k := Covered(Una(s), |s.out|, p.ackno);
    AckEstimates(e, isn, emitted, p, now);
    KeysAreBelow(e.cfg.window, s, isn, emitted, now);
    PrefixIsRecorded(s, tx, k, now);
    SamplesAreUnambiguous(s.out[..k], tx, Una(s), now);
  }

  /** Karn's rule, read off the wire: an acknowledgement feeds the estimator exactly the round trips of
      the positions it newly covers that were transmitted once, none of them negative. */
  lemma AckSamplesOnlyUnambiguous(x: Peer, y: Peer, isn: int, clock: real, p: Packet, now: real)
    requires Flow(x, y, isn, clock) && clock <= now && AllRecorded(x.ep.snd, x.tx)
    requires p in y.sent && p.ptype == ACK && p.session == x.ep.session
    ensures var rtts := UnambiguousSamples(x.tx, Una(x.ep.snd), p.ackno, now);
      && (forall r :: r in rtts ==> r >= 0.0)
      && StepPeer(Unbounded, x, Receive(p), now).ep.snd.rto == SampleAll(x.ep.snd.rto, rtts)
  {
    assert AckOk(p, isn, y.ep.rcv.base);
    AckSamplesWhatIsRecorded(x.ep, x.tx, isn, x.emitted, p, now);
  }

  // ---- holes are asked for once ----------------------------------------------------------------

  /** Positions asked for so far: strictly increasing, none beyond `base`, and `base` itself among them
      exactly while it is on record. */
  predicate NacksOk(nacks: seq<int>, r: Receiver, isn: int)
  {
    && Increasing(nacks)
    && (forall i :: 0 <= i < |nacks| ==> isn <= nacks[i] <= r.base)
    && (r.nacked == {} ==> forall i :: 0 <= i < |nacks| ==> nacks[i] < r.base)
    && (r.nacked != {} ==> r.base in r.nacked)
  }

  predicate AskedOnce(x: Peer, isn: int)
  {
    NacksOk(x.nacks, x.ep.rcv, isn)
  }

  /** Records after a chunk was accepted and the hole, if any, asked for. */
  lemma AskingKeeps(nacks: seq<int>, r: Receiver, a: Receiver, isn: int)
    requires NacksOk(nacks, r, isn) && isn <= r.base <= a.base
    requires a.nacked == (if a.base == r.base then r.nacked else {})
    ensures if AsksForHole(a) then NacksOk(nacks + [a.base], a.(nacked := a.nacked + {a.base}), isn) else NacksOk(nacks, a, isn)
  {
  }

  lemma AcceptAsksOnce(e: Arq, isn: int, emitted: seq<bytes>, delivered: seq<bytes>, nacks: seq<int>, p: Packet)
    requires ReceiverOk(e.cfg.window, e.rcv, isn, emitted, delivered)
    requires p.ptype == DATA && DataOk(p, isn, emitted) && NacksOk(nacks, e.rcv, isn)
    ensures var r := OnData(Unbounded, e, p); NacksOk(nacks + NackTargets(r.output.packets), r.ep.rcv, isn)
  {
    var a := Accept(Unbounded, e.cfg.window, e.rcv, p).rcv;
    AcceptKeeps(e.cfg.window, e.rcv, isn, emitted, delivered, p);
    NackOfData(e, p);
    AskingKeeps(nacks, e.rcv, a, isn);
    assert nacks + [] == nacks;
  }

  lemma DataAsksOnce(x: Peer, y: Peer, isnY: int, clock: real, p: Packet, now: real)
    requires Flow(y, x, isnY, clock) && AskedOnce(x, isnY)
    requires p in y.sent && p.ptype == DATA
    ensures AskedOnce(StepPeer(Unbounded, x, Receive(p), now), isnY)
  {
    assert x.nacks + NackTargets([]) == x.nacks;
    if p.session == x.ep.session {
      assert DataOk(p, isnY, y.emitted);
      AcceptAsksOnce(x.ep, isnY, y.emitted, x.delivered, x.nacks, p);
    }
  }

  lemma StepAsksOnce(x: Peer, y: Peer, isnX: int, isnY: int, clock: real, input: Input, now: real)
    requires Flow(y, x, isnY, clock) && Flow(x, y, isnX, clock) && clock <= now && AskedOnce(x, isnY)
    requires input.Receive? ==> input.p in y.sent
    ensures AskedOnce(StepPeer(Unbounded, x, input, now), isnY)
  {
    if input.Receive? && input.p.ptype == DATA {
      DataAsksOnce(x, y, isnY, clock, input.p, now);
    } else {
      HalvesAreIndependent(Unbounded, x.ep, input, now);
      SendsOnlyData(x, y, isnX, clock, input, now);
      NoNackTargets(React(Unbounded, x.ep, input, now).output.packets);
      assert x.nacks + [] == x.nacks;
    }
  }

  lemma NackOfData(e: Arq, p: Packet)
    ensures var a := Accept(Unbounded, e.cfg.window, e.rcv, p);
      NackTargets(OnData(Unbounded, e, p).output.packets) == if AsksForHole(a.rcv) then [a.rcv.base] else []
  {
    var packets := OnData(Unbounded, e, p).output.packets;
    assert |packets| == 2 ==> packets[1..][1..] == [];
    assert |packets| == 2 ==> NackTargets(packets[1..]) == [packets[1].ackno];
  }

  lemma {:induction false} NoNackTargets(packets: seq<Packet>)
    requires forall p :: p in packets ==> p.ptype == DATA
    ensures NackTargets(packets) == []
  {
    if packets != [] {
      NoNackTargets(packets[1..]);
    }
  }

  lemma {:induction false} IncreasingBound(s: seq<int>, lo: int, hi: int)
    requires Increasing(s) && lo <= hi + 1
    requires forall i :: 0 <= i < |s| ==> lo <= s[i] <= hi
    ensures |s| <= hi - lo + 1
    decreases |s|
  {
    if s != [] {
      var last := s[|s| - 1];
      IncreasingBound(s[..|s| - 1], lo, last - 1);
    }
  }

  lemma {:induction false} RunAsksOnce(s: Sys, isnA: int, isnB: int, run: seq<Label>)
    requires Inv(s, isnA, isnB) && Legal(Unbounded, s, run) && AskedOnce(s.a, isnB) && AskedOnce(s.b, isnA)
    ensures var t := Run(Unbounded, s, run);
      && Increasing(t.a.nacks) && |t.a.nacks| <= |t.a.delivered| + 1 && t.a.ep.rcv.nacked <= {t.a.ep.rcv.base}
      && Increasing(t.b.nacks) && |t.b.nacks| <= |t.b.delivered| + 1 && t.b.ep.rcv.nacked <= {t.b.ep.rcv.base}
    decreases |run|
  {
    if run == [] {
      IncreasingBound(s.a.nacks, isnB, s.a.ep.rcv.base);
      IncreasingBound(s.b.nacks, isnA, s.b.ep.rcv.base);
    } else {
      var l := run[0];
      StepKeepsInv(s, isnA, isnB, l);
      if l.side.A? {
        StepAsksOnce(s.a, s.b, isnA, isnB, s.clock, l.input, l.now);
      } else {
        StepAsksOnce(s.b, s.a, isnB, isnA, s.clock, l.input, l.now);
      }
      RunAsksOnce(StepSys(Unbounded, s, l), isnA, isnB, run[1..]);
    }
  }

  /** From a fresh start: every run keeps Karn's record, and asks for each position at most once, so at
      most once more than the number of chunks delivered; no request but the current one stays on record. */
  lemma HistoryOfEveryRun(session: int, cfgA: Config, cfgB: Config, isnA: int, isnB: int,
                          rtoA: Estimate, rtoB: Estimate, run: seq<Label>)
    requires Legal(Unbounded, Start(session, cfgA, cfgB, isnA, isnB, rtoA, rtoB), run)
    ensures var t := Run(Unbounded, Start(session, cfgA, cfgB, isnA, isnB, rtoA, rtoB), run);
      && AllRecorded(t.a.ep.snd, t.a.tx) && AllRecorded(t.b.ep.snd, t.b.tx)
      && Increasing(t.a.nacks) && |t.a.nacks| <= |t.a.delivered| + 1 && t.a.ep.rcv.nacked <= {t.a.ep.rcv.base}
      && Increasing(t.b.nacks) && |t.b.nacks| <= |t.b.delivered| + 1 && t.b.ep.rcv.nacked <= {t.b.ep.rcv.base}
  {
    var s := Start(session, cfgA, cfgB, isnA, isnB, rtoA, rtoB);
    StartInv(session, cfgA, cfgB, isnA, isnB, rtoA, rtoB);
    RunRecords(s, isnA, isnB, run);
    RunAsksOnce(s, isnA, isnB, run);
  }

  // ---- the estimator inside a run ---------------------------------------------------------------

  /** RTO inside its configured bounds; no estimate is negative. */
  predicate Sane(e: Estimate)
  {
    && ConfigOk(e) && e.minRto <= e.rto <= e.maxRto
    && (e.srtt.None? <==> e.rttvar.None?)
    && (e.srtt.Some? ==> e.srtt.value >= 0.0 && e.rttvar.value >= 0.0)
  }

  lemma {:induction false} SamplesKeepSane(e: Estimate, rtts: seq<real>)
    requires Sane(e) && forall r :: r in rtts ==> r >= 0.0
    ensures Sane(SampleAll(e, rtts))
    decreases |rtts|
  {
    if rtts != [] {
      assert rtts[0] in rtts && forall r :: r in rtts[1..] ==> r in rtts;
      SamplesKeepSane(Sample(e, rtts[0]), rtts[1..]);
    }
  }

  lemma StepKeepsSane(x: Peer, y: Peer, isn: int, clock: real, input: Input, now: real)
    requires Flow(x, y, isn, clock) && clock <= now && AllRecorded(x.ep.snd, x.tx) && Sane(x.ep.snd.rto)
    requires input.Receive? ==> input.p in y.sent
    ensures Sane(React(Unbounded, x.ep, input, now).ep.snd.rto)
  {
    SenderOkLater(x.ep.cfg.window, x.ep.snd, isn, x.emitted, clock, now);
    match input
    case Submit(data) => SubmitKeepsEstimate(x.ep, isn, x.emitted, data, now);
    case Tick =>
    case Receive(p) =>
      if p.ptype == ACK && p.session == x.ep.session {
        assert AckOk(p, isn, y.ep.rcv.base);
        AckSamplesWhatIsRecorded(x.ep, x.tx, isn, x.emitted, p, now);
        SamplesKeepSane(x.ep.snd.rto, UnambiguousSamples(x.tx, Una(x.ep.snd), p.ackno, now));
      }
  }

  lemma SubmitKeepsEstimate(e: Arq, isn: int, emitted: seq<bytes>, data: bytes, now: real)
    requires SenderOk(e.cfg.window, e.snd, isn, emitted, now)
    ensures Send(Unbounded, e, data, now).ep.snd.rto == e.snd.rto
  {
    KeysAreBelow(e.cfg.window, e.snd, isn, emitted, now);
    SendFillsWindow(e, e.snd, Chunks(data, e.cfg.maxPayload), now);
  }

  /** In every reachable state of a run whose bounds are in order, both RTOs lie inside them. */
  lemma {:induction false} RunKeepsSane(s: Sys, isnA: int, isnB: int, run: seq<Label>)
    requires Inv(s, isnA, isnB) && Legal(Unbounded, s, run)
    requires AllRecorded(s.a.ep.snd, s.a.tx) && AllRecorded(s.b.ep.snd, s.b.tx)
    requires Sane(s.a.ep.snd.rto) && Sane(s.b.ep.snd.rto)
    ensures var t := Run(Unbounded, s, run); Sane(t.a.ep.snd.rto) && Sane(t.b.ep.snd.rto)
    decreases |run|
  {
    if run != [] {
      var l := run[0];
      StepKeepsInv(s, isnA, isnB, l);
      if l.side.A? {
        StepRecords(s.a, s.b, isnA, s.clock, l.input, l.now);
        StepKeepsSane(s.a, s.b, isnA, s.clock, l.input, l.now);
      } else {
        StepRecords(s.b, s.a, isnB, s.clock, l.input, l.now);
        StepKeepsSane(s.b, s.a, isnB, s.clock, l.input, l.now);
      }
      RunKeepsSane(StepSys(Unbounded, s, l), isnA, isnB, run[1..]);
    }
  }

  /** Each round trip of a list, as the estimator meets it. */
  function Measures(rtts: seq<real>): seq<Happening>
  {
    if rtts == [] then [] else [Measured(rtts[0])] + Measures(rtts[1..])
  }

  /** A tick that resends something and gives nothing up. */
  predicate BacksOff(e: Arq, now: real)
  {
    !e.snd.failed && !NoneExpired(e.snd, now) && !TickScan(e.snd.out, now, e.snd.rto.rto, e.cfg.maxRetx).exhausted
  }

  /** What one step means to the estimator of the side that takes it: the round trips the wire shows to
      be unambiguous, or a timeout. */
  function StepHistory(x: Peer, input: Input, now: real): seq<Happening>
  {
    match input
    case Submit(_) => []
    case Tick => if BacksOff(x.ep, now) then [TimedOut] else []
    case Receive(p) =>
      if p.ptype == ACK && p.session == x.ep.session then Measures(UnambiguousSamples(x.tx, Una(x.ep.snd), p.ackno, now)) else []
  }

  function StepLog(s: Sys, l: Label, side: Side): seq<Happening>
  {
    if l.side == side then StepHistory(if side.A? then s.a else s.b, l.input, l.now) else []
  }

  /** The log of one side over a run. */
  function SampleLog(s: Sys, run: seq<Label>, side: Side): seq<Happening>
    decreases |run|
  {
    if run == [] then [] else StepLog(s, run[0], side) + SampleLog(StepSys(Unbounded, s, run[0]), run[1..], side)
  }

  lemma {:induction false} AfterAppend(e: Estimate, h1: seq<Happening>, h2: seq<Happening>)
    ensures After(e, h1 + h2) == After(After(e, h1), h2)
    decreases |h1|
  {
    if h1 == [] {
      assert h1 + h2 == h2;
    } else {
      var next := match h1[0] case Measured(r) => Sample(e, r) case TimedOut => Backoff(e);
      assert (h1 + h2)[1..] == h1[1..] + h2;
      AfterAppend(next, h1[1..], h2);
    }
  }

  lemma {:induction false} AfterMeasures(e: Estimate, rtts: seq<real>)
    ensures After(e, Measures(rtts)) == SampleAll(e, rtts)
    decreases |rtts|
  {
    if rtts != [] {
      assert Measures(rtts)[1..] == Measures(rtts[1..]);
      AfterMeasures(Sample(e, rtts[0]), rtts[1..]);
    }
  }

  lemma AfterOneTimeout(e: Estimate)
    ensures After(e, [TimedOut]) == Backoff(e)
  {
    assert [TimedOut][1..] == [];
  }

  lemma StepFollowsLog(x: Peer, y: Peer, isn: int, clock: real, input: Input, now: real)
    requires Flow(x, y, isn, clock) && clock <= now && AllRecorded(x.ep.snd, x.tx)
    requires input.Receive? ==> input.p in y.sent
    ensures StepPeer(Unbounded, x, input, now).ep.snd.rto == After(x.ep.snd.rto, StepHistory(x, input, now))
  {
    SenderOkLater(x.ep.cfg.window, x.ep.snd, isn, x.emitted, clock, now);
    match input
    case Submit(data) => SubmitKeepsEstimate(x.ep, isn, x.emitted, data, now);
    case Tick => AfterOneTimeout(x.ep.snd.rto);
    case Receive(p) =>
      if p.ptype == ACK && p.session == x.ep.session {
        assert AckOk(p, isn, y.ep.rcv.base);
        AckSamplesWhatIsRecorded(x.ep, x.tx, isn, x.emitted, p, now);
        AfterMeasures(x.ep.snd.rto, UnambiguousSamples(x.tx, Una(x.ep.snd), p.ackno, now));
      }
  }

  lemma SystemStepFollowsLog(s: Sys, isnA: int, isnB: int, l: Label)
    requires Inv(s, isnA, isnB) && Enabled(s, l)
    requires AllRecorded(s.a.ep.snd, s.a.tx) && AllRecorded(s.b.ep.snd, s.b.tx)
    ensures var t := StepSys(Unbounded, s, l);
      && AllRecorded(t.a.ep.snd, t.a.tx) && AllRecorded(t.b.ep.snd, t.b.tx)
      && t.a.ep.snd.rto == After(s.a.ep.snd.rto, StepLog(s, l, A))
      && t.b.ep.snd.rto == After(s.b.ep.snd.rto, StepLog(s, l, B))
  {
    if l.side.A? {
      StepRecords(s.a, s.b, isnA, s.clock, l.input, l.now);
      StepFollowsLog(s.a, s.b, isnA, s.clock, l.input, l.now);
    } else {
      StepRecords(s.b, s.a, isnB, s.clock, l.input, l.now);
      StepFollowsLog(s.b, s.a, isnB, s.clock, l.input, l.now);
    }
  }

  lemma FirstOfLog(s: Sys, run: seq<Label>, side: Side, e: Estimate)
    requires run != []
    ensures After(e, SampleLog(s, run, side))
      == After(After(e, StepLog(s, run[0], side)), SampleLog(StepSys(Unbounded, s, run[0]), run[1..], side))
  {
    AfterAppend(e, StepLog(s, run[0], side), SampleLog(StepSys(Unbounded, s, run[0]), run[1..], side));
  }

  /** The estimator of each side is what its log makes of its first state: nothing else ever moves it. */
  lemma {:induction false} RunFollowsLog(s: Sys, isnA: int, isnB: int, run: seq<Label>)
    requires Inv(s, isnA, isnB) && Legal(Unbounded, s, run)
    requires AllRecorded(s.a.ep.snd, s.a.tx) && AllRecorded(s.b.ep.snd, s.b.tx)
    ensures Run(Unbounded, s, run).a.ep.snd.rto == After(s.a.ep.snd.rto, SampleLog(s, run, A))
    ensures Run(Unbounded, s, run).b.ep.snd.rto == After(s.b.ep.snd.rto, SampleLog(s, run, B))
    decreases |run|
  {
    if run != [] {
      RunFirst(Unbounded, s, run);
      StepKeepsInv(s, isnA, isnB, run[0]);
      SystemStepFollowsLog(s, isnA, isnB, run[0]);
      FirstOfLog(s, run, A, s.a.ep.snd.rto);
      FirstOfLog(s, run, B, s.b.ep.snd.rto);
      RunFollowsLog(StepSys(Unbounded, s, run[0]), isnA, isnB, run[1..]);
    }
  }

  predicate SamplesWithin(log: seq<Happening>, lo: real, hi: real)
  {
    forall i :: 0 <= i < |log| && log[i].Measured? ==> lo <= log[i].rtt <= hi
  }

  /** Every round trip a run measures on a side, smoothed: from a fresh start, whenever the unambiguous
      round trips of the run lie in [lo, hi], so does the smoothed round-trip time, and the timeout lies in
      its configured bounds. */
  lemma EstimatesFollowTheWire(session: int, cfgA: Config, cfgB: Config, isnA: int, isnB: int,
                               rtoA: Estimate, rtoB: Estimate, run: seq<Label>, lo: real, hi: real)
    requires Legal(Unbounded, Start(session, cfgA, cfgB, isnA, isnB, rtoA, rtoB), run)
    requires 0.0 <= lo <= hi && Bounded(rtoA, lo, hi) && Bounded(rtoB, lo, hi)
    ensures var s := Start(session, cfgA, cfgB, isnA, isnB, rtoA, rtoB); var t := Run(Unbounded, s, run);
      && (SamplesWithin(SampleLog(s, run, A), lo, hi) ==> Bounded(t.a.ep.snd.rto, lo, hi))
      && (SamplesWithin(SampleLog(s, run, B), lo, hi) ==> Bounded(t.b.ep.snd.rto, lo, hi))
  {
    var s := Start(session, cfgA, cfgB, isnA, isnB, rtoA, rtoB);
    StartInv(session, cfgA, cfgB, isnA, isnB, rtoA, rtoB);
    RunFollowsLog(s, isnA, isnB, run);
    if SamplesWithin(SampleLog(s, run, A), lo, hi) {
      HistoryStaysBounded(rtoA, SampleLog(s, run, A), lo, hi);
    }
    if SamplesWithin(SampleLog(s, run, B), lo, hi) {
      HistoryStaysBounded(rtoB, SampleLog(s, run, B), lo, hi);
    }
  }

  // ---- the retransmission budget ---------------------------------------------------------------

  datatype TickLog = TickLog(ep: Arq, resent: nat, events: seq<ArqEvent>)

  /** Timers alone, with nothing arriving. */
  function Ticks(e: Arq, times: seq<real>): TickLog
    decreases |times|
  {
    if times == [] then TickLog(e, 0, [])
    else
      var r := OnTick(e, times[0]);
      var rest := Ticks(r.ep, times[1..]);
      TickLog(rest.ep, |r.output.packets| + rest.resent, r.output.events + rest.events)
  }

  /** Timeout retransmissions an endpoint still has. */
  function Budget(out: seq<Outstanding>, maxRetx: nat): nat
  {
    if out == [] then 0
    else (if out[0].retx < maxRetx then maxRetx - out[0].retx else 0) + Budget(out[1..], maxRetx)
  }

  lemma {:induction false} TickSpends(out: seq<Outstanding>, now: real, rto: real, maxRetx: nat)
    ensures var t := TickScan(out, now, rto, maxRetx); |t.packets| + Budget(t.out, maxRetx) == Budget(out, maxRetx)
  {
    if out != [] {
      TickSpends(out[1..], now, rto, maxRetx);
    }
  }

  lemma {:induction false} BudgetBound(out: seq<Outstanding>, maxRetx: nat)
    ensures Budget(out, maxRetx) <= |out| * maxRetx
  {
    if out != [] {
      BudgetBound(out[1..], maxRetx);
      assert |out| * maxRetx == maxRetx + |out[1..]| * maxRetx;
    }
  }

  /** However long a peer stays silent, timeouts resend at most |outstanding| * max_retx packets, and the
      endpoint reports failure at most once, exactly when it passes from working to failed. */
  lemma {:induction false} SilenceIsBounded(e: Arq, times: seq<real>)
    ensures var t := Ticks(e, times);
      && t.resent <= |e.snd.out| * e.cfg.maxRetx
      && t.resent + Budget(t.ep.snd.out, e.cfg.maxRetx) == Budget(e.snd.out, e.cfg.maxRetx)
      && t.events == (if t.ep.snd.failed && !e.snd.failed then [SEND_FAILED] else [])
      && (e.snd.failed ==> t.ep == e)
    decreases |times|
  {
    BudgetBound(e.snd.out, e.cfg.maxRetx);
    if times != [] {
      TickSpends(e.snd.out, times[0], e.snd.rto.rto, e.cfg.maxRetx);
      SilenceIsBounded(OnTick(e, times[0]).ep, times[1..]);
    }
  }
}
