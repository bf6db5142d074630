/** Two endpoints joined by a network that may lose, duplicate and reorder: the set of packets ever
    sent only grows, and any member may be delivered at any time, any number of times. */
module ArqSafety {
  import opened Prelude
  import opened Packets
  import opened Rto
  import opened ArqModel

  /** One transmission of the packet with sequence number `seqno`. */
  datatype Tx = Tx(seqno: int, time: real)

  /** An endpoint with the history of what it was given, put on the wire and handed up. */
  datatype Peer = Peer(
    ep: Arq,
    sent: set<Packet>,
    submitted: seq<bytes>,
    emitted: seq<bytes>,
    delivered: seq<bytes>,
    tx: seq<Tx>,
    nacks: seq<int>,
    raised: bool)

  datatype Input = Submit(data: bytes) | Receive(p: Packet) | Tick

  function Payloads(packets: seq<Packet>): (r: seq<bytes>)
    ensures |r| == |packets|
    ensures forall i :: 0 <= i < |r| ==> r[i] == packets[i].payload
  {
    seq(|packets|, i requires 0 <= i < |packets| => packets[i].payload)
  }

  /** The transmissions of data among `packets`, all at `now`. */
  function DataTx(packets: seq<Packet>, now: real): seq<Tx>
  {
    if packets == [] then []
    else (if packets[0].ptype == DATA then [Tx(packets[0].seqno, now)] else []) + DataTx(packets[1..], now)
  }

  function NackTargets(packets: seq<Packet>): seq<int>
  {
    if packets == [] then []
    else (if packets[0].ptype == NACK then [packets[0].ackno] else []) + NackTargets(packets[1..])
  }

  function React(m: Arith, e: Arq, input: Input, now: real): Result
  {
    match input
    case Submit(data) => Send(m, e, data, now)
    case Receive(p) => OnPacket(m, e, p, now)
    case Tick => OnTick(e, now)
  }

  /** Packets leave a peer for the first time when data is submitted or an acknowledgement opens the window. */
  predicate SendsNewData(input: Input)
  {
    input.Submit? || (input.Receive? && input.p.ptype == ACK)
  }

  function StepPeer(m: Arith, x: Peer, input: Input, now: real): Peer
  {
    var r := React(m, x.ep, input, now);
    var packets := r.output.packets;
    Peer(
      r.ep,
      x.sent + (set p | p in packets),
      x.submitted + (if input.Submit? then Chunks(input.data, x.ep.cfg.maxPayload) else []),
      x.emitted + (if SendsNewData(input) then Payloads(packets) else []),
      x.delivered + r.output.delivered,
      x.tx + DataTx(packets, now),
      x.nacks + NackTargets(packets),
      x.raised || r.output.raised)
  }

  // ---- the sending half ----------------------------------------------------------------------

  /** Entry for position `k` of the emitted stream. */
  predicate EntryOk(o: Outstanding, isn: int, emitted: seq<bytes>, k: int, clock: real)
  {
    && 0 <= k < |emitted|
    && o.packet.ptype == DATA
    && o.packet.seqno == isn + k
    && o.packet.payload == emitted[k]
    && o.sendTime <= clock
  }

  /** The unacknowledged packets are exactly the last |out| emitted ones, oldest first. */
  predicate SenderOk(w: pos, s: Sender, isn: int, emitted: seq<bytes>, clock: real)
  {
    && s.peerWindow >= 1
    && s.next == isn + |emitted|
    && |s.out| <= |emitted| && |s.out| <= w
    && (forall i :: 0 <= i < |s.out| ==> EntryOk(s.out[i], isn, emitted, |emitted| - |s.out| + i, clock))
    && s.ackedBytes == Size(emitted[..|emitted| - |s.out|])
  }

  /** Nothing waits in the queue unless something is in flight that will free the window. */
  predicate NoDeadlock(s: Sender)
  {
    s.pending != [] ==> s.out != []
  }

  /** First unacknowledged position. */
  function Una(s: Sender): int
  {
    s.next - |s.out|
  }

  predicate DataOk(p: Packet, isn: int, emitted: seq<bytes>)
  {
    p.ptype == DATA ==> isn <= p.seqno < isn + |emitted| && p.payload == emitted[p.seqno - isn]
  }

  /** Every packet listed is data of the emitted stream. */
  predicate AllData(packets: seq<Packet>, isn: int, emitted: seq<bytes>)
  {
    forall i :: 0 <= i < |packets| ==> packets[i].ptype == DATA && DataOk(packets[i], isn, emitted)
  }

  lemma {:induction false} PutNewKey(out: seq<Outstanding>, o: Outstanding)
    requires forall i :: 0 <= i < |out| ==> out[i].packet.seqno != o.packet.seqno
    ensures Put(out, o) == out + [o]
  {
    if out != [] {
      PutNewKey(out[1..], o);
    }
  }

  /** The dictionary entries made when `chunks` are emitted one after another. */
  function NewEntries(e: Arq, next: int, chunks: seq<bytes>, now: real): (r: seq<Outstanding>)
    ensures |r| == |chunks|
    ensures forall i :: 0 <= i < |r| ==> r[i] == Outstanding(DataPacket(e, next + i, chunks[i]), now, 0)
  {
    seq(|chunks|, i requires 0 <= i < |chunks| => Outstanding(DataPacket(e, next + i, chunks[i]), now, 0))
  }

  function PacketsOf(out: seq<Outstanding>): (r: seq<Packet>)
    ensures |r| == |out|
    ensures forall i :: 0 <= i < |r| ==> r[i] == out[i].packet
  {
    seq(|out|, i requires 0 <= i < |out| => out[i].packet)
  }

  /** How many more packets the window admits. */
  function Room(w: pos, s: Sender): nat
  {
    var limit := if w < s.peerWindow then w else s.peerWindow;
    if limit > |s.out| then limit - |s.out| else 0
  }

  function Least(a: nat, b: nat): nat
  {
    if a < b then a else b
  }

  predicate KeysBelow(out: seq<Outstanding>, next: int)
  {
    forall i :: 0 <= i < |out| ==> out[i].packet.seqno < next
  }

  /** The sender after emitting `chunks`, with `pending` left in the queue. */
  function WithEmitted(e: Arq, s: Sender, chunks: seq<bytes>, pending: seq<bytes>, now: real): Emitted
  {
    var entries := NewEntries(e, s.next, chunks, now);
    Emitted(s.(out := s.out + entries, next := s.next + |chunks|, pending := pending), PacketsOf(entries))
  }

  lemma EmitOne(e: Arq, s: Sender, chunk: bytes, more: seq<bytes>, pending: seq<bytes>, now: real)
    requires KeysBelow(s.out, s.next)
    ensures var s1 := Emit(Unbounded, e, s, chunk, now);
      && KeysBelow(s1.out, s1.next) && |s1.out| == |s.out| + 1 && s1.peerWindow == s.peerWindow && s1.pending == s.pending
      && var r := WithEmitted(e, s1, more, pending, now);
        r.(packets := [DataPacket(e, s.next, chunk)] + r.packets) == WithEmitted(e, s, [chunk] + more, pending, now)
  {
    var o := Outstanding(DataPacket(e, s.next, chunk), now, 0);
    PutNewKey(s.out, o);
    var s1 := Emit(Unbounded, e, s, chunk, now);
    assert s.out + NewEntries(e, s.next, [chunk] + more, now) == s1.out + NewEntries(e, s1.next, more, now);
  }

  /** Flushing moves chunks from the queue to the wire, first come first served, until the queue is
      empty or the window is full. */
  lemma {:induction false} FlushFillsWindow(e: Arq, s: Sender, now: real)
    requires KeysBelow(s.out, s.next)
    ensures var n := Least(Room(e.cfg.window, s), |s.pending|);
      Flush(Unbounded, e, s, now) == WithEmitted(e, s, s.pending[..n], s.pending[n..], now)
    decreases |s.pending|
  {
    var n := Least(Room(e.cfg.window, s), |s.pending|);
    if n > 0 {
      var s0 := s.(pending := s.pending[1..]);
      var more := s.pending[1..][..n - 1];
      assert s.pending[..n] == [s.pending[0]] + more && s.pending[n..] == s.pending[1..][n - 1..];
      var s1 := Emit(Unbounded, e, s0, s.pending[0], now);
      EmitOne(e, s0, s.pending[0], more, s.pending[n..], now);
      assert Least(Room(e.cfg.window, s1), |s1.pending|) == n - 1;
      FlushFillsWindow(e, s1, now);
    } else {
      assert WithEmitted(e, s, [], s.pending, now) == Emitted(s, []);
    }
  }

  /** Submitted chunks go straight to the wire while the window has room; the rest join the queue.
      Chunks already queued are not looked at. */
  lemma {:induction false} SendFillsWindow(e: Arq, s: Sender, chunks: seq<bytes>, now: real)
    requires KeysBelow(s.out, s.next)
    ensures var n := Least(Room(e.cfg.window, s), |chunks|);
      SendChunks(Unbounded, e, s, chunks, now) == WithEmitted(e, s, chunks[..n], s.pending + chunks[n..], now)
    decreases |chunks|
  {
    var n := Least(Room(e.cfg.window, s), |chunks|);
    if chunks == [] {
      assert WithEmitted(e, s, [], s.pending + [], now) == Emitted(s, []);
    } else if n > 0 {
      var more := chunks[1..][..n - 1];
      assert chunks[..n] == [chunks[0]] + more && chunks[n..] == chunks[1..][n - 1..];
      EmitOne(e, s, chunks[0], more, s.pending + chunks[n..], now);
      SendFillsWindow(e, Emit(Unbounded, e, s, chunks[0], now), chunks[1..], now);
    } else {
      SendFillsWindow(e, s.(pending := s.pending + [chunks[0]]), chunks[1..], now);
      assert s.pending + [chunks[0]] + chunks[1..] == s.pending + chunks;
      assert WithEmitted(e, s, [], s.pending + chunks, now) == Emitted(s.(pending := s.pending + chunks), []);
    }
  }

  /** Emitting up to the window's room extends the emitted stream and keeps the sender in order. */
  lemma EmittingKeeps(e: Arq, s: Sender, isn: int, emitted: seq<bytes>, chunks: seq<bytes>, pending: seq<bytes>, now: real)
    requires SenderOk(e.cfg.window, s, isn, emitted, now)
    requires |chunks| <= Room(e.cfg.window, s)
    ensures var r := WithEmitted(e, s, chunks, pending, now);
      && SenderOk(e.cfg.window, r.snd, isn, emitted + chunks, now)
      && AllData(r.packets, isn, emitted + chunks)
      && Payloads(r.packets) == chunks
  {
    var e' := emitted + chunks;
    var r := WithEmitted(e, s, chunks, pending, now);
    assert e'[..|e'| - |r.snd.out|] == emitted[..|emitted| - |s.out|];
    forall i | 0 <= i < |r.snd.out|
      ensures EntryOk(r.snd.out[i], isn, e', |e'| - |r.snd.out| + i, now)
    {
      if i < |s.out| {
        assert EntryOk(s.out[i], isn, emitted, |emitted| - |s.out| + i, now);
      }
    }
  }

  lemma KeysAreBelow(w: pos, s: Sender, isn: int, emitted: seq<bytes>, now: real)
    requires SenderOk(w, s, isn, emitted, now)
    ensures KeysBelow(s.out, s.next) && Consecutive(s.out, Una(s), now)
  {
    forall i | 0 <= i < |s.out|
      ensures s.out[i].packet.seqno == Una(s) + i && s.out[i].sendTime <= now
    {
      assert EntryOk(s.out[i], isn, emitted, |emitted| - |s.out| + i, now);
    }
  }

  /** What one submission does to the emitted stream and the queue. */
  lemma SendKeeps(e: Arq, isn: int, emitted: seq<bytes>, data: bytes, now: real)
    requires SenderOk(e.cfg.window, e.snd, isn, emitted, now) && NoDeadlock(e.snd)
    ensures var r := Send(Unbounded, e, data, now); var chunks := Chunks(data, e.cfg.maxPayload);
      var n := Least(Room(e.cfg.window, e.snd), |chunks|);
      && r.ep == e.(snd := r.ep.snd) && r.output == NOTHING.(packets := r.output.packets)
      && SenderOk(e.cfg.window, r.ep.snd, isn, emitted + chunks[..n], now) && NoDeadlock(r.ep.snd)
      && AllData(r.output.packets, isn, emitted + chunks[..n])
      && Payloads(r.output.packets) == chunks[..n] && r.ep.snd.pending == e.snd.pending + chunks[n..]
      && (n < |chunks| ==> !CanSend(e.cfg.window, r.ep.snd))
      && r.ep.snd.peerWindow == e.snd.peerWindow && |r.ep.snd.out| == |e.snd.out| + n
  {
    var chunks := Chunks(data, e.cfg.maxPayload);
    var n := Least(Room(e.cfg.window, e.snd), |chunks|);
    KeysAreBelow(e.cfg.window, e.snd, isn, emitted, now);
    SendFillsWindow(e, e.snd, chunks, now);
    EmittingKeeps(e, e.snd, isn, emitted, chunks[..n], e.snd.pending + chunks[n..], now);
  }

  /** How many of `n` consecutive positions from `first` lie before `ack`. */
  function Covered(first: int, n: nat, ack: int): nat
  {
    if ack <= first then 0 else if ack - first >= n then n else ack - first
  }

  function OutBytes(out: seq<Outstanding>): nat
  {
    if out == [] then 0 else |out[0].packet.payload| + OutBytes(out[1..])
  }

  /** Round-trip samples taken from acknowledged entries: those never retransmitted. */
  function Samples(out: seq<Outstanding>, now: real): seq<real>
  {
    if out == [] then []
    else (if out[0].retx == 0 then [now - out[0].sendTime] else []) + Samples(out[1..], now)
  }

  predicate Consecutive(out: seq<Outstanding>, first: int, now: real)
  {
    forall i :: 0 <= i < |out| ==> out[i].packet.seqno == first + i && out[i].sendTime <= now
  }

  /** A cumulative acknowledgement drops a prefix of the window, and with a clock that never runs
      backwards it never raises. */
  lemma {:induction false} AckDropsPrefix(out: seq<Outstanding>, first: int, ack: int, now: real, b: nat, rto: Estimate)
    requires Consecutive(out, first, now)
    ensures var n := Covered(first, |out|, ack);
      AckScan(Unbounded, out, ack, now, b, rto)
        == Acked(out[n..], b + OutBytes(out[..n]), SampleAll(rto, Samples(out[..n], now)), false)
    decreases |out|
  {
    if out == [] {
    } else if ack <= first {
      AckDropsPrefix(out[1..], first + 1, ack, now, b, rto);
      assert [out[0]] + out[1..] == out;
    } else {
      var n := Covered(first, |out|, ack);
      assert out[..n][1..] == out[1..][..n - 1];
      SamplesCons(out[..n], now, rto);
      AckDropsPrefix(out[1..], first + 1, ack, now, b + |out[0].packet.payload|, Sampled(out[0], now, rto));
    }
  }

  lemma SamplesCons(out: seq<Outstanding>, now: real, rto: Estimate)
    requires out != []
    ensures SampleAll(rto, Samples(out, now)) == SampleAll(Sampled(out[0], now, rto), Samples(out[1..], now))
  {
    var later := Samples(out[1..], now);
    assert ([now - out[0].sendTime] + later)[1..] == later;
    assert [] + later == later;
  }

  lemma {:induction false} OutBytesAreEmittedBytes(out: seq<Outstanding>, emitted: seq<bytes>)
    requires |out| == |emitted|
    requires forall i :: 0 <= i < |out| ==> out[i].packet.payload == emitted[i]
    ensures OutBytes(out) == Size(emitted)
  {
    if out != [] {
      OutBytesAreEmittedBytes(out[1..], emitted[1..]);
    }
  }

  /** The sender between dropping what an acknowledgement covers and flushing the queue. */
  function Trimmed(s: Sender, p: Packet, now: real): Sender
  {
    var a := AckScan(Unbounded, s.out, p.ackno, now, s.ackedBytes, s.rto);
    s.(peerWindow := p.window, out := a.kept, ackedBytes := a.bytes, rto := a.rto)
  }

  lemma TrimIsPrefix(e: Arq, isn: int, emitted: seq<bytes>, p: Packet, now: real)
    requires SenderOk(e.cfg.window, e.snd, isn, emitted, now)
    ensures var n := Covered(Una(e.snd), |e.snd.out|, p.ackno);
      && Trimmed(e.snd, p, now) == e.snd.(peerWindow := p.window, out := e.snd.out[n..],
           ackedBytes := e.snd.ackedBytes + OutBytes(e.snd.out[..n]),
           rto := SampleAll(e.snd.rto, Samples(e.snd.out[..n], now)))
      && var r := Flush(Unbounded, e, Trimmed(e.snd, p, now), now);
        OnAck(Unbounded, e, p, now) == Result(e.(snd := r.snd), NOTHING.(packets := r.packets))
  {
    KeysAreBelow(e.cfg.window, e.snd, isn, emitted, now);
    AckDropsPrefix(e.snd.out, Una(e.snd), p.ackno, now, e.snd.ackedBytes, e.snd.rto);
  }

  lemma BytesOfPrefix(w: pos, s: Sender, isn: int, emitted: seq<bytes>, n: nat, now: real)
    requires SenderOk(w, s, isn, emitted, now) && n <= |s.out|
    ensures s.ackedBytes + OutBytes(s.out[..n]) == Size(emitted[..|emitted| - |s.out| + n])
  {
    var k := |emitted| - |s.out|;
    forall i | 0 <= i < n
      ensures s.out[i].packet.payload == emitted[k..k + n][i]
    {
      assert EntryOk(s.out[i], isn, emitted, k + i, now);
    }
    OutBytesAreEmittedBytes(s.out[..n], emitted[k..k + n]);
    SizeAppend(emitted[..k], emitted[k..k + n]);
    assert emitted[..k] + emitted[k..k + n] == emitted[..k + n];
  }

  lemma TrimKeeps(e: Arq, isn: int, emitted: seq<bytes>, p: Packet, now: real)
    requires SenderOk(e.cfg.window, e.snd, isn, emitted, now)
    requires isn <= p.ackno <= e.snd.next && p.window >= 1
    ensures SenderOk(e.cfg.window, Trimmed(e.snd, p, now), isn, emitted, now)
  {
    var s, t := e.snd, Trimmed(e.snd, p, now);
    var n := Covered(Una(s), |s.out|, p.ackno);
    TrimIsPrefix(e, isn, emitted, p, now);
    BytesOfPrefix(e.cfg.window, s, isn, emitted, n, now);
    forall i | 0 <= i < |t.out|
      ensures EntryOk(t.out[i], isn, emitted, |emitted| - |t.out| + i, now)
    {
      assert EntryOk(s.out[n + i], isn, emitted, |emitted| - |s.out| + n + i, now);
    }
  }

  lemma AckKeeps(e: Arq, isn: int, emitted: seq<bytes>, p: Packet, now: real)
    requires SenderOk(e.cfg.window, e.snd, isn, emitted, now)
    requires isn <= p.ackno <= e.snd.next && p.window >= 1
    ensures var r := OnAck(Unbounded, e, p, now);
      var n := Least(Room(e.cfg.window, Trimmed(e.snd, p, now)), |e.snd.pending|);
      && r.ep == e.(snd := r.ep.snd) && r.output == NOTHING.(packets := r.output.packets)
      && SenderOk(e.cfg.window, r.ep.snd, isn, emitted + e.snd.pending[..n], now) && NoDeadlock(r.ep.snd)
      && AllData(r.output.packets, isn, emitted + e.snd.pending[..n])
      && Payloads(r.output.packets) == e.snd.pending[..n] && r.ep.snd.pending == e.snd.pending[n..]
      && (r.ep.snd.pending != [] ==> !CanSend(e.cfg.window, r.ep.snd))
      && r.ep.snd.failed == e.snd.failed
      && Una(r.ep.snd) == (if p.ackno > Una(e.snd) then p.ackno else Una(e.snd))
  {
    var t := Trimmed(e.snd, p, now);
    var n := Least(Room(e.cfg.window, t), |e.snd.pending|);
    TrimIsPrefix(e, isn, emitted, p, now);
    TrimKeeps(e, isn, emitted, p, now);
    KeysAreBelow(e.cfg.window, t, isn, emitted, now);
    FlushFillsWindow(e, t, now);
    EmittingKeeps(e, t, isn, emitted, e.snd.pending[..n], e.snd.pending[n..], now);
  }

  /** The estimator an acknowledgement leaves behind, and the window it leaves before new emissions. */
  lemma AckEstimates(e: Arq, isn: int, emitted: seq<bytes>, p: Packet, now: real)
    requires SenderOk(e.cfg.window, e.snd, isn, emitted, now)
    ensures var k := Covered(Una(e.snd), |e.snd.out|, p.ackno);
      var t := Trimmed(e.snd, p, now);
      var n := Least(Room(e.cfg.window, t), |e.snd.pending|);
      var r := OnAck(Unbounded, e, p, now);
      && t.out == e.snd.out[k..] && t.next == e.snd.next
      && WithEmitted(e, t, e.snd.pending[..n], e.snd.pending[n..], now) == Emitted(r.ep.snd, r.output.packets)
      && r.ep.snd.rto == SampleAll(e.snd.rto, Samples(e.snd.out[..k], now))
  {
    var t := Trimmed(e.snd, p, now);
    TrimIsPrefix(e, isn, emitted, p, now);
    KeysAreBelow(e.cfg.window, e.snd, isn, emitted, now);
    FlushFillsWindow(e, t, now);
  }

  lemma NackKeeps(e: Arq, isn: int, emitted: seq<bytes>, p: Packet, now: real)
    requires SenderOk(e.cfg.window, e.snd, isn, emitted, now)
    requires p.window >= 1
    ensures var r := OnNack(e, p, now);
      && r.ep == e.(snd := e.snd.(peerWindow := p.window, out := r.ep.snd.out))
      && r.output == NOTHING.(packets := r.output.packets)
      && SenderOk(e.cfg.window, r.ep.snd, isn, emitted, now)
      && AllData(r.output.packets, isn, emitted)
      && |r.ep.snd.out| == |e.snd.out|
  {
    var i := IndexOf(e.snd.out, p.ackno);
    assert i < |e.snd.out| ==> EntryOk(e.snd.out[i], isn, emitted, |emitted| - |e.snd.out| + i, now);
  }

  /** What a tick leaves behind: the same packets in the same order, resent ones stamped. */
  lemma {:induction false} TickKeepsPackets(out: seq<Outstanding>, now: real, rto: real, maxRetx: nat)
    ensures var t := TickScan(out, now, rto, maxRetx);
      && |t.out| == |out|
      && (forall i :: 0 <= i < |out| ==> t.out[i] == out[i] || t.out[i] == Resent(out[i], now))
      && (forall j :: 0 <= j < |t.packets| ==> exists i :: 0 <= i < |out| && out[i].packet == t.packets[j])
  {
    if out != [] {
      TickKeepsPackets(out[1..], now, rto, maxRetx);
      var rest := TickScan(out[1..], now, rto, maxRetx).packets;
      assert forall j :: 0 <= j < |rest| ==> exists i :: 0 <= i < |out[1..]| && out[1..][i].packet == rest[j];
      forall j | 0 <= j < |rest|
        ensures exists i :: 0 <= i < |out| && out[i].packet == rest[j]
      {
        var i :| 0 <= i < |out[1..]| && out[1..][i].packet == rest[j];
        assert out[i + 1].packet == rest[j];
      }
    }
  }

  lemma TickKeeps(e: Arq, isn: int, emitted: seq<bytes>, now: real)
    requires SenderOk(e.cfg.window, e.snd, isn, emitted, now)
    ensures var r := OnTick(e, now);
      && r.ep == e.(snd := e.snd.(out := r.ep.snd.out, rto := r.ep.snd.rto, failed := r.ep.snd.failed))
      && |r.ep.snd.out| == |e.snd.out|
      && SenderOk(e.cfg.window, r.ep.snd, isn, emitted, now)
  {
    var out := e.snd.out;
    var r := OnTick(e, now);
    TickKeepsPackets(out, now, e.snd.rto.rto, e.cfg.maxRetx);
    forall i | 0 <= i < |out|
      ensures EntryOk(r.ep.snd.out[i], isn, emitted, |emitted| - |out| + i, now)
    {
      assert EntryOk(out[i], isn, emitted, |emitted| - |out| + i, now);
    }
  }

  lemma TickSendsData(e: Arq, isn: int, emitted: seq<bytes>, now: real)
    requires SenderOk(e.cfg.window, e.snd, isn, emitted, now)
    ensures var r := OnTick(e, now);
      r.output.delivered == [] && !r.output.raised && AllData(r.output.packets, isn, emitted)
  {
    var out := e.snd.out;
    var packets := TickScan(out, now, e.snd.rto.rto, e.cfg.maxRetx).packets;
    TickKeepsPackets(out, now, e.snd.rto.rto, e.cfg.maxRetx);
    forall j | 0 <= j < |packets|
      ensures packets[j].ptype == DATA && DataOk(packets[j], isn, emitted)
    {
      var i :| 0 <= i < |out| && out[i].packet == packets[j];
      assert EntryOk(out[i], isn, emitted, |emitted| - |out| + i, now);
    }
  }

  // ---- the receiving half --------------------------------------------------------------------

  /** Buffered chunks at or above `base`, each the one emitted at its position. */
  predicate Buffered(reorder: map<int, bytes>, base: int, isn: int, emitted: seq<bytes>)
  {
    forall k :: k in reorder ==> isn <= base <= k < isn + |emitted| && reorder[k] == emitted[k - isn]
  }

  /** Buffered chunks lie strictly inside the window above `base` and are the ones emitted there; at
      most one hole, the one at `base`, is on record as already asked for. */
  predicate ReceiverOk(w: pos, r: Receiver, isn: int, emitted: seq<bytes>, delivered: seq<bytes>)
  {
    && isn <= r.base <= isn + |emitted|
    && delivered == emitted[..r.base - isn]
    && Buffered(r.reorder, r.base + 1, isn, emitted)
    && (forall k :: k in r.reorder ==> k < r.base + w)
    && r.nacked <= {r.base}
  }

  lemma ReceiverGrows(w: pos, r: Receiver, isn: int, emitted: seq<bytes>, delivered: seq<bytes>, more: seq<bytes>)
    requires ReceiverOk(w, r, isn, emitted, delivered)
    ensures ReceiverOk(w, r, isn, emitted + more, delivered)
  {
    assert (emitted + more)[..r.base - isn] == emitted[..r.base - isn];
  }

  lemma {:induction false} DrainDelivers(base: int, reorder: map<int, bytes>, isn: int, emitted: seq<bytes>)
    requires isn <= base <= isn + |emitted|
    requires Buffered(reorder, base, isn, emitted)
    ensures var d := Drain(Unbounded, base, reorder);
      && base <= d.base <= isn + |emitted|
      && d.chunks == emitted[base - isn..d.base - isn]
      && Buffered(d.reorder, d.base + 1, isn, emitted)
      && d.reorder.Keys <= reorder.Keys
    decreases |reorder|
  {
    if base in reorder {
      var rest := reorder - {base};
      assert reorder.Keys == rest.Keys + {base};
      DrainDelivers(base + 1, rest, isn, emitted);
      var d := Drain(Unbounded, base + 1, rest);
      assert emitted[base - isn..d.base - isn] == [emitted[base - isn]] + emitted[base + 1 - isn..d.base - isn];
    }
  }

  lemma AcceptKeeps(w: pos, r: Receiver, isn: int, emitted: seq<bytes>, delivered: seq<bytes>, p: Packet)
    requires ReceiverOk(w, r, isn, emitted, delivered)
    requires p.ptype == DATA && DataOk(p, isn, emitted)
    ensures var a := Accept(Unbounded, w, r, p);
      && ReceiverOk(w, a.rcv, isn, emitted, delivered + a.delivered)
      && r.base <= a.rcv.base && (p.seqno <= r.base ==> a.rcv.base > p.seqno)
      && a.rcv.nacked == (if a.rcv.base == r.base then r.nacked else {})
  {
    if p.seqno == r.base {
      DrainDelivers(r.base + 1, r.reorder, isn, emitted);
      var d := Drain(Unbounded, r.base + 1, r.reorder);
      assert emitted[..d.base - isn] == emitted[..r.base - isn] + ([emitted[r.base - isn]] + emitted[r.base + 1 - isn..d.base - isn]);
      assert (set k | k in r.nacked && Lt(Unbounded, d.base, k)) == {};
    } else {
      assert delivered + [] == delivered;
    }
  }

  lemma AdvertisesRoom(w: pos, r: Receiver, isn: int, emitted: seq<bytes>, delivered: seq<bytes>)
    requires ReceiverOk(w, r, isn, emitted, delivered)
    ensures Advertised(w, r) >= 1
  {
    IntervalBound(r.reorder.Keys, r.base + 1, r.base + w);
    assert |r.reorder| == |r.reorder.Keys|;
  }
}
