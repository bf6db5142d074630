/** The endpoint itself (photontcp/reliability/arq.py): fields updated in place, each method proved to do
    exactly what the 32-bit model does. */
module ArqEngine {
  import opened Prelude
  import opened Packets
  import opened Serial
  import opened Rto
  import opened ArqModel

  class ArqEndpoint {
    const streamId: int
    const windowSize: pos
    const maxPayload: pos
    const maxRetx: nat
    const rto: RtoEstimator
    var sessionId: int
    // sending half
    var nextSeq: int
    var outstanding: seq<Outstanding>
    var peerWindow: int
    var pending: seq<bytes>
    var ackedBytes: nat
    var failed: bool
    // receiving half
    var rcvBase: int
    var reorder: map<int, bytes>
    var nacked: set<int>

    function View(): Arq
      reads this, rto
    {
      Arq(sessionId, Config(streamId, windowSize, maxPayload, maxRetx),
          Sender(nextSeq, outstanding, peerWindow, pending, ackedBytes, failed, rto.View()),
          Receiver(rcvBase, reorder, nacked))
    }

    /** Whatever packets arrive, buffered serials stay strictly inside the window ahead of `rcvBase`. */
    predicate Valid()
      reads this
    {
      && windowSize < SEQ_HALF
      && IsSerial(rcvBase)
      && Ahead(rcvBase, reorder, 1, windowSize)
    }

    constructor (sessionId: int, sendIsn: int, windowSize: pos, rto: RtoEstimator, maxPayload: pos,
                 recvIsn: int, streamId: int, maxRetx: nat)
      requires IsSerial(recvIsn) && windowSize < SEQ_HALF
      ensures Valid() && this.rto == rto
      ensures View() == NewEndpoint(sessionId, Config(streamId, windowSize, maxPayload, maxRetx), sendIsn, recvIsn, rto.View())
    {
      this.sessionId, this.streamId, this.windowSize := sessionId, streamId, windowSize;
      this.maxPayload, this.maxRetx, this.rto := maxPayload, maxRetx, rto;
      nextSeq, outstanding, peerWindow, pending, ackedBytes, failed := sendIsn, [], windowSize, [], 0, false;
      rcvBase, reorder, nacked := recvIsn, map[], {};
    }

    // ---- sending -----------------------------------------------------------------------------

    predicate HasRoom()
      reads this, rto
    {
      CanSend(windowSize, View().snd)
    }

    method EmitData(chunk: bytes, now: real) returns (p: Packet)
      modifies this`nextSeq, this`outstanding
      ensures p == DataPacket(old(View()), old(nextSeq), chunk)
      ensures View() == old(View()).(snd := Emit(Serial32, old(View()), old(View()).snd, chunk, now))
    {
      p := DataPacket(View(), nextSeq, chunk);
      outstanding := Put(outstanding, Outstanding(p, now, 0));
      nextSeq := SeqAdd(nextSeq, 1);
    }

    method FlushPending(now: real) returns (out: seq<Packet>)
      modifies this`nextSeq, this`outstanding, this`pending
      ensures var f := Flush(Serial32, old(View()), old(View()).snd, now);
        out == f.packets && View() == old(View()).(snd := f.snd)
    {
      out := [];
      ghost var e := View();
      while pending != [] && HasRoom()
        invariant View() == e.(snd := View().snd)
        invariant var f := Flush(Serial32, e, e.snd, now); var rest := Flush(Serial32, e, View().snd, now);
          f == Emitted(rest.snd, out + rest.packets)
        decreases |pending|
      {
        ghost var s := View().snd;
        var chunk := pending[0];
        pending := pending[1..];
        var p := EmitData(chunk, now);
        assert View().snd == Emit(Serial32, e, s.(pending := s.pending[1..]), chunk, now);
        ghost var rest := Flush(Serial32, e, View().snd, now);
        assert out + ([p] + rest.packets) == (out + [p]) + rest.packets;
        out := out + [p];
      }
    }

    method Split(data: bytes) returns (chunks: seq<bytes>)
      ensures chunks == Chunks(data, maxPayload)
    {
      chunks := [];
      var i := 0;
      while i < |data|
        invariant 0 <= i
        invariant i <= |data| ==> chunks + Chunks(data[i..], maxPayload) == Chunks(data, maxPayload)
        invariant i > |data| ==> chunks == Chunks(data, maxPayload)
      {
        var end := if i + maxPayload < |data| then i + maxPayload else |data|;
        if end < |data| {
          assert data[i..][..maxPayload] == data[i..end] && data[i..][maxPayload..] == data[end..];
          assert chunks + ([data[i..end]] + Chunks(data[end..], maxPayload)) == (chunks + [data[i..end]]) + Chunks(data[end..], maxPayload);
        } else {
          assert data[i..] == data[i..end];
        }
        chunks := chunks + [data[i..end]];
        i := i + maxPayload;
      }
    }

    method SendOrQueue(chunks: seq<bytes>, now: real) returns (packets: seq<Packet>)
      modifies this`nextSeq, this`outstanding, this`pending
      ensures var f := SendChunks(Serial32, old(View()), old(View()).snd, chunks, now);
        packets == f.packets && View() == old(View()).(snd := f.snd)
    {
      ghost var e := View();
      packets := [];
      var i := 0;
      while i < |chunks|
        invariant 0 <= i <= |chunks|
        invariant View() == e.(snd := View().snd)
        invariant var f := SendChunks(Serial32, e, e.snd, chunks, now);
          var rest := SendChunks(Serial32, e, View().snd, chunks[i..], now);
          f == Emitted(rest.snd, packets + rest.packets)
      {
        ghost var s := View().snd;
        assert chunks[i..][0] == chunks[i] && chunks[i..][1..] == chunks[i + 1..];
        if HasRoom() {
          var p := EmitData(chunks[i], now);
          assert View().snd == Emit(Serial32, e, s, chunks[i], now);
          ghost var rest := SendChunks(Serial32, e, View().snd, chunks[i + 1..], now);
          assert packets + ([p] + rest.packets) == (packets + [p]) + rest.packets;
          packets := packets + [p];
        } else {
          pending := pending + [chunks[i]];
        }
        i := i + 1;
      }
    }

    method Send(data: bytes, now: real) returns (o: ArqOutput)
      modifies this`nextSeq, this`outstanding, this`pending
      ensures var r := ArqModel.Send(Serial32, old(View()), data, now); o == r.output && View() == r.ep
    {
      o := NOTHING;
      if data != [] {
        var chunks := Split(data);
        var packets := SendOrQueue(chunks, now);
        o := NOTHING.(packets := packets);
      }
    }

    // ---- receiving ---------------------------------------------------------------------------

    method DrainBuffered() returns (drained: seq<bytes>)
      requires IsSerial(rcvBase) && windowSize < SEQ_HALF && Ahead(rcvBase, reorder, 0, windowSize)
      modifies this`rcvBase, this`reorder
      ensures Valid()
      ensures Drain(Serial32, old(rcvBase), old(reorder)) == Drained(rcvBase, reorder, drained)
    {
      drained := [];
      while rcvBase in reorder
        invariant IsSerial(rcvBase) && Ahead(rcvBase, reorder, 0, windowSize)
        invariant var rest := Drain(Serial32, rcvBase, reorder);
          Drain(Serial32, old(rcvBase), old(reorder)) == rest.(chunks := drained + rest.chunks)
        decreases |reorder|
      {
        drained, reorder := drained + [reorder[rcvBase]], reorder - {rcvBase};
        AheadStepsDown(rcvBase, reorder, windowSize);
        rcvBase := SeqAdd(rcvBase, 1);
      }
    }

    method AcceptData(p: Packet) returns (delivered: seq<bytes>)
      requires Valid() && IsSerial(p.seqno)
      modifies this`rcvBase, this`reorder, this`nacked
      ensures Valid()
      ensures var a := Accept(Serial32, windowSize, old(View()).rcv, p);
        delivered == a.delivered && View() == old(View()).(rcv := a.rcv)
    {
      delivered := [];
      if p.seqno == rcvBase {
        delivered := [p.payload];
        AheadStepsDown(rcvBase, reorder, windowSize);
        rcvBase := SeqAdd(rcvBase, 1);
        var drained := DrainBuffered();
        delivered := delivered + drained;
        PruneNacked();
      } else if SeqLt(rcvBase, p.seqno) {
        if SeqDiff(p.seqno, rcvBase) < windowSize && p.seqno !in reorder {
          reorder := reorder[p.seqno := p.payload];
        }
      }
    }

    method PruneNacked()
      modifies this`nacked
      ensures nacked == set k | k in old(nacked) && SeqLt(rcvBase, k)
    {
      if nacked != {} {
        nacked := set k | k in nacked && SeqLt(rcvBase, k);
      }
    }

    method OnData(p: Packet) returns (o: ArqOutput)
      requires Valid() && IsSerial(p.seqno)
      modifies this`rcvBase, this`reorder, this`nacked
      ensures Valid()
      ensures var r := ArqModel.OnData(Serial32, old(View()), p); o == r.output && View() == r.ep
    {
      var delivered := AcceptData(p);
      o := NOTHING.(delivered := delivered, packets := [AckPacket(View())]);
      var missing := LowestMissingSeq();
      if missing.Some? && missing.value !in nacked {
        o := o.(packets := o.packets + [NackPacket(View(), missing.value)]);
        nacked := nacked + {missing.value};
      }
    }

    /** The lowest serial missing below the buffered ones, found by walking up from `rcvBase`. */
    method LowestMissingSeq() returns (missing: Option<int>)
      requires IsSerial(rcvBase) && forall k :: k in reorder ==> IsSerial(k)
      ensures missing.None? || missing.value !in reorder
      ensures (forall k :: k in reorder ==> 0 < SeqDiff(k, rcvBase))
        ==> missing == if reorder == map[] then None else Some(rcvBase)
    {
      if reorder == map[] {
        return None;
      }
      var highest := HighestBuffered();
      var at := rcvBase;
      OnlyOppositesAreUnordered(highest, rcvBase);
      while SeqLt(at, highest) || at == highest
        invariant IsSerial(at)
        invariant at == rcvBase || rcvBase in reorder
        decreases SeqDiff(highest, at)
      {
        if at !in reorder {
          return Some(at);
        }
        StepCloser(highest, at);
        at := SeqAdd(at, 1);
      }
      missing := None;
    }

    /** The buffered serial furthest ahead of `rcvBase`. */
    method HighestBuffered() returns (highest: int)
      requires reorder != map[]
      ensures highest in reorder && forall k :: k in reorder ==> SeqDiff(k, rcvBase) <= SeqDiff(highest, rcvBase)
    {
      var todo := reorder.Keys;
      highest := Any(todo);
      todo := todo - {highest};
      while todo != {}
        invariant todo <= reorder.Keys && highest in reorder
        invariant forall k :: k in reorder && k !in todo ==> SeqDiff(k, rcvBase) <= SeqDiff(highest, rcvBase)
        decreases |todo|
      {
        var k := Any(todo);
        if SeqDiff(k, rcvBase) > SeqDiff(highest, rcvBase) {
          highest := k;
        }
        todo := todo - {k};
      }
    }

    // ---- acknowledgements --------------------------------------------------------------------

    /** Remove everything acknowledged; false where a negative sample raises out of the loop. */
    method DropAcked(ack: int, now: real) returns (ok: bool)
      modifies this`outstanding, this`ackedBytes, rto
      ensures var a := AckScan(Serial32, old(outstanding), ack, now, old(ackedBytes), old(rto.View()));
        ok == !a.raised && outstanding == a.kept && ackedBytes == a.bytes && rto.View() == a.rto
    {
      var kept := [];
      var rest := outstanding;
      ghost var all := AckScan(Serial32, outstanding, ack, now, ackedBytes, rto.View());
      while rest != []
        invariant var a := AckScan(Serial32, rest, ack, now, ackedBytes, rto.View());
          all == a.(kept := kept + a.kept)
        decreases |rest|
      {
        var o := rest[0];
        ghost var a := AckScan(Serial32, rest, ack, now, ackedBytes, rto.View());
        rest := rest[1..];
        if SeqLt(o.packet.seqno, ack) {
          ackedBytes := ackedBytes + |o.packet.payload|;
          if o.retx == 0 {
            var sampled := rto.OnSample(now - o.sendTime);
            if !sampled {
              outstanding := kept + rest;
              return false;
            }
          }
        } else {
          ghost var after := AckScan(Serial32, rest, ack, now, ackedBytes, rto.View());
          assert kept + ([o] + after.kept) == (kept + [o]) + after.kept;
          kept := kept + [o];
        }
      }
      outstanding := kept;
      assert kept + [] == kept;
      ok := true;
    }

    method OnAck(p: Packet, now: real) returns (o: ArqOutput)
      modifies this`peerWindow, this`outstanding, this`ackedBytes, this`nextSeq, this`pending, rto
      ensures var r := ArqModel.OnAck(Serial32, old(View()), p, now); o == r.output && View() == r.ep
    {
      ghost var e := View();
      peerWindow := p.window;
      var ok := DropAcked(p.ackno, now);
      ghost var a := AckScan(Serial32, e.snd.out, p.ackno, now, e.snd.ackedBytes, e.snd.rto);
      ghost var s := e.snd.(peerWindow := p.window, out := a.kept, ackedBytes := a.bytes, rto := a.rto);
      assert View() == e.(snd := s);
      if !ok {
        return NOTHING.(raised := true);
      }
      var packets := FlushPending(now);
      o := NOTHING.(packets := packets);
      FlushReadsHeaders(Serial32, e, e.(snd := s), s, now);
    }

    method OnNack(p: Packet, now: real) returns (o: ArqOutput)
      modifies this`peerWindow, this`outstanding
      ensures var r := ArqModel.OnNack(old(View()), p, now); o == r.output && View() == r.ep
    {
      o := NOTHING;
      peerWindow := p.window;
      var i := IndexOf(outstanding, p.ackno);
      if i < |outstanding| {
        outstanding := outstanding[i := Resent(outstanding[i], now)];
        o := NOTHING.(packets := [outstanding[i].packet]);
      }
    }

    method OnPacket(p: Packet, now: real) returns (o: ArqOutput)
      requires Valid() && IsSerial(p.seqno)
      modifies this, rto
      ensures Valid()
      ensures var r := ArqModel.OnPacket(Serial32, old(View()), p, now); o == r.output && View() == r.ep
    {
      o := NOTHING;
      if p.session == sessionId {
        match p.ptype
        case DATA => o := OnData(p);
        case ACK => o := OnAck(p, now);
        case NACK => o := OnNack(p, now);
        case _ =>
      }
    }

    // ---- timers ------------------------------------------------------------------------------

    /** Resend what has timed out, stopping where a retry budget is spent. */
    method ResendExpired(timeout: real, now: real) returns (packets: seq<Packet>, exhausted: bool)
      modifies this`outstanding
      ensures TickScan(old(outstanding), now, timeout, maxRetx) == Ticked(outstanding, packets, exhausted)
    {
      ghost var before := outstanding;
      ghost var all := TickScan(before, now, timeout, maxRetx);
      packets, exhausted := [], false;
      var i := 0;
      while i < |outstanding|
        invariant 0 <= i <= |outstanding| == |before|
        invariant outstanding[i..] == before[i..]
        invariant var t := TickScan(before[i..], now, timeout, maxRetx);
          all == Ticked(outstanding[..i] + t.out, packets + t.packets, t.exhausted)
      {
        var entry := outstanding[i];
        ghost var done := outstanding[..i];
        assert before[i..][0] == entry && before[i..][1..] == before[i + 1..];
        ghost var later := TickScan(before[i + 1..], now, timeout, maxRetx);
        if Expired(entry, now, timeout) {
          if entry.retx >= maxRetx {
            assert outstanding == done + before[i..] && packets + [] == packets;
            exhausted := true;
            return;
          }
          outstanding := outstanding[i := Resent(entry, now)];
          assert done + ([Resent(entry, now)] + later.out) == outstanding[..i + 1] + later.out;
          assert packets + ([entry.packet] + later.packets) == (packets + [entry.packet]) + later.packets;
          packets := packets + [entry.packet];
        } else {
          assert done + ([entry] + later.out) == outstanding[..i + 1] + later.out;
        }
        i := i + 1;
      }
      assert outstanding[..i] + [] == outstanding && packets + [] == packets;
    }

    method OnTick(now: real) returns (o: ArqOutput)
      modifies this`outstanding, this`failed, rto
      ensures var r := ArqModel.OnTick(old(View()), now); o == r.output && View() == r.ep
    {
      o := NOTHING;
      if failed || forall i :: 0 <= i < |outstanding| ==> !Expired(outstanding[i], now, rto.rto) {
        assert failed || NoneExpired(View().snd, now);
        return;
      }
      assert !NoneExpired(View().snd, now);
      var packets, exhausted := ResendExpired(rto.rto, now);
      o := NOTHING.(packets := packets);
      if exhausted {
        failed := true;
        o := o.(events := [SEND_FAILED]);
      } else {
        rto.OnTimeout();
      }
    }
  }

  method Any<T(==)>(s: set<T>) returns (x: T)
    requires s != {}
    ensures x in s
  {
    x :| x in s;
  }

  lemma StepCloser(highest: int, at: int)
    requires IsSerial(highest) && IsSerial(at) && (SeqLt(at, highest) || at == highest)
    ensures SeqDiff(highest, SeqAdd(at, 1)) == SeqDiff(highest, at) - 1
    ensures SeqDiff(highest, at) >= 0
  {
  }

  /** Buffered serials lie at least `least` and less than `most` ahead of `base`. */
  predicate Ahead(base: int, reorder: map<int, bytes>, least: int, most: int)
  {
    forall k :: k in reorder ==> IsSerial(k) && least <= SeqDiff(k, base) < most
  }

  lemma AheadStepsDown(base: int, reorder: map<int, bytes>, most: int)
    requires IsSerial(base) && most < SEQ_HALF
    requires Ahead(base, reorder, 0, most) && base !in reorder
    ensures IsSerial(SeqAdd(base, 1)) && Ahead(SeqAdd(base, 1), reorder, 0, most)
  {
  }

  /** Flushing reads only the headers of the endpoint it is given. */
  lemma {:induction false} FlushReadsHeaders(m: Arith, e: Arq, e': Arq, s: Sender, now: real)
    requires e.session == e'.session && e.cfg == e'.cfg && e.rcv == e'.rcv
    ensures Flush(m, e, s, now) == Flush(m, e', s, now)
    decreases |s.pending|
  {
    if s.pending != [] && CanSend(e.cfg.window, s) {
      FlushReadsHeaders(m, e, e', Emit(m, e, s.(pending := s.pending[1..]), s.pending[0], now), now);
    }
  }
}
