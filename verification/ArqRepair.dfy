/** Repair without timers: a NACK has exactly the chunk it names sent again, and so fills the hole. */
module ArqRepair {
  import opened Prelude
  import opened Packets
  import opened Rto
  import opened ArqModel
  import opened ArqSafety
  import opened ArqSystem
  import opened ArqTheorems
  import opened ArqStored
  import opened ArqProgress
  import opened ArqHistory

  // ---- what a NACK does ------------------------------------------------------------------------

  lemma PlaceOfPosition(out: seq<Outstanding>, first: int, k: int)
    requires DataRun(out, first)
    ensures IndexOf(out, k) == if first <= k < first + |out| then k - first else |out|
  {
    var i := IndexOf(out, k);
    if first <= k < first + |out| {
      assert out[k - first].packet.seqno == k;
    }
  }

  /** A NACK of the session that names a position in flight has exactly that chunk sent again, once, and
      counts it; one that names any other position sends nothing. Neither touches the rest of the window. */
  lemma NackSendsTheHole(x: Peer, y: Peer, isn: int, clock: real, p: Packet, now: real)
    requires Flow(x, y, isn, clock) && clock <= now
    requires p.ptype == NACK && p.session == x.ep.session
    ensures var x' := StepPeer(Unbounded, x, Receive(p), now); var packets := OnPacket(Unbounded, x.ep, p, now).output.packets;
      var (k, i, out, out') := (p.ackno, p.ackno - Una(x.ep.snd), x.ep.snd.out, x'.ep.snd.out);
      && x'.emitted == x.emitted && x'.delivered == x.delivered && x'.ep.rcv == x.ep.rcv
      && x'.ep.snd == x.ep.snd.(out := out', peerWindow := p.window)
      && if Una(x.ep.snd) <= k < x.ep.snd.next then
           && |packets| == 1 && packets[0].ptype == DATA && packets[0].seqno == k && packets[0].payload == x.emitted[k - isn]
           && x'.tx == x.tx + [Tx(k, now)]
           && |out'| == |out| && out'[i].packet == out[i].packet && out'[i].sendTime == now && out'[i].retx == out[i].retx + 1
           && forall j :: 0 <= j < |out| && j != i ==> out'[j] == out[j]
         else packets == [] && x'.tx == x.tx && out' == out
  {
    var out := x.ep.snd.out;
    WindowIsDataRun(x.ep.cfg.window, x.ep.snd, isn, x.emitted, clock);
    PlaceOfPosition(out, Una(x.ep.snd), p.ackno);
    var i := IndexOf(out, p.ackno);
    if i < |out| {
      assert EntryOk(out[i], isn, x.emitted, |x.emitted| - |out| + i, clock);
      OneTransmission(out[i].packet, now);
    } else {
      assert x.tx + DataTx([], now) == x.tx;
    }
  }

  lemma OneTransmission(p: Packet, now: real)
    requires p.ptype == DATA
    ensures DataTx([p], now) == [Tx(p.seqno, now)]
  {
    assert [p][1..] == [];
  }

  // ---- one lost chunk ------------------------------------------------------------------------

  /** What data ahead of the next expected position is answered with: an acknowledgement of that position
      and, if it was not asked for yet and anything is buffered behind it now, a NACK for it. */
  lemma HoleIsAskedFor(e: Arq, p: Packet, now: real)
    requires p.ptype == DATA && p.session == e.session && e.rcv.base < p.seqno
    ensures var r := OnPacket(Unbounded, e, p, now); var packets := r.output.packets;
      var fits := p.seqno < e.rcv.base + e.cfg.window;
      && r.ep.rcv.base == e.rcv.base && r.output.delivered == []
      && r.ep.rcv.reorder.Keys == e.rcv.reorder.Keys + (if fits then {p.seqno} else {})
      && (forall k :: k in e.rcv.reorder ==> r.ep.rcv.reorder[k] == e.rcv.reorder[k])
      && packets != [] && packets[0].ptype == ACK && packets[0].ackno == e.rcv.base
      && (if e.rcv.base !in e.rcv.nacked && (fits || e.rcv.reorder != map[]) then
            |packets| == 2 && packets[1].ptype == NACK && packets[1].ackno == e.rcv.base && packets[1].session == e.session
          else |packets| == 1)
  {
    var packets := OnPacket(Unbounded, e, p, now).output.packets;
    var rcv := Accept(Unbounded, e.cfg.window, e.rcv, p).rcv;
    assert rcv.reorder.Keys == e.rcv.reorder.Keys + (if p.seqno < e.rcv.base + e.cfg.window then {p.seqno} else {});
    assert AsksForHole(rcv) <==> e.rcv.base !in e.rcv.nacked && rcv.reorder.Keys != {};
  }

  /** Draining takes exactly the unbroken run from `base` and leaves every chunk behind the next gap. */
  lemma {:induction false} DrainIsExact(base: int, reorder: map<int, bytes>)
    requires forall k :: k in reorder ==> base <= k
    ensures var d := Drain(Unbounded, base, reorder);
      && base <= d.base && d.base !in reorder && (forall k :: base <= k < d.base ==> k in reorder)
      && (forall k :: k in d.reorder <==> k in reorder && d.base < k)
      && (forall k :: k in d.reorder ==> d.reorder[k] == reorder[k])
    decreases |reorder|
  {
    if base in reorder {
      var rest := reorder - {base};
      assert reorder.Keys == rest.Keys + {base};
      DrainIsExact(base + 1, rest);
    }
  }

  lemma NextIsAccepted(w: pos, r: Receiver, p: Packet)
    requires p.seqno == r.base && forall k :: k in r.reorder ==> r.base < k
    ensures var a := Accept(Unbounded, w, r, p); var base' := a.rcv.base;
      && r.base < base' && base' !in r.reorder && (forall k :: r.base < k < base' ==> k in r.reorder)
      && a.delivered != [] && a.delivered[0] == p.payload
  {
    DrainIsExact(r.base + 1, r.reorder);
  }

  /** The expected chunk fills the hole: it is delivered with all that was buffered right behind it. */
  lemma HoleIsFilled(e: Arq, p: Packet, now: real)
    requires p.ptype == DATA && p.session == e.session && p.seqno == e.rcv.base
    requires forall k :: k in e.rcv.reorder ==> e.rcv.base < k
    ensures var r := OnPacket(Unbounded, e, p, now); var (packets, base, base') := (r.output.packets, e.rcv.base, r.ep.rcv.base);
      && packets != [] && packets[0].ptype == ACK && packets[0].ackno == base' && packets[0].session == e.session
      && base < base' && base' !in e.rcv.reorder && (forall k :: base < k < base' ==> k in e.rcv.reorder)
      && r.output.delivered != [] && r.output.delivered[0] == p.payload
  {
    NextIsAccepted(e.cfg.window, e.rcv, p);
  }

  /** Packets that arrive at `now` lead from `s` to `t`. */
  predicate Delivers(s: Sys, run: seq<Label>, t: Sys, now: real)
  {
    && Legal(Unbounded, s, run) && t == Run(Unbounded, s, run)
    && forall i :: 0 <= i < |run| ==> run[i].input.Receive? && run[i].now == now
  }

  lemma OneArrives(s: Sys, l: Label) returns (run: seq<Label>)
    requires Enabled(s, l) && l.input.Receive?
    ensures Delivers(s, run, StepSys(Unbounded, s, l), l.now) && |run| == 1
  {
    assert [l][1..] == [];
    return [l];
  }

  lemma ThenArrives(s: Sys, r1: seq<Label>, t: Sys, r2: seq<Label>, u: Sys, now: real)
    requires Delivers(s, r1, t, now) && Delivers(t, r2, u, now)
    ensures Delivers(s, r1 + r2, u, now)
  {
    RunAppend(Unbounded, s, r1, r2);
  }

  lemma Sends(m: Arith, x: Peer, input: Input, now: real, q: Packet)
    requires q in React(m, x.ep, input, now).output.packets
    ensures q in StepPeer(m, x, input, now).sent
  {
  }

  /** The hole was not asked for yet, and something will be buffered behind it. */
  predicate Asks(e: Arq, p: Packet)
  {
    e.rcv.base !in e.rcv.nacked && (e.rcv.reorder != map[] || p.seqno < e.rcv.base + e.cfg.window)
  }

  /** Later data arrives: the hole is asked for. */
  lemma LaterArrives(s: Sys, isnA: int, isnB: int, later: Packet, now: real) returns (t: Sys, run: seq<Label>, nack: Packet)
    requires Inv(s, isnA, isnB) && OneSession(s) && s.clock <= now
    requires later in s.a.sent && later.ptype == DATA && later.session == s.b.ep.session
    requires s.b.ep.rcv.base < later.seqno && Asks(s.b.ep, later)
    ensures Delivers(s, run, t, now) && |run| == 1
    ensures Inv(t, isnA, isnB) && OneSession(t) && t.a == s.a && t.clock == now
    ensures nack in t.b.sent && nack.ptype == NACK && nack.session == t.a.ep.session && nack.ackno == t.b.ep.rcv.base
    ensures t.b.ep.rcv.base == s.b.ep.rcv.base && t.b.delivered == s.b.delivered
    ensures s.b.ep.rcv.reorder.Keys <= t.b.ep.rcv.reorder.Keys
    ensures later.seqno < s.b.ep.rcv.base + s.b.ep.cfg.window ==> later.seqno in t.b.ep.rcv.reorder
    ensures Una(t.a.ep.snd) <= t.b.ep.rcv.base < t.a.ep.snd.next
  {
    var l := Label(B, Receive(later), now);
    t := StepSys(Unbounded, s, l);
    run := OneArrives(s, l);
    StepKeepsInv(s, isnA, isnB, l);
    StepKeepsOneSession(Unbounded, s, l);
    assert DataOk(later, isnA, s.a.emitted);
    HoleIsAskedFor(s.b.ep, later, now);
    nack := OnPacket(Unbounded, s.b.ep, later, now).output.packets[1];
    Sends(Unbounded, s.b, Receive(later), now, nack);
    assert s.b.delivered + [] == s.b.delivered;
  }

  lemma NackSpeaks(e: Arq, p: Packet, now: real)
    requires AllStored(e.snd.out, UnderSession(e.session)) && p.ptype == NACK
    ensures forall q :: q in OnPacket(Unbounded, e, p, now).output.packets ==> q.session == e.session
  {
    ReactSpeaks(Unbounded, e, Receive(p), now);
    var packets := OnPacket(Unbounded, e, p, now).output.packets;
    forall i | 0 <= i < |packets| ensures packets[i].session == e.session {
      assert UnderSession(e.session)(packets[i]);
    }
  }

  lemma NackAnswer(x: Peer, y: Peer, isn: int, clock: real, nack: Packet, now: real) returns (again: Packet)
    requires Flow(x, y, isn, clock) && clock <= now && AllStored(x.ep.snd.out, UnderSession(x.ep.session))
    requires nack.ptype == NACK && nack.session == x.ep.session && Una(x.ep.snd) <= nack.ackno < x.ep.snd.next
    ensures var x' := StepPeer(Unbounded, x, Receive(nack), now); again in x'.sent && x'.emitted == x.emitted
    ensures again.ptype == DATA && again.session == x.ep.session
    ensures again.seqno == nack.ackno && again.payload == x.emitted[nack.ackno - isn]
  {
    NackSendsTheHole(x, y, isn, clock, nack, now);
    NackSpeaks(x.ep, nack, now);
    again := OnPacket(Unbounded, x.ep, nack, now).output.packets[0];
    Sends(Unbounded, x, Receive(nack), now, again);
  }

  /** The NACK arrives: the chunk goes out again. */
  lemma NackArrives(s: Sys, isnA: int, isnB: int, nack: Packet, now: real) returns (t: Sys, run: seq<Label>, again: Packet)
    requires Inv(s, isnA, isnB) && OneSession(s) && s.clock <= now
    requires nack in s.b.sent && nack.ptype == NACK && nack.session == s.a.ep.session
    requires Una(s.a.ep.snd) <= nack.ackno < s.a.ep.snd.next
    ensures Delivers(s, run, t, now) && |run| == 1
    ensures Inv(t, isnA, isnB) && OneSession(t) && t.b == s.b && t.clock == now && t.a.emitted == s.a.emitted
    ensures again in t.a.sent && again.ptype == DATA && again.session == t.b.ep.session
    ensures again.seqno == nack.ackno && again.payload == s.a.emitted[nack.ackno - isnA]
  {
    var l := Label(A, Receive(nack), now);
    t := StepSys(Unbounded, s, l);
    run := OneArrives(s, l);
    StepKeepsInv(s, isnA, isnB, l);
    StepKeepsOneSession(Unbounded, s, l);
    again := NackAnswer(s.a, s.b, isnA, s.clock, nack, now);
  }

  /** The chunk arrives again: the hole is filled and acknowledged. */
  lemma ChunkArrives(s: Sys, isnA: int, isnB: int, again: Packet, now: real) returns (t: Sys, run: seq<Label>, ack: Packet)
    requires Inv(s, isnA, isnB) && OneSession(s) && s.clock <= now
    requires again in s.a.sent && again.ptype == DATA && again.session == s.b.ep.session && again.seqno == s.b.ep.rcv.base
    ensures Delivers(s, run, t, now) && |run| == 1
    ensures Inv(t, isnA, isnB) && t.a == s.a && t.clock == now
    ensures ack in t.b.sent && ack.ptype == ACK && ack.session == t.a.ep.session && ack.ackno == t.b.ep.rcv.base
    ensures Filled(s.b, t.b, again.payload)
  {
    var l := Label(B, Receive(again), now);
    var r := OnPacket(Unbounded, s.b.ep, again, now);
    t := StepSys(Unbounded, s, l);
    run := OneArrives(s, l);
    StepKeepsInv(s, isnA, isnB, l);
    HoleIsFilled(s.b.ep, again, now);
    ack := r.output.packets[0];
    Sends(Unbounded, s.b, Receive(again), now, ack);
    assert r.output.delivered == [again.payload] + r.output.delivered[1..];
  }

  /** The next chunk was delivered, and all that was buffered up to the next gap. */
  predicate Filled(x: Peer, x': Peer, chunk: bytes)
  {
    var (base, base') := (x.ep.rcv.base, x'.ep.rcv.base);
    && base < base' && base' !in x.ep.rcv.reorder && (forall k :: base < k < base' ==> k in x.ep.rcv.reorder)
    && x.delivered + [chunk] <= x'.delivered
  }

  lemma AckTakesOut(x: Peer, y: Peer, isn: int, clock: real, ack: Packet, now: real)
    requires Flow(x, y, isn, clock) && clock <= now && ack in y.sent && ack.ptype == ACK && ack.session == x.ep.session
    ensures ack.ackno <= Una(StepPeer(Unbounded, x, Receive(ack), now).ep.snd)
  {
    SenderOkLater(x.ep.cfg.window, x.ep.snd, isn, x.emitted, clock, now);
    assert AckOk(ack, isn, y.ep.rcv.base);
    AckProgresses(x.ep, isn, x.emitted, ack, x.ep.snd.next, now);
  }

  lemma UnaNotPastBase(s: Sys, isnA: int, isnB: int)
    requires Inv(s, isnA, isnB)
    ensures Una(s.a.ep.snd) <= s.b.ep.rcv.base
  {
  }

  /** The acknowledgement arrives: nothing up to it is in flight any more. */
  lemma AckArrives(s: Sys, isnA: int, isnB: int, ack: Packet, now: real) returns (t: Sys, run: seq<Label>)
    requires Inv(s, isnA, isnB) && s.clock <= now
    requires ack in s.b.sent && ack.ptype == ACK && ack.session == s.a.ep.session && ack.ackno == s.b.ep.rcv.base
    ensures Delivers(s, run, t, now) && |run| == 1
    ensures Inv(t, isnA, isnB) && t.b == s.b && Una(t.a.ep.snd) == t.b.ep.rcv.base
  {
    var l := Label(A, Receive(ack), now);
    AckTakesOut(s.a, s.b, isnA, s.clock, ack, now);
    StepKeepsInv(s, isnA, isnB, l);
    t := StepSys(Unbounded, s, l);
    UnaNotPastBase(t, isnA, isnB);
    run := OneArrives(s, l);
  }

  /** A lost chunk is repaired without any timer: once anything behind it arrives and it was not asked for
      before, the NACK, the chunk again and its acknowledgement deliver it, with everything that waited
      right behind it, and take all of that out of flight. */
  lemma HoleIsRepaired(s: Sys, isnA: int, isnB: int, later: Packet, now: real) returns (t: Sys, run: seq<Label>)
    requires Inv(s, isnA, isnB) && OneSession(s) && s.clock <= now
    requires later in s.a.sent && later.ptype == DATA && later.session == s.b.ep.session
    requires s.b.ep.rcv.base < later.seqno && Asks(s.b.ep, later)
    ensures Delivers(s, run, t, now) && |run| == 4
    ensures Inv(t, isnA, isnB) && s.b.ep.rcv.base < t.b.ep.rcv.base == Una(t.a.ep.snd)
    ensures s.b.delivered + [s.a.emitted[s.b.ep.rcv.base - isnA]] <= t.b.delivered
    ensures t.b.ep.rcv.base !in s.b.ep.rcv.reorder
    ensures later.seqno < s.b.ep.rcv.base + s.b.ep.cfg.window ==> t.b.ep.rcv.base != later.seqno
  {
    var s1, r1, nack := LaterArrives(s, isnA, isnB, later, now);
    var s2, r2, again := NackArrives(s1, isnA, isnB, nack, now);
    var s3, r3, ack := ChunkArrives(s2, isnA, isnB, again, now);
    var s4, r4 := AckArrives(s3, isnA, isnB, ack, now);
    ThenArrives(s, r1, s1, r2, s2, now);
    ThenArrives(s, r1 + r2, s2, r3, s3, now);
    ThenArrives(s, r1 + r2 + r3, s3, r4, s4, now);
    return s4, r1 + r2 + r3 + r4;
  }

  /** So in every state a run can reach. */
  lemma EveryHoleIsRepaired(session: int, cfgA: Config, cfgB: Config, isnA: int, isnB: int, rtoA: Estimate, rtoB: Estimate,
                            before: seq<Label>, s: Sys, later: Packet, now: real) returns (t: Sys, run: seq<Label>)
    requires Legal(Unbounded, Start(session, cfgA, cfgB, isnA, isnB, rtoA, rtoB), before)
    requires s == Run(Unbounded, Start(session, cfgA, cfgB, isnA, isnB, rtoA, rtoB), before) && s.clock <= now
    requires later in s.a.sent && later.ptype == DATA && later.session == s.b.ep.session
    requires s.b.ep.rcv.base < later.seqno && Asks(s.b.ep, later)
    ensures Delivers(s, run, t, now) && |run| == 4 && s.b.ep.rcv.base < t.b.ep.rcv.base == Una(t.a.ep.snd)
    ensures 0 <= s.b.ep.rcv.base - isnA < |s.a.emitted| && s.b.delivered + [s.a.emitted[s.b.ep.rcv.base - isnA]] <= t.b.delivered
  {
    var s0 := Start(session, cfgA, cfgB, isnA, isnB, rtoA, rtoB);
    StartInv(session, cfgA, cfgB, isnA, isnB, rtoA, rtoB);
    RunKeepsInv(s0, isnA, isnB, before);
    RunKeepsOneSession(Unbounded, s0, before);
    assert DataOk(later, isnA, s.a.emitted);
    t, run := HoleIsRepaired(s, isnA, isnB, later, now);
  }
}
