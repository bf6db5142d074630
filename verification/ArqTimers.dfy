/** What a tick sends again: the packets that are due, as long as none of them has spent its budget, and
    no others. */
module ArqTimers {
  import opened Prelude
  import opened Packets
  import opened Rto
  import opened ArqModel
  import opened ArqSafety
  import opened ArqSystem
  import opened ArqTheorems
  import opened ArqHistory
  import opened ArqRepair

  /** Some entry whose time-out has run out was sent again `cap` times already. */
  predicate SpentAmong(out: seq<Outstanding>, upTo: nat, now: real, rto: real, cap: nat)
    requires upTo <= |out|
  {
    exists j :: 0 <= j < upTo && now - out[j].sendTime >= rto && out[j].retx >= cap
  }

  /** Entry `i` is sent again: its own time-out has run out, and no entry up to it is due with its budget spent. */
  predicate SentAgain(out: seq<Outstanding>, i: nat, now: real, rto: real, cap: nat)
    requires i < |out|
  {
    now - out[i].sendTime >= rto && !SpentAmong(out, i + 1, now, rto, cap)
  }

  /** The packets of the entries from `i` on that are sent again, in order. */
  function PacketsAgain(out: seq<Outstanding>, i: nat, now: real, rto: real, cap: nat): seq<Packet>
    requires i <= |out|
    decreases |out| - i
  {
    if i == |out| then []
    else (if SentAgain(out, i, now, rto, cap) then [out[i].packet] else []) + PacketsAgain(out, i + 1, now, rto, cap)
  }

  lemma {:induction false} NothingAfterSpent(out: seq<Outstanding>, i: nat, now: real, rto: real, cap: nat)
    requires i < |out| && SpentAmong(out, i + 1, now, rto, cap)
    ensures PacketsAgain(out, i, now, rto, cap) == []
    ensures forall j :: i <= j < |out| ==> !SentAgain(out, j, now, rto, cap)
    decreases |out| - i
  {
    var k :| 0 <= k < i + 1 && now - out[k].sendTime >= rto && out[k].retx >= cap;
    if i + 1 < |out| {
      NothingAfterSpent(out, i + 1, now, rto, cap);
    }
  }

  /** What a scan makes of the entries from `i` on. */
  predicate Selects(out: seq<Outstanding>, i: nat, t: Ticked, now: real, rto: real, cap: nat)
    requires i <= |out|
  {
    && |t.out| == |out| - i
    && (forall j :: i <= j < |out| ==>
          t.out[j - i] == if SentAgain(out, j, now, rto, cap) then out[j].(sendTime := now, retx := out[j].retx + 1) else out[j])
    && t.packets == PacketsAgain(out, i, now, rto, cap)
    && (t.exhausted <==> SpentAmong(out, |out|, now, rto, cap))
  }

  lemma {:induction false} ScanSelects(out: seq<Outstanding>, i: nat, now: real, rto: real, cap: nat)
    requires i <= |out| && !SpentAmong(out, i, now, rto, cap)
    ensures Selects(out, i, TickScan(out[i..], now, rto, cap), now, rto, cap)
    decreases |out| - i
  {
    if i < |out| {
      assert out[i..][1..] == out[i + 1..];
      if now - out[i].sendTime >= rto && out[i].retx >= cap {
        NothingAfterSpent(out, i, now, rto, cap);
      } else {
        ScanSelects(out, i + 1, now, rto, cap);
      }
    }
  }

  /** A tick of any endpoint: entry by entry, packet by packet, with the failure and the back-off. */
  lemma TickIsSelective(e: Arq, now: real)
    ensures var r := OnTick(e, now); var (out, rto, cap) := (e.snd.out, e.snd.rto.rto, e.cfg.maxRetx);
      && |r.ep.snd.out| == |out|
      && (forall i :: 0 <= i < |out| ==>
            r.ep.snd.out[i] == if !e.snd.failed && SentAgain(out, i, now, rto, cap)
                               then out[i].(sendTime := now, retx := out[i].retx + 1) else out[i])
      && r.output.packets == (if e.snd.failed then [] else PacketsAgain(out, 0, now, rto, cap))
      && r.output.events == (if !e.snd.failed && SpentAmong(out, |out|, now, rto, cap) then [SEND_FAILED] else [])
      && (r.ep.snd.failed <==> e.snd.failed || SpentAmong(out, |out|, now, rto, cap))
      && r.ep.snd.rto == (if !e.snd.failed && !SpentAmong(out, |out|, now, rto, cap) && (exists i :: 0 <= i < |out| && now - out[i].sendTime >= rto)
                          then e.snd.rto.(rto := if 2.0 * rto < e.snd.rto.maxRto then 2.0 * rto else e.snd.rto.maxRto) else e.snd.rto)
  {
    var (out, rto, cap) := (e.snd.out, e.snd.rto.rto, e.cfg.maxRetx);
    ScanSelects(out, 0, now, rto, cap);
    assert out[0..] == out;
    if NoneExpired(e.snd, now) {
      NothingDue(out, 0, now, rto, cap);
    }
  }

  lemma {:induction false} NothingDue(out: seq<Outstanding>, i: nat, now: real, rto: real, cap: nat)
    requires i <= |out| && forall j :: 0 <= j < |out| ==> now - out[j].sendTime < rto
    ensures PacketsAgain(out, i, now, rto, cap) == []
    decreases |out| - i
  {
    if i < |out| {
      NothingDue(out, i + 1, now, rto, cap);
    }
  }

  // ---- over runs -----------------------------------------------------------------------------

  /** How the transmission times of one position grow in a step: not at all, or by one transmission now,
      which is the first, or asked for by a NACK, or comes a whole time-out after the one before. */
  predicate Spaced(before: seq<real>, after: seq<real>, x: Peer, input: Input, now: real, q: int)
  {
    || after == before
    || (after == before + [now] &&
        (|| before == []
         || (input.Receive? && input.p.ptype == NACK && input.p.ackno == q)
         || (input.Tick? && now - before[|before| - 1] >= x.ep.snd.rto.rto)))
  }

  predicate StepSpaced(x: Peer, input: Input, now: real, q: int)
  {
    Spaced(TimesOf(x.tx, q), TimesOf(StepPeer(Unbounded, x, input, now).tx, q), x, input, now, q)
  }

  lemma EmittedSpaced(x: Peer, input: Input, e: Arq, s: Sender, chunks: seq<bytes>, pending: seq<bytes>, now: real, q: int)
    requires AllRecorded(x.ep.snd, x.tx) && s.next == x.ep.snd.next
    requires React(Unbounded, x.ep, input, now).output.packets == WithEmitted(e, s, chunks, pending, now).packets
    ensures StepSpaced(x, input, now, q)
  {
    var added := DataTx(WithEmitted(e, s, chunks, pending, now).packets, now);
    TimesAppend(x.tx, added, q);
    NewEntriesTx(e, s.next, chunks, now, q);
    var times := k => TimesOf(x.tx, k);
    assert s.next <= q ==> times(q) == [];
  }

  /** What a tick adds at a position comes a time-out after the record of that position ends. */
  lemma StampWasDue(e: Arq, tx: seq<Tx>, now: real, q: int)
    requires AllRecorded(e.snd, tx) && DataRun(e.snd.out, Una(e.snd)) && !e.snd.failed && !NoneExpired(e.snd, now)
    ensures var t := TickScan(e.snd.out, now, e.snd.rto.rto, e.cfg.maxRetx);
      && |t.out| == |e.snd.out|
      && (StampTimes(e.snd.out, t.out, Una(e.snd), now, q) == [now] ==>
            TimesOf(tx, q) != [] && now - TimesOf(tx, q)[|TimesOf(tx, q)| - 1] >= e.snd.rto.rto)
  {
    var i := q - Una(e.snd);
    TickIsSelective(e, now);
    if 0 <= i < |e.snd.out| {
      var times := k => TimesOf(tx, k);
      assert Recorded(e.snd.out[i], times(Una(e.snd) + i));
      NotResent(e.snd.out[i], now);
    }
  }

  lemma TickSpaced(x: Peer, y: Peer, isn: int, clock: real, now: real, q: int)
    requires Flow(x, y, isn, clock) && clock <= now && AllRecorded(x.ep.snd, x.tx)
    ensures StepSpaced(x, Tick, now, q)
  {
    var (e, s) := (x.ep, x.ep.snd);
    WindowIsDataRun(e.cfg.window, s, isn, x.emitted, clock);
    if s.failed || NoneExpired(s, now) {
      assert x.tx + DataTx([], now) == x.tx;
    } else {
      TickAdds(s, x.tx, now, s.rto.rto, e.cfg.maxRetx, q);
      StampWasDue(e, x.tx, now, q);
    }
  }

  lemma NackSpaced(x: Peer, y: Peer, isn: int, clock: real, p: Packet, now: real, q: int)
    requires Flow(x, y, isn, clock) && clock <= now && p.ptype == NACK && p.session == x.ep.session
    ensures StepSpaced(x, Receive(p), now, q)
  {
    NackSendsTheHole(x, y, isn, clock, p, now);
    TimesAppend(x.tx, [Tx(p.ackno, now)], q);
    assert [Tx(p.ackno, now)][1..] == [];
  }

  lemma StepIsSpaced(x: Peer, y: Peer, isn: int, clock: real, input: Input, now: real, q: int)
    requires Flow(x, y, isn, clock) && clock <= now && AllRecorded(x.ep.snd, x.tx)
    ensures StepSpaced(x, input, now, q)
  {
    var e := x.ep;
    SenderOkLater(e.cfg.window, e.snd, isn, x.emitted, clock, now);
    match input
    case Tick => TickSpaced(x, y, isn, clock, now, q);
    case Submit(data) =>
      var chunks := Chunks(data, e.cfg.maxPayload);
      var n := Least(Room(e.cfg.window, e.snd), |chunks|);
      KeysAreBelow(e.cfg.window, e.snd, isn, x.emitted, now);
      SendFillsWindow(e, e.snd, chunks, now);
      EmittedSpaced(x, input, e, e.snd, chunks[..n], e.snd.pending + chunks[n..], now, q);
    case Receive(p) =>
      if p.session == e.session && p.ptype == NACK {
        NackSpaced(x, y, isn, clock, p, now, q);
      } else if p.session == e.session && p.ptype == ACK {
        var t := Trimmed(e.snd, p, now);
        var n := Least(Room(e.cfg.window, t), |e.snd.pending|);
        AckEstimates(e, isn, x.emitted, p, now);
        EmittedSpaced(x, input, e, t, e.snd.pending[..n], e.snd.pending[n..], now, q);
      } else {
        DataRecords(e, p, x.tx, now);
        assert x.tx + [] == x.tx;
      }
  }

  /** In every run, at every step, on either side, for every position: whatever is sent again that no NACK
      asked for comes at least the time-out of that moment after its last transmission. */
  lemma EveryRepeatWasDue(session: int, cfgA: Config, cfgB: Config, isnA: int, isnB: int, rtoA: Estimate, rtoB: Estimate,
                          run: seq<Label>, l: Label, q: int)
    requires Legal(Unbounded, Start(session, cfgA, cfgB, isnA, isnB, rtoA, rtoB), run)
    requires Enabled(Run(Unbounded, Start(session, cfgA, cfgB, isnA, isnB, rtoA, rtoB), run), l)
    ensures var s := Run(Unbounded, Start(session, cfgA, cfgB, isnA, isnB, rtoA, rtoB), run);
      StepSpaced(if l.side.A? then s.a else s.b, l.input, l.now, q)
  {
    var s0 := Start(session, cfgA, cfgB, isnA, isnB, rtoA, rtoB);
    var s := Run(Unbounded, s0, run);
    StartInv(session, cfgA, cfgB, isnA, isnB, rtoA, rtoB);
    RunKeepsInv(s0, isnA, isnB, run);
    RunRecords(s0, isnA, isnB, run);
    if l.side.A? {
      StepIsSpaced(s.a, s.b, isnA, s.clock, l.input, l.now, q);
    } else {
      StepIsSpaced(s.b, s.a, isnB, s.clock, l.input, l.now, q);
    }
  }
}
