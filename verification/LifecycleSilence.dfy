/** A peer that has gone silent: only timers run, and they end every incarnation. */
module LifecycleSilence {
  import opened Prelude
  import opened Packets
  import opened Lifecycle
  import opened LifecycleLocal

  /** Ticks at the given times with nothing in between; the outcome collects what they gave out. */
  function Ticks(m: Machine, times: seq<real>): Outcome
    decreases |times|
  {
    if times == [] then Idle(m)
    else
      var o := OnTick(m, times[0]);
      var rest := Ticks(o.m, times[1..]);
      Outcome(rest.m, o.packets + rest.packets, o.events + rest.events)
  }

  /** Each tick comes at least `gap` after the one before it, the first that long after `since`. */
  predicate Spaced(since: real, gap: real, times: seq<real>)
    decreases |times|
  {
    times == [] || (times[0] - since >= gap && Spaced(times[0], gap, times[1..]))
  }

  predicate NeverIdle(m: Machine, times: seq<real>)
  {
    forall i :: 0 <= i < |times| ==> !IdleExpired(m, times[i])
  }

  function Copies(p: Packet, n: nat): seq<Packet>
  {
    seq(n, i => p)
  }

  /** How many more times the pending packet may be sent. */
  function Left(m: Machine): int
  {
    m.cfg.maxRetries + 1 - m.retries
  }

  function GiveUpEvent(m: Machine): Event
  {
    if m.state.SynSent? || m.state.SynRcvd? then CONNECT_FAILED else TIMED_OUT
  }

  lemma {:induction false} ClosedStaysQuiet(m: Machine, times: seq<real>)
    requires m.state.Closed? && m.pending.None?
    ensures Ticks(m, times) == Idle(m)
    decreases |times|
  {
    if times != [] {
      ClosedStaysQuiet(m, times[1..]);
    }
  }

  /** One due tick: another copy, or the end. */
  lemma DueTick(m: Machine, now: real)
    requires Shape(m, false) && m.pending.Some? && RetryDue(m, now) && !IdleExpired(m, now)
    ensures var o := OnTick(m, now);
      if Left(m) > 0 then
        Shape(o.m, false) && o.m == m.(retries := m.retries + 1, since := now, lastSend := Some(now))
          && o.packets == [m.pending.value] && o.events == []
      else o.m.state.Closed? && o.m.pending.None? && o.packets == [] && o.events == [GiveUpEvent(m)]
  {
  }

  lemma MoreCopies(p: Packet, n: nat)
    ensures [p] + Copies(p, n) == Copies(p, n + 1)
  {
  }

  lemma StillNotIdle(m: Machine, m1: Machine, times: seq<real>)
    requires times != [] && NeverIdle(m, times)
    requires m1.state == m.state && m1.lastRecv == m.lastRecv && m1.cfg == m.cfg
    ensures NeverIdle(m1, times[1..])
  {
    forall i | 0 <= i < |times| - 1 ensures !IdleExpired(m1, times[1..][i]) {
      assert !IdleExpired(m, times[i + 1]);
    }
  }

  predicate GaveUp(m: Machine, o: Outcome, ticks: nat)
  {
    if ticks <= Left(m) then
      m.pending.Some? && o.packets == Copies(m.pending.value, ticks) && o.events == [] && o.m.state == m.state
        && o.m.retries == m.retries + ticks
    else
      m.pending.Some? && Left(m) >= 0 && o.packets == Copies(m.pending.value, Left(m)) && o.events == [GiveUpEvent(m)] && o.m.state.Closed?
  }

  /** With idle time-out never reached, every spaced tick resends the pending packet until exactly
      maxRetries + 1 copies went out; the next one gives up, with one event that tells why. */
  lemma {:induction false} GivesUpExactly(m: Machine, times: seq<real>)
    requires Shape(m, false) && m.pending.Some?
    requires Spaced(m.since, m.cfg.controlRto, times) && NeverIdle(m, times)
    ensures GaveUp(m, Ticks(m, times), |times|)
    decreases |times|
  {
    if times != [] {
      DueTick(m, times[0]);
      var m1 := OnTick(m, times[0]).m;
      if Left(m) > 0 {
        StillNotIdle(m, m1, times);
        GivesUpExactly(m1, times[1..]);
        MoreCopies(m.pending.value, |Ticks(m1, times[1..]).packets|);
      } else {
        ClosedStaysQuiet(m1, times[1..]);
      }
    }
  }

  /** Whatever the tick times, at most maxRetries + 1 copies of the pending packet are ever sent, and
      in no state but Established is anything else sent. */
  lemma {:induction false} ResendsAreBounded(m: Machine, times: seq<real>)
    requires Shape(m, m.state.Closed?)
    ensures var o := Ticks(m, times);
      && Shape(o.m, o.m.state.Closed?)
      && (!m.state.Established? ==> |o.packets| <= Left(m) && forall p :: p in o.packets ==> m.pending == Some(p))
      && (m.state.Established? ==> forall p :: p in o.packets ==> p.ptype == HEARTBEAT)
      && |o.events| == (if o.m.state == m.state then 0 else 1)
      && (o.m.state == m.state || o.m.state.Closed?)
    decreases |times|
  {
    if m.state.Closed? {
      ClosedStaysQuiet(m, times);
    } else if times != [] {
      ShapeOnTick(m, times[0]);
      var m1 := OnTick(m, times[0]).m;
      if m1.state.Closed? {
        ClosedStaysQuiet(m1, times[1..]);
      } else {
        ResendsAreBounded(m1, times[1..]);
      }
    }
  }

  lemma {:induction false} IdleEnds(m: Machine, times: seq<real>, k: nat)
    requires Shape(m, m.state.Closed?) && k < |times|
    requires m.lastRecv.Some? && times[k] - m.lastRecv.value >= m.cfg.idle
    ensures Ticks(m, times).m.state.Closed?
    decreases |times|
  {
    if m.state.Closed? {
      ClosedStaysQuiet(m, times);
    } else {
      ShapeOnTick(m, times[0]);
      var m1 := OnTick(m, times[0]).m;
      if m1.state.Closed? {
        ClosedStaysQuiet(m1, times[1..]);
      } else {
        assert times[1..][k - 1] == times[k];
        IdleEnds(m1, times[1..], k - 1);
      }
    }
  }

  lemma {:induction false} RetriesEnd(m: Machine, times: seq<real>)
    requires Shape(m, m.state.Closed?) && (m.state.Closed? || m.pending.Some?)
    requires Spaced(m.since, m.cfg.controlRto, times) && |times| > Left(m)
    ensures Ticks(m, times).m.state.Closed?
    decreases |times|
  {
    if m.state.Closed? {
      ClosedStaysQuiet(m, times);
    } else {
      ShapeOnTick(m, times[0]);
      var m1 := OnTick(m, times[0]).m;
      if m1.state.Closed? {
        ClosedStaysQuiet(m1, times[1..]);
      } else {
        RetriesEnd(m1, times[1..]);
      }
    }
  }

  /** A machine that hears nothing more closes: by the retry limit where a packet is pending, by one
      idle time-out where anything was ever heard; and one of the two always applies. */
  lemma SilenceEnds(cfg: Settings, sid: int, ms: seq<Moment>, times: seq<real>)
    ensures var l := LiveAll(NewLife(cfg, sid), ms);
      l.begun ==>
        && (l.m.state.Closed? || l.m.pending.Some? || l.m.lastRecv.Some?)
        && ((l.m.pending.Some? ==> Spaced(l.m.since, cfg.controlRto, times) && |times| >= cfg.maxRetries + 2)
            && (l.m.pending.None? && l.m.lastRecv.Some? ==> exists k :: 0 <= k < |times| && times[k] - l.m.lastRecv.value >= cfg.idle)
            ==> Ticks(l.m, times).m.state.Closed?)
  {
    var l := LiveAll(NewLife(cfg, sid), ms);
    EveryLifeIsOk(cfg, sid, ms);
    SettingsStay(NewLife(cfg, sid), ms);
    if l.begun {
      if l.m.state.Closed? {
        ClosedStaysQuiet(l.m, times);
      } else if l.m.pending.Some? {
        if Spaced(l.m.since, cfg.controlRto, times) && |times| >= cfg.maxRetries + 2 {
          RetriesEnd(l.m, times);
        }
      } else if k: nat :| k < |times| && times[k] - l.m.lastRecv.value >= cfg.idle {
        IdleEnds(l.m, times, k);
      }
    }
  }

  lemma PacketKeepsSettings(m: Machine, p: Packet, now: real)
    ensures OnPacket(m, p, now).m.cfg == m.cfg
  {
  }

  lemma LiveKeepsSettings(l: Life, inp: Input, now: real)
    ensures Live(l, inp, now).m.cfg == l.m.cfg
  {
    if inp.Receive? {
      PacketKeepsSettings(l.m, inp.p, now);
    }
  }

  lemma {:induction false} SettingsStay(l: Life, ms: seq<Moment>)
    ensures LiveAll(l, ms).m.cfg == l.m.cfg
    decreases |ms|
  {
    if ms != [] {
      var l1 := Live(l, ms[0].inp, ms[0].now);
      LiveKeepsSettings(l, ms[0].inp, ms[0].now);
      SettingsStay(l1, ms[1..]);
    }
  }
}
