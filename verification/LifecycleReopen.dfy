/** A machine that is opened a second time: when its next close still waits for both FINs. */
module LifecycleReopen {
  import opened Prelude
  import opened Packets
  import opened Lifecycle
  import opened LifecycleLocal

  /** Closed, with nothing pending, as every machine is at first and after each close. */
  predicate AtRest(m: Machine)
  {
    m.state.Closed? && m.pending.None? && m.retries == 0
  }

  /** The life such a machine starts if it is opened now. */
  function NextLife(m: Machine): Life
  {
    Life(m, false, [], [], [])
  }

  /** In the next life, whatever happens, a packet closes the machine only after it heard a FIN and a FIN_ACK. */
  ghost predicate ClosesFairly(m: Machine)
  {
    forall ms: seq<Moment>, p: Packet, now: real ::
      !Over(LiveAll(NextLife(m), ms)) && Over(Live(LiveAll(NextLife(m), ms), Receive(p), now)) ==>
        Heard(Live(LiveAll(NextLife(m), ms), Receive(p), now), FIN) && Heard(Live(LiveAll(NextLife(m), ms), Receive(p), now), FIN_ACK)
  }

  lemma FairWhenClear(m: Machine)
    requires AtRest(m) && !m.finAcked && !m.peerFinAcked
    ensures ClosesFairly(m)
  {
    forall ms: seq<Moment>, p: Packet, now: real |
      !Over(LiveAll(NextLife(m), ms)) && Over(Live(LiveAll(NextLife(m), ms), Receive(p), now))
      ensures var l := Live(LiveAll(NextLife(m), ms), Receive(p), now); Heard(l, FIN) && Heard(l, FIN_ACK)
    {
      var l := LiveAll(NextLife(m), ms);
      LiveAllKeepsOk(NextLife(m), ms);
      LiveKeepsOk(l, Receive(p), now);
      StepSurfaces(l.m, Receive(p), now);
      ClosingPacket(l.m, p, now);
    }
  }

  /** Packets a peer of `m` sends under `sid`. */
  function FromPeer(sid: int, ptype: PacketType): Packet
  {
    Make(sid, ptype, 0, 0, FLAG_NONE)
  }

  /** Opened, shaken hands and closed by its application, all at time 0. */
  function Reopening(m: Machine): seq<Moment>
  {
    if m.cfg.initiator then [Moment(Opening, 0.0), Moment(Receive(FromPeer(m.sid, SYN_ACK)), 0.0), Moment(Closing, 0.0)]
    else [Moment(Receive(FromPeer(m.sid, SYN)), 0.0), Moment(Receive(FromPeer(m.sid, ACK)), 0.0), Moment(Closing, 0.0)]
  }

  lemma ThreeMoments(l: Life, a: Moment, b: Moment, c: Moment)
    ensures LiveAll(l, [a, b, c]) == Live(Live(Live(l, a.inp, a.now), b.inp, b.now), c.inp, c.now)
  {
    LiveFirst(l, a, [b, c]);
    LiveFirst(Live(l, a.inp, a.now), b, [c]);
    LiveFirst(Live(Live(l, a.inp, a.now), b.inp, b.now), c, []);
    assert [a] + [b, c] == [a, b, c] && [b] + [c] == [b, c] && [c] + [] == [c];
  }

  lemma LiveFirst(l: Life, a: Moment, rest: seq<Moment>)
    ensures LiveAll(l, [a] + rest) == LiveAll(Live(l, a.inp, a.now), rest)
  {
    assert ([a] + rest)[1..] == rest;
  }

  lemma ReopeningWaits(m: Machine)
    requires AtRest(m)
    ensures var l := LiveAll(NextLife(m), Reopening(m));
      && l.m.state.FinWait? && l.m.sid == m.sid && l.begun && l.m.finAcked == m.finAcked && l.m.peerFinAcked == m.peerFinAcked
      && forall p :: p in l.received ==> p.ptype != FIN && p.ptype != FIN_ACK
  {
    var ms := Reopening(m);
    ThreeMoments(NextLife(m), ms[0], ms[1], ms[2]);
  }

  /** The unfair close: one packet, where two kinds were owed. */
  lemma ClosedByOne(l: Life, t: PacketType, now: real)
    requires l.m.state.FinWait? && l.begun && ((t == FIN_ACK && l.m.peerFinAcked) || (t == FIN && l.m.finAcked))
    requires forall p :: p in l.received ==> p.ptype != FIN && p.ptype != FIN_ACK
    ensures var l' := Live(l, Receive(FromPeer(l.m.sid, t)), now);
      Over(l') && !(Heard(l', FIN) && Heard(l', FIN_ACK)) && l'.events == l.events + [CLOSED]
  {
  }

  lemma UnfairWhenSet(m: Machine)
    requires AtRest(m) && (m.finAcked || m.peerFinAcked)
    ensures !ClosesFairly(m)
  {
    var l := LiveAll(NextLife(m), Reopening(m));
    var t := if m.peerFinAcked then FIN_ACK else FIN;
    ReopeningWaits(m);
    ClosedByOne(l, t, 0.0);
    assert Over(Live(LiveAll(NextLife(m), Reopening(m)), Receive(FromPeer(l.m.sid, t)), 0.0));
  }

  /** The promise that a close waits for both FINs, and exactly when the next life keeps it: if and only if
      neither flag is left over from an earlier one. */
  lemma ClosesFairlyIffClear(m: Machine)
    requires AtRest(m)
    ensures ClosesFairly(m) <==> !m.finAcked && !m.peerFinAcked
  {
    if m.finAcked || m.peerFinAcked {
      UnfairWhenSet(m);
    } else {
      FairWhenClear(m);
    }
  }

  /** So the life after any graceful close does not keep it: connect, close() and one FIN_ACK end it. */
  lemma GracefulCloseSpoilsTheNext(cfg: Settings, sid: int, ms: seq<Moment>, p: Packet, now: real)
    requires !Over(LiveAll(NewLife(cfg, sid), ms))
    requires Over(Live(LiveAll(NewLife(cfg, sid), ms), Receive(p), now))
    ensures var m := Live(LiveAll(NewLife(cfg, sid), ms), Receive(p), now).m; var l := LiveAll(NextLife(m), Reopening(m));
      && AtRest(m) && !ClosesFairly(m)
      && !Over(l) && Over(Live(l, Receive(FromPeer(m.sid, FIN_ACK)), 0.0))
  {
    PacketClosesOnlyAfterBothFins(cfg, sid, ms, p, now);
    var l := LiveAll(NewLife(cfg, sid), ms);
    EveryLifeIsOk(cfg, sid, ms);
    LiveKeepsOk(l, Receive(p), now);
    var m := Live(l, Receive(p), now).m;
    UnfairWhenSet(m);
    ReopeningWaits(m);
    ClosedByOne(LiveAll(NextLife(m), Reopening(m)), FIN_ACK, 0.0);
  }
}
