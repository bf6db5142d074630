/** The lifecycle object itself (photontcp/session/state_machine.py), updated in place; every method does
    exactly what the model step does. */
module LifecycleEngine {
  import opened Prelude
  import opened Packets
  import opened Lifecycle

  class SessionStateMachine {
    const cfg: Settings
    var sid: int
    var seqno: int
    var state: State
    var lastSend: Option<real>
    var lastRecv: Option<real>
    var finAcked: bool
    var peerFinAcked: bool
    var pending: Option<Packet>
    var since: real
    var retries: nat

    function View(): Machine
      reads this
    {
      Machine(cfg, sid, seqno, state, lastSend, lastRecv, finAcked, peerFinAcked, pending, since, retries)
    }

    constructor (cfg: Settings, sid: int)
      ensures View() == NewMachine(cfg, sid)
    {
      this.cfg, this.sid, seqno, state := cfg, sid, cfg.isn, Closed;
      lastSend, lastRecv, finAcked, peerFinAcked := None, None, false, false;
      pending, since, retries := None, 0.0, 0;
    }

    method ArmPending(p: Packet, now: real)
      modifies this`pending, this`since, this`retries
      ensures View() == Armed(old(View()), p, now)
    {
      pending, since, retries := Some(p), now, 0;
    }

    method ClearPending()
      modifies this`pending, this`since, this`retries
      ensures View() == Disarmed(old(View()))
    {
      pending, since, retries := None, 0.0, 0;
    }

    method Connect(now: real) returns (packets: seq<Packet>)
      modifies this
      ensures Outcome(View(), packets, []) == Lifecycle.Connect(old(View()), now)
    {
      packets := [];
      if cfg.initiator && state.Closed? {
        state := SynSent;
        var syn := Make(sid, SYN, cfg.isn, 0, FLAG_SYN);
        lastSend := Some(now);
        ArmPending(syn, now);
        packets := [syn];
      }
    }

    method Close(now: real) returns (packets: seq<Packet>)
      modifies this
      ensures Outcome(View(), packets, []) == Lifecycle.Close(old(View()), now)
    {
      packets := [];
      if state.Established? {
        state := FinWait;
        var fin := Make(sid, FIN, seqno, 0, FLAG_FIN);
        lastSend := Some(now);
        ArmPending(fin, now);
        packets := [fin];
      }
    }

    method NoteActivity(now: real)
      modifies this`lastRecv
      ensures View() == NoteDataActivity(old(View()), now)
    {
      if state.Established? || state.FinWait? || state.CloseWait? {
        lastRecv := Some(now);
      }
    }

    method OnPacket(p: Packet, now: real) returns (packets: seq<Packet>, events: seq<Event>)
      modifies this
      ensures Outcome(View(), packets, events) == Lifecycle.OnPacket(old(View()), p, now)
    {
      packets, events := [], [];
      var responderInitial := state.Closed? && !cfg.initiator && p.ptype == SYN;
      if !responderInitial && p.session != sid {
        return;
      }
      lastRecv := Some(now);
      if responderInitial {
        sid, state := p.session, SynRcvd;
        var reply := Make(sid, SYN_ACK, cfg.isn, p.seqno + 1, FLAG_SYN + FLAG_ACK);
        lastSend := Some(now);
        ArmPending(reply, now);
        packets := [reply];
      } else if state.SynSent? || state.SynRcvd? || (state.Established? && p.ptype == SYN_ACK) {
        packets, events := OnHandshake(p, now);
      } else {
        packets, events := OnTeardown(p, now);
      }
    }

    method OnHandshake(p: Packet, now: real) returns (packets: seq<Packet>, events: seq<Event>)
      requires p.session == sid && lastRecv == Some(now)
      requires state.SynSent? || state.SynRcvd? || (state.Established? && p.ptype == SYN_ACK)
      modifies this
      ensures Outcome(View(), packets, events) == Lifecycle.OnPacket(old(View()), p, now)
    {
      packets, events := [], [];
      if state.SynSent? && p.ptype == SYN_ACK {
        ClearPending();
        state, seqno := Established, cfg.isn + 1;
        lastSend := Some(now);
        packets, events := [Make(sid, ACK, seqno, p.seqno + 1, FLAG_ACK)], [ESTABLISHED];
      } else if state.SynRcvd? && p.ptype == ACK {
        ClearPending();
        state, seqno := Established, cfg.isn + 1;
        events := [ESTABLISHED];
      } else if state.Established? && p.ptype == SYN_ACK {
        lastSend := Some(now);
        packets := [Make(sid, ACK, seqno, p.seqno + 1, FLAG_ACK)];
      }
    }

    method OnTeardown(p: Packet, now: real) returns (packets: seq<Packet>, events: seq<Event>)
      requires p.session == sid && lastRecv == Some(now)
      requires state.FinWait? || state.CloseWait? || (state.Established? && p.ptype != SYN_ACK)
        || (state.Closed? && !Opens(View(), p))
      modifies this
      ensures Outcome(View(), packets, events) == Lifecycle.OnPacket(old(View()), p, now)
    {
      packets, events := [], [];
      if state.Established? && p.ptype == FIN {
        state, peerFinAcked := CloseWait, true;
        var finAck := Make(sid, FIN_ACK, seqno, p.seqno + 1, FLAG_FIN + FLAG_ACK);
        var ownFin := Make(sid, FIN, seqno, 0, FLAG_FIN);
        lastSend := Some(now);
        ArmPending(ownFin, now);
        packets, events := [finAck, ownFin], [PEER_CLOSED];
      } else if state.FinWait? && p.ptype == FIN_ACK {
        ClearPending();
        finAcked := true;
        if peerFinAcked {
          state, events := Closed, [CLOSED];
        }
      } else if state.FinWait? && p.ptype == FIN {
        peerFinAcked := true;
        packets := [Make(sid, FIN_ACK, seqno, p.seqno + 1, FLAG_FIN + FLAG_ACK)];
        lastSend := Some(now);
        if finAcked {
          state, events := Closed, [CLOSED];
        }
      } else if state.CloseWait? && p.ptype == FIN_ACK {
        ClearPending();
        finAcked, state := true, Closed;
        events := [CLOSED];
      }
    }

    method OnTick(now: real) returns (packets: seq<Packet>, events: seq<Event>)
      modifies this
      ensures Outcome(View(), packets, events) == Lifecycle.OnTick(old(View()), now)
    {
      packets, events := [], [];
      if !state.Closed? && lastRecv.Some? && now - lastRecv.value >= cfg.idle {
        var closing := state.FinWait? || state.CloseWait?;
        state := Closed;
        ClearPending();
        events := [if closing then CLOSED else TIMED_OUT];
        return;
      }
      if pending.Some? && now - since >= cfg.controlRto {
        if retries > cfg.maxRetries {
          var establishing := state.SynSent? || state.SynRcvd?;
          state := Closed;
          ClearPending();
          events := [if establishing then CONNECT_FAILED else TIMED_OUT];
          return;
        }
        retries, since, lastSend := retries + 1, now, Some(now);
        packets := [pending.value];
        return;
      }
      if state.Established? && (lastSend.None? || now - lastSend.value >= cfg.heartbeat) {
        lastSend := Some(now);
        packets := [Make(sid, HEARTBEAT, seqno, 0, FLAG_NONE)];
      }
    }
  }
}
