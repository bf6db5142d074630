/** The noisy in-memory link (photontcp/channel/loopback.py), its random draws made free choices. */
module Loopback {
  import opened Prelude
  import opened Packets
  import opened Crc
  import opened Header

  /** Where a frame is hit, and the mask its byte is XORed with; never zero. */
  datatype Hit = Hit(idx: nat, mask: bv8)

  /** One draw of the noise for a frame: dropped, or passed on once or twice, perhaps hit, each copy
      perhaps held. */
  datatype Noise = Lost | Kept(hit: Option<Hit>, held: bool) | Doubled(hit: Option<Hit>, heldFirst: bool, heldSecond: bool)

  /** The frame in the one-slot buffer and what the partner has been given. */
  datatype Link = Link(slot: Option<bytes>, out: seq<bytes>)

  /** What the generator can draw for `frame`. */
  predicate Drawn(frame: bytes, n: Noise)
  {
    !n.Lost? && n.hit.Some? ==> n.hit.value.mask != 0 && (frame != [] ==> n.hit.value.idx < |frame|)
  }

  function Damaged(frame: bytes, hit: Option<Hit>): (f: bytes)
    ensures |f| == |frame|
  {
    if hit.None? || hit.value.idx >= |frame| then frame
    else frame[hit.value.idx := FromOctet(Octet(frame[hit.value.idx]) ^ hit.value.mask)]
  }

  function Flushed(l: Link): seq<bytes>
  {
    if l.slot.Some? then l.out + [l.slot.value] else l.out
  }

  /** A copy either takes the slot, releasing what was there, or goes out behind it. */
  function PutCopy(l: Link, f: bytes, held: bool): Link
  {
    if held then Link(Some(f), Flushed(l)) else Link(None, Flushed(l) + [f])
  }

  function Transmit(l: Link, frame: bytes, n: Noise): Link
  {
    match n
    case Lost => l
    case Kept(hit, held) => PutCopy(l, Damaged(frame, hit), held)
    case Doubled(hit, first, second) => PutCopy(PutCopy(l, Damaged(frame, hit), first), Damaged(frame, hit), second)
  }

  /** What survives of one frame, in order. */
  function Copies(frame: bytes, n: Noise): seq<bytes>
  {
    match n
    case Lost => []
    case Kept(hit, _) => [Damaged(frame, hit)]
    case Doubled(hit, _, _) => [Damaged(frame, hit), Damaged(frame, hit)]
  }

  /** The frame that carries a packet, and what the noise decides for it. */
  datatype Sending = Sending(p: Packet, frame: bytes, noise: Noise)

  function TransmitAll(l: Link, ss: seq<Sending>): Link
    decreases |ss|
  {
    if ss == [] then l else TransmitAll(Transmit(l, ss[0].frame, ss[0].noise), ss[1..])
  }

  function AllCopies(ss: seq<Sending>): seq<bytes>
  {
    if ss == [] then [] else Copies(ss[0].frame, ss[0].noise) + AllCopies(ss[1..])
  }

  lemma CopyIsFlushed(l: Link, f: bytes, held: bool)
    ensures Flushed(PutCopy(l, f, held)) == Flushed(l) + [f]
  {
  }

  lemma CopiesAreFlushed(l: Link, frame: bytes, n: Noise)
    ensures Flushed(Transmit(l, frame, n)) == Flushed(l) + Copies(frame, n)
  {
    match n
    case Lost =>
    case Kept(hit, held) => CopyIsFlushed(l, Damaged(frame, hit), held);
    case Doubled(hit, first, second) =>
      var f := Damaged(frame, hit);
      CopyIsFlushed(l, f, first);
      CopyIsFlushed(PutCopy(l, f, first), f, second);
      assert Flushed(l) + [f] + [f] == Flushed(l) + [f, f];
  }

  /** The reorder slot only delays: what the partner gets, then what is still held, is every surviving
      copy in the order of sending, whatever the draws. */
  lemma {:induction false} SlotNeverReorders(l: Link, ss: seq<Sending>)
    ensures Flushed(TransmitAll(l, ss)) == Flushed(l) + AllCopies(ss)
    decreases |ss|
  {
    if ss != [] {
      var l1 := Transmit(l, ss[0].frame, ss[0].noise);
      SlotNeverReorders(l1, ss[1..]);
      CopiesAreFlushed(l, ss[0].frame, ss[0].noise);
      Regroup(Flushed(l), Copies(ss[0].frame, ss[0].noise), AllCopies(ss[1..]));
    }
  }

  lemma Regroup<T>(a: seq<T>, b: seq<T>, c: seq<T>)
    ensures a + b + c == a + (b + c)
  {
  }

  lemma HitCorrupts(frame: bytes, hit: Hit)
    requires hit.mask != 0 && hit.idx < |frame|
    ensures Corrupts(frame, Damaged(frame, Some(hit)), hit.idx, hit.mask)
  {
    OctetRoundTrip(Octet(frame[hit.idx]) ^ hit.mask);
  }

  predicate Sound(s: Sending)
  {
    Pack(s.p) == Some(s.frame) && Drawn(s.frame, s.noise)
  }

  function PacketsSent(ss: seq<Sending>): (packets: seq<Packet>)
    ensures |packets| == |ss| && forall i :: 0 <= i < |ss| ==> packets[i] == ss[i].p
  {
    seq(|ss|, i requires 0 <= i < |ss| => ss[i].p)
  }

  /** A surviving copy of a frame is that frame, or an image of it that the decoder refuses. */
  lemma CopyArrives(s: Sending, f: bytes, sent: seq<Packet>)
    requires Sound(s) && s.p in sent && f in Copies(s.frame, s.noise)
    ensures Arrives(f, sent)
    ensures f == s.frame || Rejected(f)
  {
    assert f == Damaged(s.frame, s.noise.hit);
    if f != s.frame {
      var hit := s.noise.hit.value;
      HitCorrupts(s.frame, hit);
      CorruptionIsDamage(s.frame, f, hit.idx, hit.mask);
      ImpairmentIsRejected(s.p, s.frame, f);
    }
  }

  lemma {:induction false} CopiesArrive(ss: seq<Sending>, f: bytes, sent: seq<Packet>)
    requires (forall i :: 0 <= i < |ss| ==> Sound(ss[i]) && ss[i].p in sent) && f in AllCopies(ss)
    ensures Arrives(f, sent)
    decreases |ss|
  {
    if f in Copies(ss[0].frame, ss[0].noise) {
      CopyArrives(ss[0], f, sent);
    } else {
      CopiesArrive(ss[1..], f, sent);
    }
  }

  /** Whatever the noise does, everything the partner is given arrives from what was sent, so that it is
      one of the packets sent or nothing to the decoder. */
  lemma {:induction false} LinkDelivers(ss: seq<Sending>, f: bytes)
    requires forall i :: 0 <= i < |ss| ==> Sound(ss[i])
    requires f in TransmitAll(Link(None, []), ss).out
    ensures Arrives(f, PacketsSent(ss))
    ensures Rejected(f) || (Unpack(f).Good? && Unpack(f).p in PacketsSent(ss))
  {
    SlotNeverReorders(Link(None, []), ss);
    assert f in Flushed(TransmitAll(Link(None, []), ss));
    forall i | 0 <= i < |ss| ensures ss[i].p in PacketsSent(ss) {
      assert PacketsSent(ss)[i] == ss[i].p;
    }
    CopiesArrive(ss, f, PacketsSent(ss));
    ArrivesSoundOrNotAtAll(f, PacketsSent(ss));
  }

  /** One end of the link. `closed` discards sends and drops what is held. */
  class LoopbackChannel {
    var slot: Option<bytes>
    var outbox: seq<bytes>
    var closed: bool

    function View(): Link
      reads this
    {
      Link(slot, outbox)
    }

    constructor ()
      ensures View() == Link(None, []) && !closed
    {
      slot, outbox, closed := None, [], false;
    }

    /** `noise` is what the draws decide for this frame. */
    method SendFrame(frame: bytes, noise: Noise)
      requires Drawn(frame, noise)
      modifies this`slot, this`outbox
      ensures View() == if closed then old(View()) else Transmit(old(View()), frame, noise)
    {
      if closed {
        return;
      }
      var emit: seq<bytes> := [];
      var survivors := Survivors(frame, noise);
      var i := 0;
      while i < |survivors|
        invariant 0 <= i <= |survivors|
        invariant Link(slot, outbox + emit) == AfterCopies(old(View()), survivors[..i])
      {
        var (f, held) := survivors[i];
        NextCopy(old(View()), survivors, i);
        if held {
          if slot.Some? {
            emit := emit + [slot.value];
          }
          slot := Some(f);
        } else {
          if slot.Some? {
            emit := emit + [slot.value];
            slot := None;
          }
          emit := emit + [f];
        }
        i := i + 1;
      }
      assert survivors[..i] == survivors;
      SurvivorsMakeTheStep(old(View()), frame, noise);
      outbox := outbox + emit;
    }

    method Close()
      modifies this`closed, this`slot
      ensures closed && View() == old(View()).(slot := None)
    {
      closed, slot := true, None;
    }
  }

  function AfterCopies(l: Link, copies: seq<(bytes, bool)>): Link
    decreases |copies|
  {
    if copies == [] then l
    else
      var last := copies[|copies| - 1];
      PutCopy(AfterCopies(l, copies[..|copies| - 1]), last.0, last.1)
  }

  lemma NextCopy(l: Link, copies: seq<(bytes, bool)>, i: nat)
    requires i < |copies|
    ensures AfterCopies(l, copies[..i + 1]) == PutCopy(AfterCopies(l, copies[..i]), copies[i].0, copies[i].1)
  {
    assert copies[..i + 1][..i] == copies[..i];
  }

  /** The copies that are passed on, each with whether it is held. */
  function Survivors(frame: bytes, n: Noise): seq<(bytes, bool)>
  {
    match n
    case Lost => []
    case Kept(hit, held) => [(Damaged(frame, hit), held)]
    case Doubled(hit, first, second) => [(Damaged(frame, hit), first), (Damaged(frame, hit), second)]
  }

  lemma SurvivorsMakeTheStep(l: Link, frame: bytes, n: Noise)
    ensures AfterCopies(l, Survivors(frame, n)) == Transmit(l, frame, n)
  {
    var copies := Survivors(frame, n);
    if |copies| == 2 {
      assert copies[..1] == [copies[0]];
    }
    assert AfterCopies(l, []) == l;
    assert |copies| > 0 ==> AfterCopies(l, [copies[0]]) == PutCopy(l, copies[0].0, copies[0].1);
  }
}
