/** Frames over light (photontcp/optical/channel.py): a rolling nonce in front of each frame sent, and a
    window of recent frames against which captures are compared. */
module Optical {
  import opened Prelude
  import opened Header

  const NONCE_BYTES := 2
  const NONCE_MOD := 0x1_0000
  const DEDUP_DEPTH := 8

  function NonceBytes(n: int): bytes
  {
    [Byte(n, 1), Byte(n, 0)]
  }

  /** What goes on the display when `frame` is the `i`-th one shown. */
  function ChannelFrame(i: nat, frame: bytes): bytes
  {
    NonceBytes(i % NONCE_MOD) + frame
  }

  /** A captured image: which array object it is, and what decodes from it, if anything. */
  datatype Image = Image(id: int, content: Option<bytes>)

  /** The capture thread: the array it last decoded, the frames delivered last (oldest first) with the
      set that mirrors them, and the packets queued so far. */
  datatype Capture = Capture(last: Option<int>, recent: seq<bytes>, recentSet: set<bytes>, inbox: seq<bytes>)

  const FRESH_CAPTURE := Capture(None, [], {}, [])

  /** Depth-bounded append: a full deque loses its oldest element. */
  function Pushed(recent: seq<bytes>, f: bytes): seq<bytes>
  {
    (if |recent| == DEDUP_DEPTH then recent[1..] else recent) + [f]
  }

  /** What a decoded channel frame does. */
  function Admit(c: Capture, f: bytes): Capture
  {
    if |f| < NONCE_BYTES || f in c.recentSet then c
    else
      c.(inbox := c.inbox + [f[NONCE_BYTES..]],
         recent := Pushed(c.recent, f),
         recentSet := (if |c.recent| == DEDUP_DEPTH then c.recentSet - {c.recent[0]} else c.recentSet) + {f})
  }

  function Look(c: Capture, image: Option<Image>): Capture
  {
    match image
    case None => c
    case Some(i) =>
      if c.last == Some(i.id) then c
      else
        var c1 := c.(last := Some(i.id));
        match i.content case None => c1 case Some(f) => Admit(c1, f)
  }

  function LookAll(c: Capture, images: seq<Option<Image>>): Capture
    decreases |images|
  {
    if images == [] then c else LookAll(Look(c, images[0]), images[1..])
  }

  // ---- the mirror ------------------------------------------------------------------------------

  ghost predicate Mirrored(c: Capture)
  {
    && |c.recent| <= DEDUP_DEPTH
    && (forall f :: f in c.recent <==> f in c.recentSet)
    && (forall i, j :: 0 <= i < j < |c.recent| ==> c.recent[i] != c.recent[j])
  }

  /** The set always holds exactly the frames of the bounded queue, which has no frame twice. */
  lemma AdmitKeepsMirror(c: Capture, f: bytes)
    requires Mirrored(c)
    ensures Mirrored(Admit(c, f))
  {
    var c' := Admit(c, f);
    if c' != c {
      var kept := if |c.recent| == DEDUP_DEPTH then c.recent[1..] else c.recent;
      forall g ensures g in c'.recent <==> g in c'.recentSet {
        assert g in kept <==> g in c.recent && !(|c.recent| == DEDUP_DEPTH && g == c.recent[0]);
      }
      forall i, j | 0 <= i < j < |c'.recent| ensures c'.recent[i] != c'.recent[j] {
        if j == |kept| {
          assert kept[i] in c.recent;
        }
      }
    }
  }

  lemma {:induction false} LookAllKeepsMirror(c: Capture, images: seq<Option<Image>>)
    requires Mirrored(c)
    ensures Mirrored(LookAll(c, images))
    decreases |images|
  {
    if images != [] {
      if images[0].Some? && images[0].value.content.Some? {
        AdmitKeepsMirror(c.(last := Some(images[0].value.id)), images[0].value.content.value);
      }
      LookAllKeepsMirror(Look(c, images[0]), images[1..]);
    }
  }

  /** The nonce is the number of the send modulo 65536, in two bytes, in front of the frame. */
  lemma NonceOnTheWire(i: nat, frame: bytes)
    ensures var f := ChannelFrame(i, frame);
      |f| == 2 + |frame| && f[2..] == frame && 256 * f[0] as int + f[1] as int == i % 65536
  {
    SplitJoin2(i % NONCE_MOD);
  }

  function AdmitEach(c: Capture, fs: seq<bytes>): Capture
    decreases |fs|
  {
    if fs == [] then c else AdmitEach(Admit(c, fs[0]), fs[1..])
  }

  /** Each of the frames is long enough and not remembered when its turn comes. */
  predicate EachNew(c: Capture, fs: seq<bytes>)
    decreases |fs|
  {
    fs == [] || (|fs[0]| >= 2 && fs[0] !in c.recentSet && EachNew(Admit(c, fs[0]), fs[1..]))
  }

  function LastEight(fs: seq<bytes>): seq<bytes>
  {
    if |fs| > 8 then fs[|fs| - 8..] else fs
  }

  lemma LastEightOfMore(a: seq<bytes>, f: bytes, rest: seq<bytes>, all: seq<bytes>)
    requires all == [f] + rest
    ensures LastEight(LastEight(a + [f]) + rest) == LastEight(a + all)
  {
    assert a + [f] + rest == a + all;
  }

  lemma AdmitKeepsEight(c: Capture, f: bytes)
    requires |c.recent| <= 8 && |f| >= 2 && f !in c.recentSet
    ensures Admit(c, f).recent == LastEight(c.recent + [f]) && |Admit(c, f).recent| <= 8
  {
  }

  /** What is remembered is exactly the last eight frames let in. */
  lemma {:induction false} RemembersLastEight(c: Capture, fs: seq<bytes>)
    requires |c.recent| <= 8 && EachNew(c, fs)
    ensures AdmitEach(c, fs).recent == LastEight(c.recent + fs)
    decreases |fs|
  {
    if fs == [] {
      assert c.recent + [] == c.recent;
    } else {
      AdmitKeepsEight(c, fs[0]);
      RemembersLastEight(Admit(c, fs[0]), fs[1..]);
      LastEightOfMore(c.recent, fs[0], fs[1..], fs);
    }
  }

  // ---- the identity skip -----------------------------------------------------------------------

  /** The loop with the identity test left out. */
  function AdmitAll(c: Capture, images: seq<Option<Image>>): Capture
    decreases |images|
  {
    if images == [] then c
    else
      AdmitAll(if images[0].Some? && images[0].value.content.Some? then Admit(c, images[0].value.content.value) else c, images[1..])
  }

  /** An array object keeps its content. */
  predicate SameArraySameContent(images: seq<Option<Image>>)
  {
    forall i, j | 0 <= i < |images| && 0 <= j < |images| && images[i].Some? && images[j].Some? ::
      images[i].value.id == images[j].value.id ==> images[i] == images[j]
  }

  /** The image last decoded has nothing more to give. */
  ghost predicate Spent(c: Capture, images: seq<Option<Image>>)
  {
    forall i :: 0 <= i < |images| && images[i].Some? && c.last == Some(images[i].value.id) && images[i].value.content.Some? ==>
      |images[i].value.content.value| < NONCE_BYTES || images[i].value.content.value in c.recentSet
  }

  /** Skipping an array already decoded changes nothing but time. */
  lemma {:induction false} IdentitySkipIsInvisible(c: Capture, images: seq<Option<Image>>)
    requires SameArraySameContent(images) && Spent(c, images)
    ensures AdmitAll(c, images).(last := None) == LookAll(c, images).(last := None)
    decreases |images|
  {
    if images != [] {
      var c1 := Look(c, images[0]);
      assert forall i :: 0 <= i < |images| - 1 ==> images[1..][i] == images[i + 1];
      SpentStays(c, images);
      IdentitySkipIsInvisible(c1, images[1..]);
      if images[0].Some? && images[0].value.content.Some? {
        LastDoesNotMatter(Admit(c, images[0].value.content.value), c1, images[1..]);
      } else {
        LastDoesNotMatter(c, c1, images[1..]);
      }
    }
  }

  lemma SpentStays(c: Capture, images: seq<Option<Image>>)
    requires SameArraySameContent(images) && Spent(c, images) && images != []
    ensures Spent(Look(c, images[0]), images[1..])
  {
    var c1 := Look(c, images[0]);
    forall i | 0 <= i < |images| - 1 && images[1..][i].Some? && c1.last == Some(images[1..][i].value.id)
      && images[1..][i].value.content.Some?
      ensures |images[1..][i].value.content.value| < NONCE_BYTES || images[1..][i].value.content.value in c1.recentSet
    {
      assert images[1..][i] == images[i + 1];
      assert images[0].Some? ==> images[0].value.id == images[i + 1].value.id;
    }
  }

  lemma {:induction false} LastDoesNotMatter(c: Capture, c': Capture, images: seq<Option<Image>>)
    requires c.(last := None) == c'.(last := None)
    ensures AdmitAll(c, images).(last := None) == AdmitAll(c', images).(last := None)
    decreases |images|
  {
    if images != [] {
      if images[0].Some? && images[0].value.content.Some? {
        LastDoesNotMatter(Admit(c, images[0].value.content.value), Admit(c', images[0].value.content.value), images[1..]);
      } else {
        LastDoesNotMatter(c, c', images[1..]);
      }
    }
  }

  // ---- each captured frame once ----------------------------------------------------------------

  lemma NonceDecides(i: nat, j: nat, x: bytes, y: bytes)
    requires ChannelFrame(i, x) == ChannelFrame(j, y) && -NONCE_MOD < i - j < NONCE_MOD
    ensures i == j
  {
    var (f, g) := (ChannelFrame(i, x), ChannelFrame(j, y));
    assert f[0] == Byte(i % NONCE_MOD, 1) && f[1] == Byte(i % NONCE_MOD, 0);
    assert g[0] == Byte(j % NONCE_MOD, 1) && g[1] == Byte(j % NONCE_MOD, 0);
    SplitJoin2(i % NONCE_MOD);
    SplitJoin2(j % NONCE_MOD);
    SameResidue(i, j);
  }

  lemma SameResidue(i: nat, j: nat)
    requires i % NONCE_MOD == j % NONCE_MOD && -NONCE_MOD < i - j < NONCE_MOD
    ensures i == j
  {
  }

  predicate AllSent(sent: seq<bytes>, ks: seq<nat>)
  {
    forall i :: 0 <= i < |ks| ==> ks[i] < |sent|
  }

  /** Capturing, in turn, the frames sent as numbers `ks`. */
  function AdmitShots(c: Capture, sent: seq<bytes>, ks: seq<nat>): Capture
    requires AllSent(sent, ks)
    decreases |ks|
  {
    if ks == [] then c else AdmitShots(Admit(c, ChannelFrame(ks[0], sent[ks[0]])), sent, ks[1..])
  }

  /** The numbers in order of their first capture. */
  function FirstCaptures(done: seq<nat>, ks: seq<nat>): (r: seq<nat>)
    decreases |ks|
  {
    if ks == [] then done else FirstCaptures(if ks[0] in done then done else done + [ks[0]], ks[1..])
  }

  function Lately(done: seq<nat>): (r: seq<nat>)
    ensures |r| <= DEDUP_DEPTH
  {
    if |done| > DEDUP_DEPTH then done[|done| - DEDUP_DEPTH..] else done
  }

  /** The numbers still compared against lie less than one nonce cycle away. */
  predicate Near(done: seq<nat>, k: nat)
  {
    forall i :: 0 <= i < |Lately(done)| ==> -NONCE_MOD < Lately(done)[i] - k < NONCE_MOD
  }

  predicate NearAll(done: seq<nat>, ks: seq<nat>)
    decreases |ks|
  {
    ks == [] || (Near(done, ks[0]) && NearAll(if ks[0] in done then done else done + [ks[0]], ks[1..]))
  }

  /** A frame seen again is among the eight delivered last. */
  predicate SeenLately(done: seq<nat>, ks: seq<nat>)
    decreases |ks|
  {
    ks == [] || ((ks[0] in done ==> ks[0] in Lately(done))
                 && SeenLately(if ks[0] in done then done else done + [ks[0]], ks[1..]))
  }

  function FramesOf(sent: seq<bytes>, ks: seq<nat>): (r: seq<bytes>)
    requires AllSent(sent, ks)
    ensures |r| == |ks| && forall i :: 0 <= i < |ks| ==> r[i] == ChannelFrame(ks[i], sent[ks[i]])
  {
    seq(|ks|, i requires 0 <= i < |ks| => ChannelFrame(ks[i], sent[ks[i]]))
  }

  function PayloadsOf(sent: seq<bytes>, ks: seq<nat>): (r: seq<bytes>)
    requires AllSent(sent, ks)
    ensures |r| == |ks| && forall i :: 0 <= i < |ks| ==> r[i] == sent[ks[i]]
  {
    seq(|ks|, i requires 0 <= i < |ks| => sent[ks[i]])
  }

  /** The capture thread after delivering exactly the frames numbered `done`, in that order. */
  ghost predicate Delivered(c: Capture, sent: seq<bytes>, done: seq<nat>)
  {
    && AllSent(sent, done) && Mirrored(c)
    && c.recent == FramesOf(sent, Lately(done))
    && c.inbox == PayloadsOf(sent, done)
  }

  /** One capture keeps to the plan exactly when a frame seen before was delivered lately. */
  lemma OneCapture(c: Capture, sent: seq<bytes>, done: seq<nat>, k: nat)
    requires Delivered(c, sent, done) && k < |sent| && Near(done, k)
    ensures var done' := if k in done then done else done + [k];
      Delivered(Admit(c, ChannelFrame(k, sent[k])), sent, done') <==> (k in done ==> k in Lately(done))
    ensures k in done && k !in Lately(done) ==>
      Admit(c, ChannelFrame(k, sent[k])).inbox == c.inbox + [sent[k]]
  {
    var f := ChannelFrame(k, sent[k]);
    var late := Lately(done);
    InWindow(c, sent, done, k);
    AdmitKeepsMirror(c, f);
    assert f[NONCE_BYTES..] == sent[k];
    if f !in c.recentSet {
      var c' := Admit(c, f);
      assert PayloadsOf(sent, done + [k]) == PayloadsOf(sent, done) + [sent[k]];
      NextWindow(sent, done, k);
      assert c'.inbox == c.inbox + [sent[k]];
    }
  }

  lemma InWindow(c: Capture, sent: seq<bytes>, done: seq<nat>, k: nat)
    requires Delivered(c, sent, done) && k < |sent| && Near(done, k)
    ensures ChannelFrame(k, sent[k]) in c.recentSet <==> k in Lately(done)
  {
    var f := ChannelFrame(k, sent[k]);
    var late := Lately(done);
    if f in c.recentSet {
      var i :| 0 <= i < |c.recent| && c.recent[i] == f;
      NonceDecides(late[i], k, sent[late[i]], sent[k]);
    }
    if k in late {
      var i :| 0 <= i < |late| && late[i] == k;
      assert c.recent[i] == f;
    }
  }

  lemma NextWindow(sent: seq<bytes>, done: seq<nat>, k: nat)
    requires AllSent(sent, done) && k < |sent|
    ensures FramesOf(sent, Lately(done + [k])) == Pushed(FramesOf(sent, Lately(done)), ChannelFrame(k, sent[k]))
  {
  }

  /** After every capture the inbox is the packets of the frames captured so far, each once, in order
      of their first capture. */
  ghost predicate StaysExact(c: Capture, sent: seq<bytes>, done: seq<nat>, ks: seq<nat>)
    requires AllSent(sent, done) && AllSent(sent, ks)
    decreases |ks|
  {
    ks == [] ||
    (var done' := if ks[0] in done then done else done + [ks[0]];
     var c' := Admit(c, ChannelFrame(ks[0], sent[ks[0]]));
     c'.inbox == PayloadsOf(sent, done') && StaysExact(c', sent, done', ks[1..]))
  }

  /** While the window spans less than a nonce cycle, each captured frame enters the inbox exactly once,
      in order of first capture, if and only if no frame is captured again after eight others. */
  lemma {:induction false} ExactlyOnceIffSeenLately(c: Capture, sent: seq<bytes>, done: seq<nat>, ks: seq<nat>)
    requires Delivered(c, sent, done) && AllSent(sent, ks) && NearAll(done, ks)
    ensures StaysExact(c, sent, done, ks) <==> SeenLately(done, ks)
    ensures SeenLately(done, ks) ==> Delivered(AdmitShots(c, sent, ks), sent, FirstCaptures(done, ks))
    decreases |ks|
  {
    if ks != [] {
      var k := ks[0];
      var done' := if k in done then done else done + [k];
      OneCapture(c, sent, done, k);
      if k in done ==> k in Lately(done) {
        ExactlyOnceIffSeenLately(Admit(c, ChannelFrame(k, sent[k])), sent, done', ks[1..]);
      } else {
        assert |Admit(c, ChannelFrame(k, sent[k])).inbox| == |PayloadsOf(sent, done')| + 1;
      }
    }
  }

  /** From the start of a channel: what `recv_frame` will return is every captured packet, once. */
  lemma EveryCaptureOnce(sent: seq<bytes>, ks: seq<nat>)
    requires AllSent(sent, ks) && NearAll([], ks) && SeenLately([], ks)
    ensures AllSent(sent, FirstCaptures([], ks))
    ensures AdmitShots(FRESH_CAPTURE, sent, ks).inbox == PayloadsOf(sent, FirstCaptures([], ks))
  {
    assert FramesOf(sent, Lately([])) == [] && PayloadsOf(sent, []) == [];
    ExactlyOnceIffSeenLately(FRESH_CAPTURE, sent, [], ks);
  }

  /** With fewer than 65536 frames sent there is no nonce to confuse: only lateness can repeat a packet. */
  lemma {:induction false} ShortLinksAreNear(sent: seq<bytes>, done: seq<nat>, ks: seq<nat>)
    requires |sent| < NONCE_MOD && AllSent(sent, done) && AllSent(sent, ks)
    ensures NearAll(done, ks)
    decreases |ks|
  {
    if ks != [] {
      ShortLinksAreNear(sent, if ks[0] in done then done else done + [ks[0]], ks[1..]);
    }
  }

  // ---- from images to packets ------------------------------------------------------------------

  /** What sending `frames` shows, the next nonce being `nonce`. */
  function ShowAll(nonce: int, frames: seq<bytes>): (shown: seq<bytes>)
    ensures |shown| == |frames|
    decreases |frames|
  {
    if frames == [] then [] else [NonceBytes(nonce) + frames[0]] + ShowAll((nonce + 1) % NONCE_MOD, frames[1..])
  }

  lemma {:induction false} FramesAreNumbered(n: nat, frames: seq<bytes>)
    ensures forall i :: 0 <= i < |frames| ==> ShowAll(n % NONCE_MOD, frames)[i] == ChannelFrame(n + i, frames[i])
    decreases |frames|
  {
    if frames != [] {
      assert (n % NONCE_MOD + 1) % NONCE_MOD == (n + 1) % NONCE_MOD;
      FramesAreNumbered(n + 1, frames[1..]);
      forall i | 0 <= i < |frames| ensures ShowAll(n % NONCE_MOD, frames)[i] == ChannelFrame(n + i, frames[i]) {
        if i > 0 {
          assert ShowAll((n + 1) % NONCE_MOD, frames[1..])[i - 1] == ChannelFrame(n + 1 + (i - 1), frames[1..][i - 1]);
        }
      }
    }
  }

  /** The decodable images are, in order, the frames sent as numbers `ks`; others decode to nothing or
      to something too short. */
  predicate Films(images: seq<Option<Image>>, sent: seq<bytes>, ks: seq<nat>)
    requires AllSent(sent, ks)
    decreases |images|
  {
    if images == [] then ks == []
    else if images[0].None? || images[0].value.content.None? || |images[0].value.content.value| < NONCE_BYTES then
      Films(images[1..], sent, ks)
    else
      ks != [] && images[0].value.content.value == ChannelFrame(ks[0], sent[ks[0]]) && Films(images[1..], sent, ks[1..])
  }

  lemma {:induction false} FilmIsShots(c: Capture, images: seq<Option<Image>>, sent: seq<bytes>, ks: seq<nat>)
    requires AllSent(sent, ks) && Films(images, sent, ks)
    ensures AdmitAll(c, images) == AdmitShots(c, sent, ks)
    decreases |images|
  {
    if images != [] {
      if images[0].None? || images[0].value.content.None? || |images[0].value.content.value| < NONCE_BYTES {
        FilmIsShots(c, images[1..], sent, ks);
      } else {
        FilmIsShots(Admit(c, images[0].value.content.value), images[1..], sent, ks[1..]);
      }
    }
  }

  /** The whole receiving side: however often, and however garbled in between, the camera sees the
      frames, each captured packet is queued once, in order of first capture. */
  lemma EveryFilmedPacketOnce(images: seq<Option<Image>>, sent: seq<bytes>, ks: seq<nat>)
    requires AllSent(sent, ks) && Films(images, sent, ks) && SameArraySameContent(images)
    requires NearAll([], ks) && SeenLately([], ks)
    ensures AllSent(sent, FirstCaptures([], ks))
    ensures LookAll(FRESH_CAPTURE, images).inbox == PayloadsOf(sent, FirstCaptures([], ks))
  {
    IdentitySkipIsInvisible(FRESH_CAPTURE, images);
    FilmIsShots(FRESH_CAPTURE, images, sent, ks);
    EveryCaptureOnce(sent, ks);
  }

  // ---- the object ------------------------------------------------------------------------------

  /** One end: it shows frames and watches for those of the other end. `capacity` is the longest frame
      a code can carry. */
  class OpticalChannel {
    const capacity: nat
    var sendNonce: int
    var closed: bool
    var inbox: seq<bytes>

    predicate Valid()
      reads this
    {
      0 <= sendNonce < NONCE_MOD
    }

    constructor (capacity: nat)
      ensures Valid() && sendNonce == 0 && !closed && inbox == []
    {
      this.capacity, sendNonce, closed, inbox := capacity, 0, false, [];
    }

    /** What goes on the display; `fits` is false where the encoder raises, which uses up no nonce. A
        closed channel shows nothing. */
    method SendFrame(frame: bytes) returns (shown: Option<bytes>, fits: bool)
      requires Valid()
      modifies this`sendNonce
      ensures Valid()
      ensures fits <==> closed || NONCE_BYTES + |frame| <= capacity
      ensures shown == if closed || !fits then None else Some(NonceBytes(old(sendNonce)) + frame)
      ensures sendNonce == if shown.Some? then (old(sendNonce) + 1) % NONCE_MOD else old(sendNonce)
    {
      if closed {
        return None, true;
      }
      var channelFrame := NonceBytes(sendNonce) + frame;
      if |channelFrame| > capacity {
        return None, false;
      }
      shown, fits := Some(channelFrame), true;
      sendNonce := (sendNonce + 1) % NONCE_MOD;
    }

    /** The capture loop over the images the camera gives until the channel is closed. */
    method CaptureLoop(images: seq<Option<Image>>)
      requires inbox == []
      modifies this`inbox
      ensures inbox == LookAll(FRESH_CAPTURE, images).inbox
    {
      var last: Option<int> := None;
      var recent: seq<bytes> := [];
      var recentSet: set<bytes> := {};
      ghost var all := LookAll(FRESH_CAPTURE, images);
      var i := 0;
      while i < |images|
        invariant 0 <= i <= |images|
        invariant all == LookAll(Capture(last, recent, recentSet, inbox), images[i..])
      {
        assert images[i..][0] == images[i] && images[i..][1..] == images[i + 1..];
        if images[i].Some? && last != Some(images[i].value.id) {
          last := Some(images[i].value.id);
          if images[i].value.content.Some? {
            var f := images[i].value.content.value;
            if |f| >= NONCE_BYTES && f !in recentSet {
              inbox := inbox + [f[NONCE_BYTES..]];
              if |recent| == DEDUP_DEPTH {
                recentSet := recentSet - {recent[0]};
                recent := recent[1..];
              }
              recent, recentSet := recent + [f], recentSet + {f};
            }
          }
        }
        i := i + 1;
      }
    }
  }
}
