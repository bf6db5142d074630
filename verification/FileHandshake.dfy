/** A sender and a receiver joined by two ordered byte streams that may be cut into pieces anywhere:
    what holds at every moment of a transfer with automatic acceptance, whatever the offer reads as. */
module FileHandshake {
  import opened Prelude
  import opened Scanning
  import opened Framing
  import opened FileTransfer

  /** `toReceiver` and `toSender` hold the bytes sent and not yet delivered, oldest first. */
  datatype Sys = Sys(s: Sender, r: Receiver, toReceiver: bytes, toSender: bytes, raised: bool)

  datatype Event = Begin | ToReceiver(n: nat) | ToSender(n: nat)

  predicate Enabled(y: Sys, e: Event)
  {
    match e
    case Begin => y.s.state.Idle?
    case ToReceiver(n) => n <= |y.toReceiver|
    case ToSender(n) => n <= |y.toSender|
  }

  ghost function Next(t: Texts, y: Sys, e: Event): Sys
    requires Enabled(y, e)
  {
    match e
    case Begin =>
      var o := Start(t, y.s);
      y.(s := o.s, toReceiver := y.toReceiver + Concat(o.out), raised := y.raised || o.raised)
    case ToReceiver(n) =>
      var o := ReceiverTakes(t, y.r, y.toReceiver[..n]);
      y.(r := o.s, toReceiver := y.toReceiver[n..], toSender := y.toSender + Concat(o.out), raised := y.raised || o.raised)
    case ToSender(n) =>
      var o := SenderTakes(t, y.s, y.toSender[..n]);
      y.(s := o.s, toSender := y.toSender[n..], toReceiver := y.toReceiver + Concat(o.out), raised := y.raised || o.raised)
  }

  ghost predicate Legal(t: Texts, y: Sys, es: seq<Event>)
    decreases |es|
  {
    es == [] || (Enabled(y, es[0]) && Legal(t, Next(t, y, es[0]), es[1..]))
  }

  ghost function Run(t: Texts, y: Sys, es: seq<Event>): Sys
    requires Legal(t, y, es)
    decreases |es|
  {
    if es == [] then y else Run(t, Next(t, y, es[0]), es[1..])
  }

  function StartOf(name: string, data: bytes, chunkSize: pos): Sys
  {
    Sys(NewSender(name, data, chunkSize), NewReceiver(true), [], [], false)
  }

  function OfferOf(t: Texts, s: Sender): Offer
  {
    Offer(s.name, |s.data|, t.sha256(s.data))
  }

  /** Every frame of the transfer fits: the offer, the control bodies and the longest chunk. */
  predicate FramesFit(t: Texts, s: Sender)
  {
    && 1 + |t.writeOffer(OfferOf(t, s))| <= MAX_FRAME_BYTES
    && TextsFit(t)
    && 1 + LongestChunk(s) <= MAX_FRAME_BYTES
  }

  /** How the transfer must end: the offer does not read as one, or names another digest, or is honest. */
  datatype Verdict = Rejected | Mismatched | Verified

  function VerdictOn(t: Texts, s: Sender): Verdict
  {
    match t.readOffer(t.writeOffer(OfferOf(t, s)))
    case None => Rejected
    case Some(meta) => if meta.sha == t.sha256(s.data) then Verified else Mismatched
  }

  // ---- the two conversations -------------------------------------------------------------------

  /** Everything a sender says, in order. */
  function Plan(t: Texts, s: Sender): seq<FileFrame>
  {
    [OfferFrame(t, s)] + (if VerdictOn(t, s).Rejected? then [] else Script(t, s))
  }

  /** Everything a receiver answers, in order. */
  function Replies(t: Texts, s: Sender): seq<FileFrame>
  {
    match VerdictOn(t, s)
    case Rejected => [FileFrame(REJECT, t.empty)]
    case Mismatched => [FileFrame(ACCEPT, t.empty), FileFrame(NOT_OK, t.okFalse)]
    case Verified => [FileFrame(ACCEPT, t.empty), FileFrame(OK, t.okTrue)]
  }

  function Wire(frames: seq<FileFrame>): seq<bytes>
  {
    EncodeUpTo(frames).out
  }

  predicate Sendable(frames: seq<FileFrame>)
  {
    forall i :: 0 <= i < |frames| ==> EncodeFrame(frames[i]).Some?
  }

  /** The file as rebuilt from the first `n` chunks. */
  function FileSoFar(s: Sender, n: nat): bytes
    requires n <= |Chunks(s.data, s.chunkSize)|
  {
    Concat(Chunks(s.data, s.chunkSize)[..n])
  }

  /** The receiver after handling the first `n` frames of the plan. */
  function ReceiverAt(t: Texts, s: Sender, n: nat, buf: bytes): Receiver
    requires n <= |Plan(t, s)|
  {
    if n == 0 then NewReceiver(true).(buf := buf)
    else
      match t.readOffer(t.writeOffer(OfferOf(t, s)))
      case None => Receiver(true, Failed, buf, [], None, false)
      case Some(meta) =>
        if n < |Plan(t, s)| then Receiver(true, Receiving, buf, FileSoFar(s, n - 1), Some(meta), false)
        else if meta.sha == t.sha256(s.data) then Receiver(true, Complete, buf, s.data, Some(meta), true)
        else Receiver(true, Failed, buf, s.data, Some(meta), false)
  }

  /** How many replies that makes. */
  function RepliesAt(t: Texts, s: Sender, n: nat): (d: nat)
    ensures d <= |Replies(t, s)|
  {
    if n == 0 then 0 else if n < |Plan(t, s)| then 1 else |Replies(t, s)|
  }

  // ---- encodings -------------------------------------------------------------------------------

  lemma WireOfMore(first: FileFrame, rest: seq<FileFrame>)
    requires EncodeFrame(first).Some?
    ensures Wire([first] + rest) == [EncodeFrame(first).value] + Wire(rest)
  {
    assert ([first] + rest)[1..] == rest;
  }

  lemma SendableRest(a: seq<FileFrame>)
    requires Sendable(a) && a != []
    ensures EncodeFrame(a[0]).Some? && Sendable(a[1..]) && a == [a[0]] + a[1..]
  {
    assert forall i :: 0 <= i < |a| - 1 ==> a[1..][i] == a[i + 1];
  }

  lemma SendableBoth(a: seq<FileFrame>, b: seq<FileFrame>)
    requires Sendable(a) && Sendable(b)
    ensures Sendable(a + b)
  {
  }

  lemma {:induction false} WireOfParts(a: seq<FileFrame>, b: seq<FileFrame>)
    requires Sendable(a) && Sendable(b)
    ensures Sendable(a + b) && Wire(a + b) == Wire(a) + Wire(b)
    decreases |a|
  {
    SendableBoth(a, b);
    if a == [] {
      assert a + b == b;
    } else {
      var (first, rest) := (a[0], a[1..]);
      SendableRest(a);
      WireOfParts(rest, b);
      WireOfMore(first, rest);
      WireOfMore(first, rest + b);
      assert [first] + (rest + b) == ([first] + rest) + b;
    }
  }

  lemma WireEncodes(frames: seq<FileFrame>)
    requires Sendable(frames)
    ensures Encodes(ReaderOf(FILE_FORMAT), Wire(frames), frames)
  {
    EncodesUnlessTooLong(frames);
    forall i | 0 <= i < |frames| ensures ReaderOf(FILE_FORMAT)(Wire(frames)[i]) == Frame(frames[i], []) {
      FileFrameReads(frames[i]);
    }
  }

  lemma WireOfRest(frames: seq<FileFrame>, k: nat)
    requires Sendable(frames) && k <= |frames|
    ensures |Wire(frames)| == |frames| && Wire(frames)[k..] == Wire(frames[k..])
  {
    EncodesUnlessTooLong(frames);
    EncodesUnlessTooLong(frames[..k]);
    assert frames == frames[..k] + frames[k..];
    WireOfParts(frames[..k], frames[k..]);
  }

  lemma SendableSlices(all: seq<FileFrame>, from: nat, mid: nat, to: nat)
    requires Sendable(all) && from <= mid <= to <= |all|
    ensures Sendable(all[from..mid]) && Sendable(all[mid..to]) && all[from..to] == all[from..mid] + all[mid..to]
  {
    assert forall i :: 0 <= i < mid - from ==> all[from..mid][i] == all[from + i];
    assert forall i :: 0 <= i < to - mid ==> all[mid..to][i] == all[mid + i];
  }

  lemma WireOfSlices(all: seq<FileFrame>, from: nat, mid: nat, to: nat)
    requires Sendable(all) && from <= mid <= to <= |all|
    ensures Wire(all[from..to]) == Wire(all[from..mid]) + Wire(all[mid..to])
  {
    SendableSlices(all, from, mid, to);
    WireOfParts(all[from..mid], all[mid..to]);
  }

  /** What scanning a delivered piece yields when the bytes under way encode `frames`. */
  lemma DeliveryScans(buf: bytes, more: bytes, frames: seq<FileFrame>)
    requires Sendable(frames) && buf + more == Concat(Wire(frames))
    ensures var sc := ScanFile(buf); var k := |sc.items|;
      && !sc.raised && k <= |frames| && sc.items == frames[..k]
      && sc.rest + more == Concat(Wire(frames[k..])) && FrontOf(FILE_FORMAT, sc.rest).Waits?
  {
    ReaderIsSound(FILE_FORMAT);
    WireEncodes(frames);
    PrefixScans(ReaderOf(FILE_FORMAT), buf, more, Wire(frames), frames);
    WireOfRest(frames, |ScanFile(buf).items|);
  }

  // ---- the receiver's side ---------------------------------------------------------------------

  lemma ControlFits(ftype: FileFrameType, body: bytes)
    requires 1 + |body| <= MAX_FRAME_BYTES
    ensures Control(ftype, body) == Encoded(Wire([FileFrame(ftype, body)]), false)
  {
    EncodesUnlessTooLong([FileFrame(ftype, body)]);
  }

  lemma OfferStep(t: Texts, s: Sender, buf: bytes)
    requires FramesFit(t, s)
    ensures ReceiverHandles(t, ReceiverAt(t, s, 0, buf), OfferFrame(t, s))
      == Outcome(ReceiverAt(t, s, 1, buf), Wire([Replies(t, s)[0]]), false)
  {
    assert Chunks(s.data, s.chunkSize)[..0] == [];
    ControlFits(ACCEPT, t.empty);
    ControlFits(REJECT, t.empty);
  }

  lemma FileGrows(s: Sender, n: nat)
    requires 0 < n <= |Chunks(s.data, s.chunkSize)|
    ensures FileSoFar(s, n) == FileSoFar(s, n - 1) + Chunks(s.data, s.chunkSize)[n - 1]
  {
    var pieces := Chunks(s.data, s.chunkSize);
    assert pieces[..n] == pieces[..n - 1] + [pieces[n - 1]];
    ConcatAppend(pieces[..n - 1], [pieces[n - 1]]);
    assert Concat([pieces[n - 1]]) == pieces[n - 1];
  }

  lemma ChunkStep(t: Texts, s: Sender, n: nat, buf: bytes)
    requires 0 < n <= |Chunks(s.data, s.chunkSize)| && !VerdictOn(t, s).Rejected?
    ensures ReceiverHandles(t, ReceiverAt(t, s, n, buf), Plan(t, s)[n]) == Outcome(ReceiverAt(t, s, n + 1, buf), [], false)
  {
    FileGrows(s, n);
    assert Plan(t, s)[n] == FileFrame(CHUNK, Chunks(s.data, s.chunkSize)[n - 1]);
  }

  lemma DoneStep(t: Texts, s: Sender, buf: bytes)
    requires FramesFit(t, s) && !VerdictOn(t, s).Rejected?
    ensures var n := |Plan(t, s)| - 1;
      ReceiverHandles(t, ReceiverAt(t, s, n, buf), FileFrame(DONE, t.empty))
      == Outcome(ReceiverAt(t, s, n + 1, buf), Wire([Replies(t, s)[1]]), false)
  {
    var pieces := Chunks(s.data, s.chunkSize);
    assert pieces[..|pieces|] == pieces;
    ChunksRebuildData(s.data, s.chunkSize);
    ControlFits(OK, t.okTrue);
    ControlFits(NOT_OK, t.okFalse);
  }

  lemma OneReply(replies: seq<FileFrame>, d: nat)
    ensures d < |replies| ==> replies[d..d + 1] == [replies[d]]
    ensures d <= |replies| ==> replies[d..d] == []
  {
  }

  /** One frame of the plan moves the receiver one place on and makes the replies due. */
  lemma ReceiverStep(t: Texts, s: Sender, n: nat, buf: bytes)
    requires FramesFit(t, s) && n < |Plan(t, s)|
    ensures ReceiverHandles(t, ReceiverAt(t, s, n, buf), Plan(t, s)[n])
      == Outcome(ReceiverAt(t, s, n + 1, buf), Wire(Replies(t, s)[RepliesAt(t, s, n)..RepliesAt(t, s, n + 1)]), false)
  {
    OneReply(Replies(t, s), RepliesAt(t, s, n));
    if n == 0 {
      OfferStep(t, s, buf);
    } else if n <= |Chunks(s.data, s.chunkSize)| {
      ChunkStep(t, s, n, buf);
    } else {
      DoneStep(t, s, buf);
    }
  }

  lemma RepliesSendable(t: Texts, s: Sender)
    requires TextsFit(t)
    ensures Sendable(Replies(t, s))
  {
  }

  lemma {:induction false} ReceiverSteps(t: Texts, s: Sender, n: nat, n': nat, buf: bytes)
    requires FramesFit(t, s) && n <= n' <= |Plan(t, s)|
    ensures RepliesAt(t, s, n) <= RepliesAt(t, s, n')
    ensures ReceiverHandlesAll(t, ReceiverAt(t, s, n, buf), Plan(t, s)[n..n'])
      == Outcome(ReceiverAt(t, s, n', buf), Wire(Replies(t, s)[RepliesAt(t, s, n)..RepliesAt(t, s, n')]), false)
    decreases n' - n
  {
    var (d, d') := (RepliesAt(t, s, n), RepliesAt(t, s, n'));
    if n == n' {
      assert Replies(t, s)[d..d'] == [];
    } else {
      var d1 := RepliesAt(t, s, n + 1);
      ReceiverStep(t, s, n, buf);
      ReceiverSteps(t, s, n + 1, n', buf);
      assert Plan(t, s)[n..n'][1..] == Plan(t, s)[n + 1..n'];
      RepliesSendable(t, s);
      WireOfSlices(Replies(t, s), d, d1, d');
    }
  }

  // ---- the sender's side -----------------------------------------------------------------------

  /** The sender after `m` replies; `begun` says whether the offer is out. */
  function SenderAt(t: Texts, s: Sender, begun: bool, m: nat, buf: bytes): Sender
  {
    s.(buf := buf, state :=
      if !begun then Idle
      else if m == 0 then Offered
      else if m < |Replies(t, s)| then DoneSent
      else if VerdictOn(t, s).Verified? then Complete else Failed)
  }

  /** How many frames of the plan it has then sent. */
  function Spoken(t: Texts, s: Sender, begun: bool, m: nat): (u: nat)
    ensures u <= |Plan(t, s)|
  {
    if !begun then 0 else if m == 0 then 1 else |Plan(t, s)|
  }

  lemma PlanSendable(t: Texts, s: Sender)
    requires FramesFit(t, s)
    ensures Sendable(Plan(t, s)) && !EncodeUpTo(Script(t, s)).raised
  {
    var o := s.(state := Offered);
    AcceptedSenderRaises(t, o, []);
    assert Script(t, o) == Script(t, s);
    EncodesUnlessTooLong(Script(t, s));
    assert forall i :: 0 <= i < |Plan(t, s)| - 1 ==> Plan(t, s)[i + 1] == Script(t, s)[i];
  }

  lemma SenderStep(t: Texts, s: Sender, m: nat, buf: bytes)
    requires FramesFit(t, s) && m < |Replies(t, s)|
    ensures SenderHandles(t, SenderAt(t, s, true, m, buf), Replies(t, s)[m])
      == Outcome(SenderAt(t, s, true, m + 1, buf), Wire(Plan(t, s)[Spoken(t, s, true, m)..Spoken(t, s, true, m + 1)]), false)
  {
    PlanSendable(t, s);
    var plan := Plan(t, s);
    assert Script(t, SenderAt(t, s, true, m, buf)) == Script(t, s);
    assert plan[1..|plan|] == plan[1..];
    assert plan[|plan|..|plan|] == [];
  }

  lemma {:induction false} SenderSteps(t: Texts, s: Sender, m: nat, m': nat, buf: bytes)
    requires FramesFit(t, s) && m <= m' <= |Replies(t, s)|
    ensures Spoken(t, s, true, m) <= Spoken(t, s, true, m')
    ensures SenderHandlesAll(t, SenderAt(t, s, true, m, buf), Replies(t, s)[m..m'])
      == Outcome(SenderAt(t, s, true, m', buf), Wire(Plan(t, s)[Spoken(t, s, true, m)..Spoken(t, s, true, m')]), false)
    decreases m' - m
  {
    var (u, u') := (Spoken(t, s, true, m), Spoken(t, s, true, m'));
    if m == m' {
      assert Plan(t, s)[u..u'] == [];
    } else {
      var u1 := Spoken(t, s, true, m + 1);
      SenderStep(t, s, m, buf);
      SenderSteps(t, s, m + 1, m', buf);
      assert Replies(t, s)[m..m'][1..] == Replies(t, s)[m + 1..m'];
      PlanSendable(t, s);
      WireOfSlices(Plan(t, s), u, u1, u');
    }
  }

  // ---- the joint invariant ---------------------------------------------------------------------

  /** Where the transfer stands: the offer is out, the receiver has handled `n` frames of the plan and
      the sender `m` replies. */
  datatype Stage = Stage(begun: bool, n: nat, m: nat)

  predicate StageOk(t: Texts, s: Sender, g: Stage)
  {
    g.n <= Spoken(t, s, g.begun, g.m) && g.m <= RepliesAt(t, s, g.n)
  }

  /** The bytes held and in flight encode frames `from` up to `to` of a conversation, and those held are
      no complete frame. */
  predicate UnderWay(buf: bytes, flight: bytes, all: seq<FileFrame>, from: nat, to: nat)
  {
    from <= to <= |all| && buf + flight == Concat(Wire(all[from..to])) && FrontOf(FILE_FORMAT, buf).Waits?
  }

  /** Each end is where its conversation puts it, and the bytes under way are exactly the frames
      said and not yet handled. `s` is the sender as it was made. */
  predicate At(t: Texts, s: Sender, y: Sys, g: Stage)
    requires StageOk(t, s, g)
  {
    && y.s == SenderAt(t, s, g.begun, g.m, y.s.buf)
    && y.r == ReceiverAt(t, s, g.n, y.r.buf)
    && UnderWay(y.r.buf, y.toReceiver, Plan(t, s), g.n, Spoken(t, s, g.begun, g.m))
    && UnderWay(y.s.buf, y.toSender, Replies(t, s), g.m, RepliesAt(t, s, g.n))
    && !y.raised
  }

  /** Saying more frames appends their encodings to what is under way. */
  lemma MoreUnderWay(buf: bytes, flight: bytes, all: seq<FileFrame>, from: nat, to: nat, to': nat)
    requires Sendable(all) && UnderWay(buf, flight, all, from, to) && to <= to' <= |all|
    ensures UnderWay(buf, flight + Concat(Wire(all[to..to'])), all, from, to')
  {
    WireOfSlices(all, from, to, to');
    ConcatAppend(Wire(all[from..to]), Wire(all[to..to']));
    var more := Concat(Wire(all[to..to']));
    assert buf + (flight + more) == (buf + flight) + more;
  }

  /** Delivering a piece completes some of the frames under way and leaves the others so. */
  lemma PieceDelivered(buf: bytes, flight: bytes, n: nat, all: seq<FileFrame>, from: nat, to: nat)
    requires Sendable(all) && UnderWay(buf, flight, all, from, to) && n <= |flight|
    ensures var sc := ScanFile(buf + flight[..n]); var from' := from + |sc.items|;
      && !sc.raised && from' <= to && sc.items == all[from..from']
      && UnderWay(sc.rest, flight[n..], all, from', to)
  {
    assert buf + flight == (buf + flight[..n]) + flight[n..];
    DeliveryScans(buf + flight[..n], flight[n..], all[from..to]);
    SliceOfSlice(all, from, to, |ScanFile(buf + flight[..n]).items|);
  }

  lemma SliceOfSlice(all: seq<FileFrame>, from: nat, to: nat, k: nat)
    requires from <= to <= |all| && k <= to - from
    ensures all[from..to][..k] == all[from..from + k] && all[from..to][k..] == all[from + k..to]
  {
  }

  lemma BeginKeeps(t: Texts, s: Sender, y: Sys, g: Stage)
    requires FramesFit(t, s) && s.state.Idle? && StageOk(t, s, g) && At(t, s, y, g) && y.s.state.Idle?
    ensures var g' := Stage(true, g.n, g.m); StageOk(t, s, g') && At(t, s, Next(t, y, Begin), g')
  {
    ReaderIsSound(FILE_FORMAT);
    PlanSendable(t, s);
    var plan := Plan(t, s);
    assert OfferFrame(t, y.s) == plan[0];
    assert plan[0..1] == [plan[0]];
    MoreUnderWay(y.r.buf, y.toReceiver, plan, 0, 0, 1);
    EncodesUnlessTooLong([plan[0]]);
    assert Wire([plan[0]]) == [EncodeFrame(plan[0]).value];
  }

  lemma ReceiverHandlesPlan(t: Texts, s: Sender, r: Receiver, rest: bytes, items: seq<FileFrame>, from: nat, from': nat)
    requires FramesFit(t, s) && from <= from' <= |Plan(t, s)| && items == Plan(t, s)[from..from']
    requires r == ReceiverAt(t, s, from, r.buf)
    ensures RepliesAt(t, s, from) <= RepliesAt(t, s, from')
    ensures ReceiverHandlesAll(t, r.(buf := rest), items)
      == Outcome(ReceiverAt(t, s, from', rest), Wire(Replies(t, s)[RepliesAt(t, s, from)..RepliesAt(t, s, from')]), false)
    ensures ReceiverAt(t, s, from', rest).buf == rest
  {
    ReceiverSteps(t, s, from, from', rest);
  }

  lemma TakenIsHandled(t: Texts, r: Receiver, piece: bytes, sc: Scanned<FileFrame>)
    requires sc == ScanFile(r.buf + piece) && !sc.raised
    ensures ReceiverTakes(t, r, piece) == ReceiverHandlesAll(t, r.(buf := sc.rest), sc.items)
  {
  }

  /** What a delivered piece does to the receiver alone. */
  lemma ReceiverGets(t: Texts, s: Sender, r: Receiver, flight: bytes, n: nat, from: nat, to: nat) returns (from': nat)
    requires FramesFit(t, s) && n <= |flight| && to <= |Plan(t, s)| && UnderWay(r.buf, flight, Plan(t, s), from, to)
    requires r == ReceiverAt(t, s, from, r.buf)
    ensures from <= from' <= to && RepliesAt(t, s, from) <= RepliesAt(t, s, from')
    ensures var o := ReceiverTakes(t, r, flight[..n]);
      && o.s == ReceiverAt(t, s, from', o.s.buf) && UnderWay(o.s.buf, flight[n..], Plan(t, s), from', to)
      && o.out == Wire(Replies(t, s)[RepliesAt(t, s, from)..RepliesAt(t, s, from')]) && !o.raised
  {
    PlanSendable(t, s);
    var sc := ScanFile(r.buf + flight[..n]);
    PieceDelivered(r.buf, flight, n, Plan(t, s), from, to);
    from' := from + |sc.items|;
    ReceiverTakesPlan(t, s, r, flight[..n], sc, Plan(t, s), from, from');
  }

  lemma ReceiverTakesPlan(t: Texts, s: Sender, r: Receiver, piece: bytes, sc: Scanned<FileFrame>, plan: seq<FileFrame>,
                          from: nat, from': nat)
    requires FramesFit(t, s) && plan == Plan(t, s) && from <= from' <= |plan|
    requires sc == ScanFile(r.buf + piece) && !sc.raised && sc.items == plan[from..from']
    requires r == ReceiverAt(t, s, from, r.buf)
    ensures RepliesAt(t, s, from) <= RepliesAt(t, s, from') && ReceiverAt(t, s, from', sc.rest).buf == sc.rest
    ensures ReceiverTakes(t, r, piece)
      == Outcome(ReceiverAt(t, s, from', sc.rest), Wire(Replies(t, s)[RepliesAt(t, s, from)..RepliesAt(t, s, from')]), false)
  {
    TakenIsHandled(t, r, piece, sc);
    ReceiverHandlesPlan(t, s, r, sc.rest, sc.items, from, from');
  }

  lemma ToReceiverKeeps(t: Texts, s: Sender, y: Sys, g: Stage, n: nat) returns (g': Stage)
    requires FramesFit(t, s) && StageOk(t, s, g) && At(t, s, y, g) && n <= |y.toReceiver|
    ensures StageOk(t, s, g') && At(t, s, Next(t, y, ToReceiver(n)), g')
  {
    var n' := ReceiverGets(t, s, y.r, y.toReceiver, n, g.n, Spoken(t, s, g.begun, g.m));
    g' := g.(n := n');
    RepliesSendable(t, s);
    MoreUnderWay(y.s.buf, y.toSender, Replies(t, s), g.m, RepliesAt(t, s, g.n), RepliesAt(t, s, n'));
  }

  lemma SenderTakesReplies(t: Texts, s: Sender, x: Sender, piece: bytes, sc: Scanned<FileFrame>, replies: seq<FileFrame>,
                           from: nat, from': nat)
    requires FramesFit(t, s) && replies == Replies(t, s) && from <= from' <= |replies|
    requires sc == ScanFile(x.buf + piece) && !sc.raised && sc.items == replies[from..from']
    requires x == SenderAt(t, s, true, from, x.buf)
    ensures Spoken(t, s, true, from) <= Spoken(t, s, true, from')
    ensures SenderTakes(t, x, piece)
      == Outcome(SenderAt(t, s, true, from', sc.rest),
                 Wire(Plan(t, s)[Spoken(t, s, true, from)..Spoken(t, s, true, from')]), false)
  {
    SenderSteps(t, s, from, from', sc.rest);
  }

  /** Before the offer is out nothing is answered. */
  lemma NoReplyYet(t: Texts, s: Sender, x: Sender, piece: bytes, sc: Scanned<FileFrame>)
    requires sc == ScanFile(x.buf + piece) && !sc.raised && sc.items == []
    ensures SenderTakes(t, x, piece) == Outcome(x.(buf := sc.rest), [], false)
  {
  }

  lemma ToSenderKeeps(t: Texts, s: Sender, y: Sys, g: Stage, n: nat) returns (g': Stage)
    requires FramesFit(t, s) && StageOk(t, s, g) && At(t, s, y, g) && n <= |y.toSender|
    ensures StageOk(t, s, g') && At(t, s, Next(t, y, ToSender(n)), g')
  {
    PlanSendable(t, s);
    RepliesSendable(t, s);
    var d := RepliesAt(t, s, g.n);
    PieceDelivered(y.s.buf, y.toSender, n, Replies(t, s), g.m, d);
    var sc := ScanFile(y.s.buf + y.toSender[..n]);
    g' := g.(m := g.m + |sc.items|);
    if g.begun {
      SenderTakesReplies(t, s, y.s, y.toSender[..n], sc, Replies(t, s), g.m, g'.m);
      MoreUnderWay(y.r.buf, y.toReceiver, Plan(t, s), g.n, Spoken(t, s, true, g.m), Spoken(t, s, true, g'.m));
    } else {
      NoReplyYet(t, s, y.s, y.toSender[..n], sc);
      assert y.toReceiver + [] == y.toReceiver;
    }
  }

  // ---- every run -------------------------------------------------------------------------------

  lemma {:induction false} RunKeeps(t: Texts, s: Sender, y: Sys, g: Stage, es: seq<Event>) returns (g': Stage)
    requires FramesFit(t, s) && s.state.Idle? && StageOk(t, s, g) && At(t, s, y, g)
    requires Legal(t, y, es)
    ensures StageOk(t, s, g') && At(t, s, Run(t, y, es), g')
    decreases |es|
  {
    if es == [] {
      g' := g;
    } else {
      var g1 := g;
      match es[0] {
        case Begin =>
          BeginKeeps(t, s, y, g);
          g1 := Stage(true, g.n, g.m);
        case ToReceiver(n) =>
          g1 := ToReceiverKeeps(t, s, y, g, n);
        case ToSender(n) =>
          g1 := ToSenderKeeps(t, s, y, g, n);
      }
      g' := RunKeeps(t, s, Next(t, y, es[0]), g1, es[1..]);
    }
  }

  /** The file the receiver hands out. */
  function FileBytes(r: Receiver): Option<bytes>
  {
    if r.state.Complete? then Some(r.file) else None
  }

  /** For every file, chunk size and cutting of the two streams: nothing raises; a sender that is
      complete has a receiver that already holds exactly the sender's data, and one that failed has a
      receiver that failed; and once the offer is out and nothing is under way, both ends are complete
      if the offer was honest and both failed if it was not. */
  lemma VerdictIsShared(t: Texts, name: string, data: bytes, chunkSize: pos, es: seq<Event>)
    requires FramesFit(t, NewSender(name, data, chunkSize))
    requires Legal(t, StartOf(name, data, chunkSize), es)
    ensures var y := Run(t, StartOf(name, data, chunkSize), es);
      var honest := VerdictOn(t, NewSender(name, data, chunkSize)).Verified?;
      && !y.raised
      && (y.s.state.Complete? ==> FileBytes(y.r) == Some(data) && y.r.verified)
      && (FileBytes(y.r).Some? ==> honest && FileBytes(y.r) == Some(data))
      && (y.s.state.Failed? ==> y.r.state.Failed?)
      && (y.r.state.Failed? ==> !honest && !y.r.verified)
      && (!y.s.state.Idle? && y.toReceiver == [] && y.toSender == [] ==>
            if honest then y.s.state.Complete? && y.r.state.Complete? else y.s.state.Failed? && y.r.state.Failed?)
  {
    var s := NewSender(name, data, chunkSize);
    var start := StartOf(name, data, chunkSize);
    var g := Stage(false, 0, 0);
    assert Plan(t, s)[0..0] == [] && Replies(t, s)[0..0] == [];
    g := RunKeeps(t, s, start, g, es);
    var y := Run(t, start, es);
    EndsAgree(t, s, y, g);
    if g.begun && y.toReceiver == [] && y.toSender == [] {
      Drained(t, s, y, g);
    }
  }

  /** What the joint invariant says about the two states. */
  lemma EndsAgree(t: Texts, s: Sender, y: Sys, g: Stage)
    requires s.state.Idle? && StageOk(t, s, g) && At(t, s, y, g)
    ensures y.s.state.Complete? ==> FileBytes(y.r) == Some(s.data) && y.r.verified
    ensures FileBytes(y.r).Some? ==> VerdictOn(t, s).Verified? && FileBytes(y.r) == Some(s.data)
    ensures y.s.state.Failed? ==> y.r.state.Failed?
    ensures y.r.state.Failed? ==> !VerdictOn(t, s).Verified? && !y.r.verified
  {
  }

  /** The documented case: automatic acceptance and an offer that reads back as written. Neither end ever
      fails, and the receiver never holds anything but a prefix of the file. */
  lemma CompletionIsMutual(t: Texts, name: string, data: bytes, chunkSize: pos, es: seq<Event>)
    requires FramesFit(t, NewSender(name, data, chunkSize)) && (forall o :: t.readOffer(t.writeOffer(o)) == Some(o))
    requires Legal(t, StartOf(name, data, chunkSize), es)
    ensures var y := Run(t, StartOf(name, data, chunkSize), es);
      && !y.raised && !y.s.state.Failed? && !y.r.state.Failed? && y.r.file <= data
      && (y.s.state.Complete? ==> FileBytes(y.r) == Some(data))
      && (!y.s.state.Idle? && y.toReceiver == [] && y.toSender == [] ==> y.s.state.Complete? && y.r.state.Complete?)
  {
    var s := NewSender(name, data, chunkSize);
    VerdictIsShared(t, name, data, chunkSize, es);
    assert Plan(t, s)[0..0] == [] && Replies(t, s)[0..0] == [];
    var g := RunKeeps(t, s, StartOf(name, data, chunkSize), Stage(false, 0, 0), es);
    FileSoFarIsPrefix(t, s, g.n);
  }

  lemma FirstFrameReads(frames: seq<FileFrame>)
    requires Sendable(frames) && frames != []
    ensures FrontOf(FILE_FORMAT, Concat(Wire(frames))).Frame?
  {
    WireEncodes(frames);
    var first := Wire(frames)[0];
    assert FrontOf(FILE_FORMAT, first) == ReaderOf(FILE_FORMAT)(first);
    MoreBytesSameFront(FILE_FORMAT, first, Concat(Wire(frames)[1..]));
  }

  lemma NothingUnderWay(buf: bytes, all: seq<FileFrame>, from: nat, to: nat)
    requires Sendable(all) && UnderWay(buf, [], all, from, to)
    ensures from == to
  {
    assert buf + [] == buf;
    if from < to {
      FirstFrameReads(all[from..to]);
    }
  }

  lemma Drained(t: Texts, s: Sender, y: Sys, g: Stage)
    requires FramesFit(t, s) && StageOk(t, s, g) && At(t, s, y, g) && g.begun && y.toReceiver == [] && y.toSender == []
    ensures g.m == |Replies(t, s)| && g.n == |Plan(t, s)|
  {
    PlanSendable(t, s);
    RepliesSendable(t, s);
    NothingUnderWay(y.r.buf, Plan(t, s), g.n, Spoken(t, s, true, g.m));
    NothingUnderWay(y.s.buf, Replies(t, s), g.m, RepliesAt(t, s, g.n));
  }

  lemma FileSoFarIsPrefix(t: Texts, s: Sender, n: nat)
    requires n <= |Plan(t, s)|
    ensures ReceiverAt(t, s, n, []).file <= s.data
  {
    if 0 < n < |Plan(t, s)| && !VerdictOn(t, s).Rejected? {
      FirstChunksArePrefix(s, n - 1);
    }
  }

  lemma FirstChunksArePrefix(s: Sender, n: nat)
    requires n <= |Chunks(s.data, s.chunkSize)|
    ensures FileSoFar(s, n) <= s.data
  {
    var pieces := Chunks(s.data, s.chunkSize);
    ChunksRebuildData(s.data, s.chunkSize);
    ConcatAppend(pieces[..n], pieces[n..]);
    assert pieces == pieces[..n] + pieces[n..];
  }
}
