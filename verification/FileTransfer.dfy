/** Sending one file with a completion handshake (photontcp/app/file.py): what each end does with the
    bytes its stream delivers. JSON bodies and SHA-256 are parameters. */
module FileTransfer {
  import opened Prelude
  import opened Scanning
  import opened Framing

  datatype Offer = Offer(name: string, size: int, sha: string)

  /** Text encodings used by control frames. `readOffer` is None where the body is no JSON object or
      carries a missing or ill-typed field. */
  datatype Texts = Texts(writeOffer: Offer -> bytes, readOffer: bytes -> Option<Offer>,
                         empty: bytes, okTrue: bytes, okFalse: bytes, sha256: bytes -> string)

  datatype TransferState = Idle | Offered | Sending | DoneSent | Receiving | Complete | Failed

  datatype Sender = Sender(name: string, data: bytes, chunkSize: pos, state: TransferState, buf: bytes)

  datatype Receiver = Receiver(autoAccept: bool, state: TransferState, buf: bytes, file: bytes,
                               meta: Option<Offer>, verified: bool)

  /** The new state, what was handed to the stream, and whether an exception ended the call. */
  datatype Outcome<S> = Outcome(s: S, out: seq<bytes>, raised: bool)

  function NewSender(name: string, data: bytes, chunkSize: pos): Sender
  {
    Sender(name, data, chunkSize, Idle, [])
  }

  function NewReceiver(autoAccept: bool): Receiver
  {
    Receiver(autoAccept, Idle, [], [], None, false)
  }

  datatype Encoded = Encoded(out: seq<bytes>, raised: bool)

  /** Encode and send frame after frame, stopping at the first that is too long. */
  function EncodeUpTo(frames: seq<FileFrame>): Encoded
  {
    if frames == [] then Encoded([], false)
    else match EncodeFrame(frames[0])
      case None => Encoded([], true)
      case Some(e) => var r := EncodeUpTo(frames[1..]); r.(out := [e] + r.out)
  }

  // ---- the sender ------------------------------------------------------------------------------

  function OfferFrame(t: Texts, s: Sender): FileFrame
  {
    FileFrame(OFFER, t.writeOffer(Offer(s.name, |s.data|, t.sha256(s.data))))
  }

  function ChunkFrames(pieces: seq<bytes>): (frames: seq<FileFrame>)
    ensures |frames| == |pieces| && forall i :: 0 <= i < |pieces| ==> frames[i] == FileFrame(CHUNK, pieces[i])
  {
    seq(|pieces|, i requires 0 <= i < |pieces| => FileFrame(CHUNK, pieces[i]))
  }

  function Script(t: Texts, s: Sender): seq<FileFrame>
  {
    ChunkFrames(Chunks(s.data, s.chunkSize)) + [FileFrame(DONE, t.empty)]
  }

  function Start(t: Texts, s: Sender): Outcome<Sender>
  {
    if !s.state.Idle? then Outcome(s, [], true)
    else match EncodeFrame(OfferFrame(t, s))
      case None => Outcome(s, [], true)
      case Some(e) => Outcome(s.(state := Offered), [e], false)
  }

  function SenderHandles(t: Texts, s: Sender, frame: FileFrame): Outcome<Sender>
  {
    if s.state.Offered? && frame.ftype == ACCEPT then
      var e := EncodeUpTo(Script(t, s));
      Outcome(s.(state := if e.raised then Sending else DoneSent), e.out, e.raised)
    else if s.state.Offered? && frame.ftype == REJECT then Outcome(s.(state := Failed), [], false)
    else if s.state.DoneSent? && frame.ftype == OK then Outcome(s.(state := Complete), [], false)
    else if s.state.DoneSent? && frame.ftype == NOT_OK then Outcome(s.(state := Failed), [], false)
    else Outcome(s, [], false)
  }

  function SenderHandlesAll(t: Texts, s: Sender, frames: seq<FileFrame>): Outcome<Sender>
    decreases |frames|
  {
    if frames == [] then Outcome(s, [], false)
    else
      var o := SenderHandles(t, s, frames[0]);
      if o.raised then o
      else var r := SenderHandlesAll(t, o.s, frames[1..]); r.(out := o.out + r.out)
  }

  /** One piece delivered by the stream. */
  ghost function SenderTakes(t: Texts, s: Sender, piece: bytes): Outcome<Sender>
  {
    var sc := ScanFile(s.buf + piece);
    if sc.raised then Outcome(s.(buf := sc.rest), [], true)
    else SenderHandlesAll(t, s.(buf := sc.rest), sc.items)
  }

  // ---- the receiver ----------------------------------------------------------------------------

  /** Control frames with fixed bodies never exceed the limit. */
  function Control(ftype: FileFrameType, body: bytes): Encoded
  {
    EncodeUpTo([FileFrame(ftype, body)])
  }

  function ReceiverHandles(t: Texts, r: Receiver, frame: FileFrame): Outcome<Receiver>
  {
    if r.state.Idle? && frame.ftype == OFFER then
      match t.readOffer(frame.body)
      case None =>
        var e := Control(REJECT, t.empty);
        Outcome(if e.raised then r else r.(state := Failed), e.out, e.raised)
      case Some(meta) =>
        var r1 := r.(meta := Some(meta));
        if !r.autoAccept then Outcome(r1, [], false)
        else
          var e := Control(ACCEPT, t.empty);
          Outcome(if e.raised then r1 else r1.(state := Receiving), e.out, e.raised)
    else if r.state.Receiving? && frame.ftype == CHUNK then Outcome(r.(file := r.file + frame.body), [], false)
    else if r.state.Receiving? && frame.ftype == DONE then
      var matches := r.meta.Some? && t.sha256(r.file) == r.meta.value.sha;
      var e := if matches then Control(OK, t.okTrue) else Control(NOT_OK, t.okFalse);
      Outcome(r.(verified := matches, state := if e.raised then r.state else if matches then Complete else Failed), e.out, e.raised)
    else Outcome(r, [], false)
  }

  function ReceiverHandlesAll(t: Texts, r: Receiver, frames: seq<FileFrame>): Outcome<Receiver>
    decreases |frames|
  {
    if frames == [] then Outcome(r, [], false)
    else
      var o := ReceiverHandles(t, r, frames[0]);
      if o.raised then o
      else var rest := ReceiverHandlesAll(t, o.s, frames[1..]); rest.(out := o.out + rest.out)
  }

  ghost function ReceiverTakes(t: Texts, r: Receiver, piece: bytes): Outcome<Receiver>
  {
    var sc := ScanFile(r.buf + piece);
    if sc.raised then Outcome(r.(buf := sc.rest), [], true)
    else ReceiverHandlesAll(t, r.(buf := sc.rest), sc.items)
  }

  // ---- facts about one end ---------------------------------------------------------------------

  lemma {:induction false} EncodesUnlessTooLong(frames: seq<FileFrame>)
    ensures !EncodeUpTo(frames).raised <==> forall i :: 0 <= i < |frames| ==> EncodeFrame(frames[i]).Some?
    ensures var e := EncodeUpTo(frames);
      !e.raised ==> |e.out| == |frames| && forall i :: 0 <= i < |frames| ==> EncodeFrame(frames[i]) == Some(e.out[i])
  {
    if frames != [] {
      EncodesUnlessTooLong(frames[1..]);
      var rest := frames[1..];
      assert forall i :: 0 <= i < |rest| ==> rest[i] == frames[i + 1];
      if EncodeFrame(frames[0]).Some? && !EncodeUpTo(rest).raised {
        var e := EncodeUpTo(frames);
        forall i | 0 <= i < |frames| ensures EncodeFrame(frames[i]) == Some(e.out[i]) {
          if i > 0 {
            assert EncodeFrame(rest[i - 1]) == Some(EncodeUpTo(rest).out[i - 1]);
          }
        }
      }
    }
  }

  function LongestChunk(s: Sender): nat
  {
    if |s.data| < s.chunkSize then |s.data| else s.chunkSize
  }

  predicate TextsFit(t: Texts)
  {
    1 + |t.empty| <= MAX_FRAME_BYTES && 1 + |t.okTrue| <= MAX_FRAME_BYTES && 1 + |t.okFalse| <= MAX_FRAME_BYTES
  }

  lemma FirstChunkIsLongest(data: bytes, k: pos)
    requires data != []
    ensures |Chunks(data, k)| > 0 && |Chunks(data, k)[0]| == if |data| < k then |data| else k
  {
  }

  /** Once accepted, a sender raises exactly when its longest chunk does not fit a frame; no chunk is
      then sent at all. */
  lemma AcceptedSenderRaises(t: Texts, s: Sender, body: bytes)
    requires TextsFit(t) && s.state.Offered?
    ensures var o := SenderHandles(t, s, FileFrame(ACCEPT, body));
      && (o.raised <==> 1 + LongestChunk(s) > MAX_FRAME_BYTES)
      && (o.raised ==> o.s.state.Sending? && o.out == [])
      && (!o.raised ==> o.s.state.DoneSent?)
  {
    var pieces := Chunks(s.data, s.chunkSize);
    var frames := Script(t, s);
    EncodesUnlessTooLong(frames);
    ChunksRebuildData(s.data, s.chunkSize);
    if s.data != [] {
      FirstChunkIsLongest(s.data, s.chunkSize);
      assert frames[0] == FileFrame(CHUNK, pieces[0]);
    }
    if 1 + LongestChunk(s) <= MAX_FRAME_BYTES {
      forall i | 0 <= i < |frames| ensures EncodeFrame(frames[i]).Some? {
        if i < |pieces| {
          assert pieces[i] in pieces;
          PieceNoLonger(s.data, s.chunkSize, i);
        }
      }
    }
  }

  lemma {:induction false} PieceNoLonger(data: bytes, k: pos, i: nat)
    requires i < |Chunks(data, k)|
    ensures |Chunks(data, k)[i]| <= if |data| < k then |data| else k
    decreases |data|
  {
    if |data| > k && i > 0 {
      PieceNoLonger(data[k..], k, i - 1);
    }
  }

  // ---- the objects -----------------------------------------------------------------------------

  class FileSender {
    const texts: Texts
    const name: string
    const data: bytes
    const chunkSize: pos
    const reassembler: Reassembler<FileFrame>
    var state: TransferState

    ghost predicate Valid()
      reads this, reassembler
    {
      reassembler.read == ReaderOf(FILE_FORMAT) && Consumes(reassembler.read)
    }

    function View(): Sender
      reads this, reassembler
    {
      Sender(name, data, chunkSize, state, reassembler.buf)
    }

    constructor (texts: Texts, name: string, data: bytes, chunkSize: pos)
      ensures Valid() && View() == NewSender(name, data, chunkSize) && this.texts == texts && fresh(reassembler)
    {
      this.texts, this.name, this.data, this.chunkSize := texts, name, data, chunkSize;
      state := Idle;
      reassembler := new Reassembler(ReaderOf(FILE_FORMAT));
      new;
      ReaderIsSound(FILE_FORMAT);
    }

    method Begin() returns (out: seq<bytes>, raised: bool)
      modifies this
      ensures Start(texts, old(View())) == Outcome(View(), out, raised)
    {
      out, raised := [], true;
      if state.Idle? {
        match EncodeFrame(FileFrame(OFFER, texts.writeOffer(Offer(name, |data|, texts.sha256(data)))))
        case None =>
        case Some(offer) =>
          out, raised, state := [offer], false, Offered;
      }
    }

    method SendAllChunksAndDone() returns (out: seq<bytes>, raised: bool)
      modifies this`state
      ensures var e := EncodeUpTo(Script(texts, old(View())));
        out == e.out && raised == e.raised
        && View() == old(View()).(state := if e.raised then old(state) else DoneSent)
    {
      out := [];
      var offset := 0;
      ghost var all := EncodeUpTo(Script(texts, View()));
      while offset < |data|
        invariant 0 <= offset <= |data| && View() == old(View())
        invariant var e := EncodeUpTo(ChunkFrames(Chunks(data[offset..], chunkSize)) + [FileFrame(DONE, texts.empty)]);
          all == e.(out := out + e.out)
      {
        var end := if offset + chunkSize < |data| then offset + chunkSize else |data|;
        var piece := data[offset..end];
        ghost var later := ChunkFrames(Chunks(data[end..], chunkSize)) + [FileFrame(DONE, texts.empty)];
        NextPiece(data, chunkSize, offset, end, texts.empty);
        match EncodeFrame(FileFrame(CHUNK, piece))
        case None =>
          assert out + [] == out;
          return out, true;
        case Some(e) =>
          assert out + ([e] + EncodeUpTo(later).out) == (out + [e]) + EncodeUpTo(later).out;
          out := out + [e];
          offset := offset + |piece|;
      }
      assert ChunkFrames(Chunks(data[offset..], chunkSize)) + [FileFrame(DONE, texts.empty)] == [FileFrame(DONE, texts.empty)];
      match EncodeFrame(FileFrame(DONE, texts.empty))
      case None =>
        return out, true;
      case Some(e) =>
        out, raised, state := out + [e], false, DoneSent;
    }

    method HandleFrame(frame: FileFrame) returns (out: seq<bytes>, raised: bool)
      modifies this`state
      ensures SenderHandles(texts, old(View()), frame) == Outcome(View(), out, raised)
    {
      out, raised := [], false;
      match frame.ftype
      case ACCEPT =>
        if state.Offered? {
          state := Sending;
          out, raised := SendAllChunksAndDone();
        }
      case REJECT => if state.Offered? { state := Failed; }
      case OK => if state.DoneSent? { state := Complete; }
      case NOT_OK => if state.DoneSent? { state := Failed; }
      case _ =>
    }

    method HandleAll(frames: seq<FileFrame>) returns (out: seq<bytes>, raised: bool)
      modifies this`state
      ensures SenderHandlesAll(texts, old(View()), frames) == Outcome(View(), out, raised)
    {
      out, raised := [], false;
      ghost var all := SenderHandlesAll(texts, View(), frames);
      var i := 0;
      while i < |frames|
        invariant 0 <= i <= |frames|
        invariant var rest := SenderHandlesAll(texts, View(), frames[i..]); all == rest.(out := out + rest.out)
      {
        assert frames[i..][0] == frames[i] && frames[i..][1..] == frames[i + 1..];
        var sent, failed := HandleFrame(frames[i]);
        ghost var rest := SenderHandlesAll(texts, View(), frames[i + 1..]);
        assert out + (sent + rest.out) == (out + sent) + rest.out;
        out := out + sent;
        if failed {
          return out, true;
        }
        i := i + 1;
      }
      assert out + [] == out;
    }

    /** One piece from the stream, as `pump` treats it. */
    method Take(piece: bytes) returns (out: seq<bytes>, raised: bool)
      requires Valid()
      modifies this, reassembler
      ensures Valid() && SenderTakes(texts, old(View()), piece) == Outcome(View(), out, raised)
    {
      var fed := reassembler.Feed(piece);
      if fed.None? {
        return [], true;
      }
      out, raised := HandleAll(fed.value);
    }
  }

  class FileReceiver {
    const texts: Texts
    const autoAccept: bool
    const reassembler: Reassembler<FileFrame>
    var state: TransferState
    var file: bytes
    var meta: Option<Offer>
    var verified: bool

    ghost predicate Valid()
      reads this, reassembler
    {
      reassembler.read == ReaderOf(FILE_FORMAT) && Consumes(reassembler.read)
    }

    function View(): Receiver
      reads this, reassembler
    {
      Receiver(autoAccept, state, reassembler.buf, file, meta, verified)
    }

    constructor (texts: Texts, autoAccept: bool)
      ensures Valid() && View() == NewReceiver(autoAccept) && this.texts == texts && fresh(reassembler)
    {
      this.texts, this.autoAccept := texts, autoAccept;
      state, file, meta, verified := Idle, [], None, false;
      reassembler := new Reassembler(ReaderOf(FILE_FORMAT));
      new;
      ReaderIsSound(FILE_FORMAT);
    }

    method HandleOffer(body: bytes) returns (e: Encoded)
      requires state.Idle?
      modifies this`state, this`meta
      ensures ReceiverHandles(texts, old(View()), FileFrame(OFFER, body)) == Outcome(View(), e.out, e.raised)
    {
      e := Encoded([], false);
      match texts.readOffer(body)
      case None =>
        e := Control(REJECT, texts.empty);
        if !e.raised { state := Failed; }
      case Some(offer) =>
        meta := Some(offer);
        if autoAccept {
          e := Control(ACCEPT, texts.empty);
          if !e.raised { state := Receiving; }
        }
    }

    method HandleDone(body: bytes) returns (e: Encoded)
      requires state.Receiving?
      modifies this`state, this`verified
      ensures ReceiverHandles(texts, old(View()), FileFrame(DONE, body)) == Outcome(View(), e.out, e.raised)
    {
      verified := meta.Some? && texts.sha256(file) == meta.value.sha;
      if verified {
        e := Control(OK, texts.okTrue);
        if !e.raised { state := Complete; }
      } else {
        e := Control(NOT_OK, texts.okFalse);
        if !e.raised { state := Failed; }
      }
    }

    method HandleFrame(frame: FileFrame) returns (e: Encoded)
      modifies this`state, this`file, this`meta, this`verified
      ensures ReceiverHandles(texts, old(View()), frame) == Outcome(View(), e.out, e.raised)
    {
      e := Encoded([], false);
      if frame.ftype == OFFER && state.Idle? {
        e := HandleOffer(frame.body);
      } else if frame.ftype == CHUNK && state.Receiving? {
        file := file + frame.body;
      } else if frame.ftype == DONE && state.Receiving? {
        e := HandleDone(frame.body);
      }
    }

    method HandleAll(frames: seq<FileFrame>) returns (out: seq<bytes>, raised: bool)
      modifies this`state, this`file, this`meta, this`verified
      ensures ReceiverHandlesAll(texts, old(View()), frames) == Outcome(View(), out, raised)
    {
      out, raised := [], false;
      ghost var all := ReceiverHandlesAll(texts, View(), frames);
      var i := 0;
      while i < |frames|
        invariant 0 <= i <= |frames|
        invariant var rest := ReceiverHandlesAll(texts, View(), frames[i..]); all == rest.(out := out + rest.out)
      {
        assert frames[i..][0] == frames[i] && frames[i..][1..] == frames[i + 1..];
        var e := HandleFrame(frames[i]);
        ghost var rest := ReceiverHandlesAll(texts, View(), frames[i + 1..]);
        assert out + (e.out + rest.out) == (out + e.out) + rest.out;
        out := out + e.out;
        if e.raised {
          return out, true;
        }
        i := i + 1;
      }
      assert out + [] == out;
    }

    method Take(piece: bytes) returns (out: seq<bytes>, raised: bool)
      requires Valid()
      modifies this, reassembler
      ensures Valid() && ReceiverTakes(texts, old(View()), piece) == Outcome(View(), out, raised)
    {
      var fed := reassembler.Feed(piece);
      if fed.None? {
        return [], true;
      }
      out, raised := HandleAll(fed.value);
    }
  }

  lemma NextPiece(data: bytes, k: pos, offset: nat, end: nat, empty: bytes)
    requires offset < |data| && end == if offset + k < |data| then offset + k else |data|
    ensures var done := [FileFrame(DONE, empty)];
      ChunkFrames(Chunks(data[offset..], k)) + done
      == [FileFrame(CHUNK, data[offset..end])] + (ChunkFrames(Chunks(data[end..], k)) + done)
  {
    assert data[offset..][..end - offset] == data[offset..end];
    if end < |data| {
      assert data[offset..][k..] == data[end..];
    } else {
      assert data[offset..] == data[offset..end] && data[end..] == [];
    }
  }
}
