/** The two framings over a reliable byte stream: file-transfer frames (photontcp/app/file_codec.py) and
    chat messages (photontcp/app/codec.py). Both put a 4-byte big-endian length first. */
module Framing {
  import opened Prelude
  import opened Header
  import opened Scanning

  const LENGTH_SIZE := 4
  const MAX_FRAME_BYTES := 0x100_0000
  const MAX_MESSAGE_BYTES := 0x10_0000

  /** The declared lengths a codec accepts, and how it reads a complete body (None where it raises). */
  datatype Format<!T> = Format(least: nat, most: nat, parse: bytes -> Option<T>)

  function Prefixed(body: bytes): bytes
  {
    FourBytes(|body|) + body
  }

  function Declared(buf: bytes): int
    requires |buf| >= LENGTH_SIZE
  {
    Join4(buf[0], buf[1], buf[2], buf[3])
  }

  function FrontOf<T>(f: Format<T>, buf: bytes): Front<T>
  {
    if |buf| < LENGTH_SIZE then Waits
    else
      var length := Declared(buf);
      if length < f.least || length > f.most then Bad
      else if |buf| < LENGTH_SIZE + length then Waits
      else match f.parse(buf[LENGTH_SIZE..LENGTH_SIZE + length])
        case None => Bad
        case Some(item) => Frame(item, buf[LENGTH_SIZE + length..])
  }

  function ReaderOf<T>(f: Format<T>): Reader<T>
  {
    buf => FrontOf(f, buf)
  }

  lemma MoreBytesSameFront<T>(f: Format<T>, a: bytes, b: bytes)
    ensures FrontOf(f, a).Bad? ==> FrontOf(f, a + b).Bad?
    ensures FrontOf(f, a).Frame? ==> FrontOf(f, a + b) == Frame(FrontOf(f, a).item, FrontOf(f, a).rest + b)
  {
    if |a| >= LENGTH_SIZE {
      var length := Declared(a);
      assert Declared(a + b) == length;
      if |a| >= LENGTH_SIZE + length {
        assert (a + b)[LENGTH_SIZE..LENGTH_SIZE + length] == a[LENGTH_SIZE..LENGTH_SIZE + length];
        assert (a + b)[LENGTH_SIZE + length..] == a[LENGTH_SIZE + length..] + b;
      }
    }
  }

  lemma ReaderIsSound<T(!new)>(f: Format<T>)
    ensures Consumes(ReaderOf(f)) && Steady(ReaderOf(f)) && ReaderOf(f)([]).Waits?
  {
    var read := ReaderOf(f);
    forall a, b
      ensures (read(a).Bad? ==> read(a + b).Bad?) && (read(a).Frame? ==> read(a + b) == Frame(read(a).item, read(a).rest + b))
    {
      MoreBytesSameFront(f, a, b);
    }
  }

  lemma PartsOfPrefixed(four: bytes, body: bytes)
    requires |four| == LENGTH_SIZE && Declared(four) == |body|
    ensures var buf := four + body;
      Declared(buf) == |body| && buf[LENGTH_SIZE..LENGTH_SIZE + |body|] == body && buf[LENGTH_SIZE + |body|..] == []
  {
  }

  lemma PrefixedReads<T>(f: Format<T>, body: bytes, item: T)
    requires f.least <= |body| <= f.most && U32(|body|) && f.parse(body) == Some(item)
    ensures FrontOf(f, Prefixed(body)) == Frame(item, [])
  {
    SplitJoin4(|body|);
    PartsOfPrefixed(FourBytes(|body|), body);
    assert f.parse(Prefixed(body)[LENGTH_SIZE..LENGTH_SIZE + |body|]) == Some(item);
  }

  // ---- file-transfer frames --------------------------------------------------------------------

  datatype FileFrameType = OFFER | ACCEPT | REJECT | CHUNK | DONE | OK | NOT_OK

  datatype FileFrame = FileFrame(ftype: FileFrameType, body: bytes)

  function FileCode(t: FileFrameType): byte
  {
    match t
    case OFFER => 0
    case ACCEPT => 1
    case REJECT => 2
    case CHUNK => 3
    case DONE => 4
    case OK => 5
    case NOT_OK => 6
  }

  function FileTypeOf(b: byte): Option<FileFrameType>
  {
    match b
    case 0 => Some(OFFER)
    case 1 => Some(ACCEPT)
    case 2 => Some(REJECT)
    case 3 => Some(CHUNK)
    case 4 => Some(DONE)
    case 5 => Some(OK)
    case 6 => Some(NOT_OK)
    case _ => None
  }

  /** The section after the length: a type byte, then the body. */
  function ParseFile(section: bytes): Option<FileFrame>
  {
    if section == [] || FileTypeOf(section[0]).None? then None
    else Some(FileFrame(FileTypeOf(section[0]).value, section[1..]))
  }

  const FILE_FORMAT: Format<FileFrame> := Format(1, MAX_FRAME_BYTES, ParseFile)

  /** Every complete file frame at the front of a buffer. */
  ghost function ScanFile(buf: bytes): Scanned<FileFrame>
  {
    ReaderIsSound(FILE_FORMAT);
    Scan(ReaderOf(FILE_FORMAT), buf)
  }

  /** None where the source raises ValueError. */
  function EncodeFrame(frame: FileFrame): Option<bytes>
  {
    if 1 + |frame.body| > MAX_FRAME_BYTES then None
    else Some(Prefixed([FileCode(frame.ftype)] + frame.body))
  }

  /** An encoded frame reads back as itself, with nothing left. */
  lemma FileFrameReads(frame: FileFrame)
    requires EncodeFrame(frame).Some?
    ensures ReaderOf(FILE_FORMAT)(EncodeFrame(frame).value) == Frame(frame, [])
  {
    var section := [FileCode(frame.ftype)] + frame.body;
    assert section[1..] == frame.body && section[0] == FileCode(frame.ftype);
    PrefixedReads(FILE_FORMAT, section, frame);
  }

  /** The format byte by byte: a big-endian length of type and body, the type's number, the body. */
  lemma FileFramesOnTheWire(frame: FileFrame)
    ensures EncodeFrame(frame).Some? <==> |frame.body| < 16777216
    ensures EncodeFrame(frame).Some? ==>
      var e := EncodeFrame(frame).value;
      && |e| == 5 + |frame.body| && e[5..] == frame.body
      && 16777216 * e[0] as int + 65536 * e[1] as int + 256 * e[2] as int + e[3] as int == 1 + |frame.body|
      && e[4] == match frame.ftype
                 case OFFER => 0 case ACCEPT => 1 case REJECT => 2 case CHUNK => 3 case DONE => 4 case OK => 5 case NOT_OK => 6
  {
    if EncodeFrame(frame).Some? {
      SplitJoin4(1 + |frame.body|);
    }
  }

  /** The length a buffer begins with. */
  function LengthField(buf: bytes): int
    requires |buf| >= 4
  {
    16777216 * buf[0] as int + 65536 * buf[1] as int + 256 * buf[2] as int + buf[3] as int
  }

  /** What is refused: a length of 0 or above 16 MiB as soon as it is there, an unknown type once the frame
      is complete; and what is waited for. */
  lemma FileFrameErrors(buf: bytes)
    ensures FrontOf(FILE_FORMAT, buf).Bad? <==>
      |buf| >= 4 && (LengthField(buf) < 1 || LengthField(buf) > 16777216 || (|buf| >= 4 + LengthField(buf) && buf[4] > 6))
    ensures FrontOf(FILE_FORMAT, buf).Waits? <==>
      |buf| < 4 || (1 <= LengthField(buf) <= 16777216 && |buf| < 4 + LengthField(buf))
  {
  }

  /** Any list of file frames, encoded and cut into any feeds, comes out of the reassembler as it went in. */
  lemma FileFramesRoundTrip(frames: seq<FileFrame>, encodings: seq<bytes>, pieces: seq<bytes>)
    requires |encodings| == |frames| && forall i :: 0 <= i < |frames| ==> EncodeFrame(frames[i]) == Some(encodings[i])
    requires Concat(pieces) == Concat(encodings)
    ensures Consumes(ReaderOf(FILE_FORMAT)) && FeedAll(ReaderOf(FILE_FORMAT), [], pieces) == Scanned(frames, [], false)
  {
    ReaderIsSound(FILE_FORMAT);
    forall i | 0 <= i < |frames| ensures ReaderOf(FILE_FORMAT)(encodings[i]) == Frame(frames[i], []) {
      FileFrameReads(frames[i]);
    }
    FramesSurviveAnySplit(ReaderOf(FILE_FORMAT), encodings, frames, pieces);
  }

  // ---- chat messages ---------------------------------------------------------------------------
  // The JSON text of a message is a parameter: `encode` writes it, `decode` reads it (None where it raises).

  function ChatFormat<M>(decode: bytes -> Option<M>): Format<M>
  {
    Format(0, MAX_MESSAGE_BYTES, decode)
  }

  function EncodeMessage<M>(encode: M -> bytes, msg: M): Option<bytes>
  {
    if |encode(msg)| > MAX_MESSAGE_BYTES then None else Some(Prefixed(encode(msg)))
  }

  /** A message is its length, big-endian, and its text; the limit is 1 MiB. */
  lemma MessagesOnTheWire<M>(encode: M -> bytes, msg: M)
    ensures EncodeMessage(encode, msg).Some? <==> |encode(msg)| <= 1048576
    ensures EncodeMessage(encode, msg).Some? ==>
      var e := EncodeMessage(encode, msg).value; |e| == 4 + |encode(msg)| && e[4..] == encode(msg) && LengthField(e) == |encode(msg)|
  {
    if EncodeMessage(encode, msg).Some? {
      SplitJoin4(|encode(msg)|);
    }
  }

  /** What is refused: a length above 1 MiB as soon as it is there, text that does not read once it is
      complete; and what is waited for. */
  lemma MessageErrors<M>(decode: bytes -> Option<M>, buf: bytes)
    ensures FrontOf(ChatFormat(decode), buf).Bad? <==>
      |buf| >= 4 && (LengthField(buf) > 1048576 || (|buf| >= 4 + LengthField(buf) && decode(buf[4..4 + LengthField(buf)]).None?))
    ensures FrontOf(ChatFormat(decode), buf).Waits? <==>
      |buf| < 4 || (LengthField(buf) <= 1048576 && |buf| < 4 + LengthField(buf))
  {
  }

  /** The same for chat messages, given that JSON text reads back as what was written. */
  lemma MessagesRoundTrip<M(!new)>(encode: M -> bytes, decode: bytes -> Option<M>, msgs: seq<M>,
                                   encodings: seq<bytes>, pieces: seq<bytes>)
    requires forall m :: decode(encode(m)) == Some(m)
    requires |encodings| == |msgs| && forall i :: 0 <= i < |msgs| ==> EncodeMessage(encode, msgs[i]) == Some(encodings[i])
    requires Concat(pieces) == Concat(encodings)
    ensures Consumes(ReaderOf(ChatFormat(decode))) && FeedAll(ReaderOf(ChatFormat(decode)), [], pieces) == Scanned(msgs, [], false)
  {
    var f := ChatFormat(decode);
    ReaderIsSound(f);
    forall i | 0 <= i < |msgs| ensures ReaderOf(f)(encodings[i]) == Frame(msgs[i], []) {
      PrefixedReads(f, encode(msgs[i]), msgs[i]);
    }
    FramesSurviveAnySplit(ReaderOf(f), encodings, msgs, pieces);
  }
}
