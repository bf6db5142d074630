/** Taking frames off the front of a byte buffer, one after another, for any way of reading the first
    frame that never changes its mind when more bytes arrive. */
module Scanning {
  import opened Prelude

  /** What the front of a buffer holds: not enough yet, an error, or one frame and what follows it. */
  datatype Front<T> = Waits | Bad | Frame(item: T, rest: bytes)

  type Reader<!T> = bytes -> Front<T>

  ghost predicate Consumes<T(!new)>(read: Reader<T>)
  {
    forall buf :: read(buf).Frame? ==> |read(buf).rest| < |buf|
  }

  /** More bytes never change a frame that was read, nor an error. */
  ghost predicate Steady<T(!new)>(read: Reader<T>)
  {
    forall a, b {:trigger read(a + b)} ::
      && (read(a).Bad? ==> read(a + b).Bad?)
      && (read(a).Frame? ==> read(a + b) == Frame(read(a).item, read(a).rest + b))
  }

  /** The frames in order, the bytes left, and whether it ended on an error. */
  datatype Scanned<T> = Scanned(items: seq<T>, rest: bytes, raised: bool)

  ghost function Scan<T(!new)>(read: Reader<T>, buf: bytes): Scanned<T>
    requires Consumes(read)
    decreases |buf|
  {
    match read(buf)
    case Waits => Scanned([], buf, false)
    case Bad => Scanned([], buf, true)
    case Frame(item, rest) =>
      var s := Scan(read, rest);
      s.(items := [item] + s.items)
  }

  /** Feeding pieces one after the other, stopping at the first error. */
  ghost function FeedAll<T(!new)>(read: Reader<T>, buf: bytes, pieces: seq<bytes>): Scanned<T>
    requires Consumes(read)
    decreases |pieces|
  {
    if pieces == [] then Scanned([], buf, false)
    else
      var s := Scan(read, buf + pieces[0]);
      if s.raised then s
      else
        var r := FeedAll(read, s.rest, pieces[1..]);
        r.(items := s.items + r.items)
  }

  /** Scanning what has come so far, then the residue with what comes later, is scanning it all. */
  lemma {:induction false} ScanIsIncremental<T(!new)>(read: Reader<T>, a: bytes, b: bytes)
    requires Consumes(read) && Steady(read)
    ensures var first := Scan(read, a); var all := Scan(read, a + b);
      if first.raised then all.raised && all.items == first.items
      else var second := Scan(read, first.rest + b); all == Scanned(first.items + second.items, second.rest, second.raised)
    decreases |a|
  {
    if read(a).Frame? {
      ScanIsIncremental(read, read(a).rest, b);
    }
  }

  lemma {:induction false} ScanLeavesWaiting<T(!new)>(read: Reader<T>, buf: bytes)
    requires Consumes(read)
    ensures !Scan(read, buf).raised ==> read(Scan(read, buf).rest).Waits?
    decreases |buf|
  {
    if read(buf).Frame? {
      ScanLeavesWaiting(read, read(buf).rest);
    }
  }

  /** However a stream is cut into feeds, the frames and the error are those of the whole stream. */
  lemma {:induction false} SplitDoesNotMatter<T(!new)>(read: Reader<T>, buf: bytes, pieces: seq<bytes>)
    requires Consumes(read) && Steady(read) && read(buf).Waits?
    ensures var fed := FeedAll(read, buf, pieces); var all := Scan(read, buf + Concat(pieces));
      fed.items == all.items && fed.raised == all.raised && (!fed.raised ==> fed.rest == all.rest)
    decreases |pieces|
  {
    if pieces == [] {
      assert buf + [] == buf;
    } else {
      var s := Scan(read, buf + pieces[0]);
      ScanIsIncremental(read, buf + pieces[0], Concat(pieces[1..]));
      assert buf + Concat(pieces) == buf + pieces[0] + Concat(pieces[1..]);
      if !s.raised {
        ScanLeavesWaiting(read, buf + pieces[0]);
        SplitDoesNotMatter(read, s.rest, pieces[1..]);
      }
    }
  }

  /** `encodings[i]` is a complete frame that reads as `items[i]`. */
  ghost predicate Encodes<T(!new)>(read: Reader<T>, encodings: seq<bytes>, items: seq<T>)
  {
    && |encodings| == |items|
    && forall i :: 0 <= i < |items| ==> read(encodings[i]) == Frame(items[i], [])
  }

  lemma {:induction false} EncodingsScan<T(!new)>(read: Reader<T>, encodings: seq<bytes>, items: seq<T>, more: bytes)
    requires Consumes(read) && Steady(read) && Encodes(read, encodings, items)
    ensures var s := Scan(read, more);
      Scan(read, Concat(encodings) + more) == s.(items := items + s.items)
    decreases |items|
  {
    if items == [] {
      assert Concat(encodings) + more == more && items + Scan(read, more).items == Scan(read, more).items;
    } else {
      var later := Concat(encodings[1..]) + more;
      assert Concat(encodings) + more == encodings[0] + later && [] + later == later;
      EncodingsScan(read, encodings[1..], items[1..], more);
      assert [items[0]] + (items[1..] + Scan(read, more).items) == items + Scan(read, more).items;
    }
  }

  /** Any list of frames, cut anywhere, comes back whole and in order, with nothing left over. */
  lemma FramesSurviveAnySplit<T(!new)>(read: Reader<T>, encodings: seq<bytes>, items: seq<T>, pieces: seq<bytes>)
    requires Consumes(read) && Steady(read) && Encodes(read, encodings, items) && read([]).Waits?
    requires Concat(pieces) == Concat(encodings)
    ensures FeedAll(read, [], pieces) == Scanned(items, [], false)
  {
    EncodingsScan(read, encodings, items, []);
    assert Concat(encodings) + [] == Concat(encodings) && [] + Concat(pieces) == Concat(pieces) && items + [] == items;
    SplitDoesNotMatter(read, [], pieces);
  }

  /** Scanning any prefix of a frame stream yields a prefix of the frames and leaves exactly the rest. */
  lemma {:induction false} PrefixScans<T(!new)>(read: Reader<T>, buf: bytes, more: bytes, encodings: seq<bytes>, items: seq<T>)
    requires Consumes(read) && Steady(read) && Encodes(read, encodings, items) && read([]).Waits?
    requires buf + more == Concat(encodings)
    ensures var s := Scan(read, buf); var k := |s.items|;
      && !s.raised && k <= |items| && s.items == items[..k]
      && s.rest + more == Concat(encodings[k..]) && read(s.rest).Waits?
    decreases |items|
  {
    if items == [] {
      assert buf == [] && encodings[0..] == encodings;
    } else {
      assert read(buf + more) == Frame(items[0], [] + Concat(encodings[1..]));
      if read(buf).Frame? {
        var rest := read(buf).rest;
        assert rest + more == Concat(encodings[1..]);
        PrefixScans(read, rest, more, encodings[1..], items[1..]);
      }
    }
  }

  /** The reassembler that both codecs keep per stream. */
  class Reassembler<T(!new)> {
    const read: Reader<T>
    var buf: bytes

    constructor (read: Reader<T>)
      ensures this.read == read && buf == []
    {
      this.read, buf := read, [];
    }

    /** None where the source raises: the frames found so far are lost and the buffer starts at the bad one. */
    method Feed(data: bytes) returns (items: Option<seq<T>>)
      requires Consumes(read)
      modifies this
      ensures var s := Scan(read, old(buf) + data);
        buf == s.rest && items == if s.raised then None else Some(s.items)
    {
      buf := buf + data;
      ghost var all := Scan(read, buf);
      var found: seq<T> := [];
      while true
        invariant var s := Scan(read, buf); all == Scanned(found + s.items, s.rest, s.raised)
        decreases |buf|
      {
        match read(buf)
        case Waits => break;
        case Bad => return None;
        case Frame(item, rest) =>
          ghost var later := Scan(read, rest);
          assert found + ([item] + later.items) == (found + [item]) + later.items;
          found, buf := found + [item], rest;
      }
      assert found + [] == found;
      items := Some(found);
    }
  }
}
