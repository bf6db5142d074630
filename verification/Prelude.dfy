/** Vocabulary shared by every layer: bytes, options and a few facts about sequences and sets. */
module Prelude {
  newtype byte = n: int | 0 <= n < 256
  type bytes = seq<byte>
  type pos = n: int | n >= 1 witness 1

  datatype Option<+T> = None | Some(value: T)

  function Concat<T>(parts: seq<seq<T>>): (all: seq<T>)
  {
    if parts == [] then [] else parts[0] + Concat(parts[1..])
  }

  lemma {:induction false} ConcatAppend<T>(a: seq<seq<T>>, b: seq<seq<T>>)
    ensures Concat(a + b) == Concat(a) + Concat(b)
  {
    if a == [] {
      assert a + b == b;
    } else {
      assert (a + b)[1..] == a[1..] + b;
      ConcatAppend(a[1..], b);
    }
  }

  /** Data cut into pieces of `k` bytes, the last one possibly shorter. */
  function Chunks(data: bytes, k: pos): (chunks: seq<bytes>)
  {
    if |data| <= k then (if data == [] then [] else [data]) else [data[..k]] + Chunks(data[k..], k)
  }

  /** Chunking loses nothing: the chunks of a submission concatenate back to its bytes. */
  lemma {:induction false} ChunksRebuildData(data: bytes, k: pos)
    ensures Concat(Chunks(data, k)) == data
    ensures forall c :: c in Chunks(data, k) ==> 1 <= |c| <= k
  {
    if |data| > k {
      ChunksRebuildData(data[k..], k);
      assert Chunks(data, k)[1..] == Chunks(data[k..], k);
      assert data == data[..k] + data[k..];
    } else if data != [] {
      assert [data][1..] == [];
      assert data + Concat([]) == data;
    }
  }

  /** Every chunk but the last has the full size, so there are as few as can be. */
  lemma {:induction false} ChunksAreFull(data: bytes, k: pos)
    ensures forall i :: 0 <= i < |Chunks(data, k)| - 1 ==> |Chunks(data, k)[i]| == k
    ensures var n := |Chunks(data, k)|; k * (n - 1) < |data| <= k * n || (n == 0 && data == [])
  {
    if |data| > k {
      ChunksAreFull(data[k..], k);
      var rest := Chunks(data[k..], k);
      assert Chunks(data, k) == [data[..k]] + rest;
      assert k * |rest| == k * (|rest| - 1) + k;
      assert k * (|rest| + 1) == k * |rest| + k;
    }
  }

  /** Total number of bytes held by a list of chunks. */
  function Size(chunks: seq<bytes>): (n: nat)
  {
    if chunks == [] then 0 else |chunks[0]| + Size(chunks[1..])
  }

  lemma {:induction false} SizeAppend(a: seq<bytes>, b: seq<bytes>)
    ensures Size(a + b) == Size(a) + Size(b)
  {
    if a == [] {
      assert a + b == b;
    } else {
      assert (a + b)[1..] == a[1..] + b;
      SizeAppend(a[1..], b);
    }
  }

  predicate Increasing(s: seq<int>)
  {
    forall i, j :: 0 <= i < j < |s| ==> s[i] < s[j]
  }

  /** A set of integers inside [lo, hi) has at most hi - lo members. */
  lemma {:induction false} IntervalBound(s: set<int>, lo: int, hi: int)
    requires lo <= hi
    requires forall k :: k in s ==> lo <= k < hi
    ensures |s| <= hi - lo
    decreases hi - lo
  {
    if lo == hi {
      assert s == {};
    } else {
      var rest := s - {hi - 1};
      IntervalBound(rest, lo, hi - 1);
      if hi - 1 in s {
        assert s == rest + {hi - 1};
      } else {
        assert s == rest;
      }
    }
  }

  lemma AnyKey<K, V>(m: map<K, V>) returns (k: K)
    requires m != map[]
    ensures k in m
  {
    k :| k in m;
  }
}
