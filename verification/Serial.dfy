/** 32-bit serial numbers (photontcp/reliability/serial.py; RFC 1982, sections 3.1 and 3.2). */
module Serial {
  const SEQ_MOD: int := 0x1_0000_0000
  const SEQ_HALF: int := 0x8000_0000

  function SeqAdd(a: int, n: int): int
  {
    (a + n) % SEQ_MOD
  }

  predicate SeqLt(a: int, b: int)
  {
    0 < (b - a) % SEQ_MOD < SEQ_HALF
  }

  predicate SeqGt(a: int, b: int)
  {
    SeqLt(b, a)
  }

  predicate SeqLeq(a: int, b: int)
  {
    a == b || SeqLt(a, b)
  }

  predicate SeqGeq(a: int, b: int)
  {
    a == b || SeqGt(a, b)
  }

  function SeqDiff(a: int, b: int): int
  {
    var d := (a - b) % SEQ_MOD;
    if d >= SEQ_HALF then d - SEQ_MOD else d
  }

  predicate IsSerial(a: int)
  {
    0 <= a < SEQ_MOD
  }

  /** Reduction distributes over subtraction, with one multiple of SEQ_MOD of slack. */
  lemma ModOfDifference(i: int, j: int)
    ensures (i % SEQ_MOD - j % SEQ_MOD) % SEQ_MOD == (i - j) % SEQ_MOD
  {
    var q := i / SEQ_MOD - j / SEQ_MOD;
    assert i - j == (i % SEQ_MOD - j % SEQ_MOD) + SEQ_MOD * q;
    ModShift(i % SEQ_MOD - j % SEQ_MOD, q);
  }

  lemma {:induction false} ModShift(x: int, q: int)
    ensures (x + SEQ_MOD * q) % SEQ_MOD == x % SEQ_MOD
    decreases if q < 0 then -q else q
  {
    if q > 0 {
      ModShift(x, q - 1);
      assert (x + SEQ_MOD * (q - 1) + SEQ_MOD) % SEQ_MOD == (x + SEQ_MOD * (q - 1)) % SEQ_MOD;
    } else if q < 0 {
      ModShift(x, q + 1);
      assert (x + SEQ_MOD * (q + 1) - SEQ_MOD) % SEQ_MOD == (x + SEQ_MOD * (q + 1)) % SEQ_MOD;
    }
  }

  /** Any number of wraps away, the serial comparison of two positions less than half the space
      apart is the comparison of the positions themselves. */
  lemma ComparisonsUnwrap(i: int, j: int)
    requires -SEQ_HALF < i - j < SEQ_HALF
    ensures SeqLt(i % SEQ_MOD, j % SEQ_MOD) <==> i < j
    ensures SeqGt(i % SEQ_MOD, j % SEQ_MOD) <==> i > j
    ensures SeqLeq(i % SEQ_MOD, j % SEQ_MOD) <==> i <= j
    ensures SeqGeq(i % SEQ_MOD, j % SEQ_MOD) <==> i >= j
    ensures SeqDiff(i % SEQ_MOD, j % SEQ_MOD) == i - j
    ensures i % SEQ_MOD == j % SEQ_MOD <==> i == j
  {
    ModOfDifference(i, j);
    ModOfDifference(j, i);
  }

  lemma AdditionUnwraps(i: int, n: int)
    ensures SeqAdd(i % SEQ_MOD, n) == (i + n) % SEQ_MOD
  {
    var q := i / SEQ_MOD;
    assert i + n == (i % SEQ_MOD + n) + SEQ_MOD * q;
    ModShift(i % SEQ_MOD + n, q);
  }

  /** RFC 1982 leaves a pair exactly half the space apart undefined: here such a pair is ordered
      neither way, and it is the only pair of distinct serials that is. */
  lemma OnlyOppositesAreUnordered(a: int, b: int)
    requires IsSerial(a) && IsSerial(b)
    ensures !SeqLt(a, b) && !SeqLt(b, a) && a != b <==> (b - a) % SEQ_MOD == SEQ_HALF
    ensures !(SeqLt(a, b) && SeqLt(b, a))
    ensures SeqAdd(b, SeqDiff(a, b)) == a && -SEQ_HALF <= SeqDiff(a, b) < SEQ_HALF
  {
    if a >= b {
      assert (a - b) % SEQ_MOD == a - b;
      assert a > b ==> (b - a) % SEQ_MOD == b - a + SEQ_MOD;
      assert a - b >= SEQ_HALF ==> SeqAdd(b, SeqDiff(a, b)) == a;
    } else {
      assert (b - a) % SEQ_MOD == b - a;
      assert (a - b) % SEQ_MOD == a - b + SEQ_MOD;
    }
  }
}
