/** CRC-32 (photontcp/packet/crc.py, which calls zlib), bit by bit as section 8 of RFC 1952 defines it. */
module Crc {
  import opened Prelude

  type octets = seq<bv8>

  const POLYNOMIAL: bv32 := 0xEDB8_8320
  const ALL_ONES: bv32 := 0xFFFF_FFFF

  /** One bit through the shift register. */
  function BitStep(c: bv32): bv32
  {
    if c & 1 == 1 then POLYNOMIAL ^ (c >> 1) else c >> 1
  }

  /** `n` turns of a register. */
  function Turns<T>(step: T -> T, n: nat, c: T): T
  {
    if n == 0 then c else step(Turns(step, n - 1, c))
  }

  function EightBits(c: bv32): bv32
  {
    Turns(BitStep, 8, c)
  }

  /** Each byte is mixed into the low end of the register, which then turns eight times. */
  function ByteStep(c: bv32, b: bv8): bv32
  {
    EightBits(c ^ (b as bv32))
  }

  function Feed<W>(step: (W, bv8) -> W, c: W, data: octets): W
    decreases |data|
  {
    if data == [] then c else Feed(step, step(c, data[0]), data[1..])
  }

  function FromBits(b7: bool, b6: bool, b5: bool, b4: bool, b3: bool, b2: bool, b1: bool, b0: bool): bv8
  {
    (if b7 then 0x80 else 0) | (if b6 then 0x40 else 0) | (if b5 then 0x20 else 0) | (if b4 then 0x10 else 0)
    | (if b3 then 8 else 0) | (if b2 then 4 else 0) | (if b1 then 2 else 0) | (if b0 then 1 else 0)
  }

  function Half(n: nat, times: nat): nat
    decreases times
  {
    if times == 0 then n else Half(n, times - 1) / 2
  }

  predicate BitAt(n: nat, k: nat)
  {
    Half(n, k) % 2 == 1
  }

  /** The eight bits of a byte. */
  function Octet(b: byte): bv8
  {
    var n := b as int;
    FromBits(BitAt(n, 7), BitAt(n, 6), BitAt(n, 5), BitAt(n, 4), BitAt(n, 3), BitAt(n, 2), BitAt(n, 1), BitAt(n, 0))
  }

  function Twice(n: nat, b: bool): nat
  {
    2 * n + (if b then 1 else 0)
  }

  /** The byte with given bits. */
  function FromOctet(o: bv8): byte
  {
    var upper := Twice(Twice(Twice(Twice(0, o & 0x80 != 0), o & 0x40 != 0), o & 0x20 != 0), o & 0x10 != 0);
    Twice(Twice(Twice(Twice(upper, o & 8 != 0), o & 4 != 0), o & 2 != 0), o & 1 != 0) as byte
  }

  function Octets(data: bytes): (o: octets)
    ensures |o| == |data| && forall i :: 0 <= i < |data| ==> o[i] == Octet(data[i])
  {
    seq(|data|, i requires 0 <= i < |data| => Octet(data[i]))
  }

  function Checksum(data: octets): bv32
  {
    Feed(ByteStep, ALL_ONES, data) ^ ALL_ONES
  }

  function Crc32(data: bytes): (c: int)
    ensures 0 <= c < 0x1_0000_0000
  {
    Checksum(Octets(data)) as int
  }

  // ---- the register ----------------------------------------------------------------------------

  lemma ShiftDistributes(x: bv32, y: bv32)
    ensures (x ^ y) >> 1 == (x >> 1) ^ (y >> 1)
    ensures (x ^ y) & 1 == (x & 1) ^ (y & 1)
  {
  }

  lemma LowBit(x: bv32)
    ensures x & 1 == 0 || x & 1 == 1
  {
  }

  lemma XorCancels(p: bv32, u: bv32, v: bv32)
    ensures (p ^ u) ^ (p ^ v) == u ^ v
    ensures (p ^ u) ^ v == p ^ (u ^ v)
    ensures u ^ (p ^ v) == p ^ (u ^ v)
  {
  }

  lemma BitStepIsLinear(x: bv32, y: bv32)
    ensures BitStep(x ^ y) == BitStep(x) ^ BitStep(y)
  {
    ShiftDistributes(x, y);
    LowBit(x);
    LowBit(y);
    XorCancels(POLYNOMIAL, x >> 1, y >> 1);
    if x & 1 == 1 {
      if y & 1 == 1 {
        assert (x ^ y) & 1 == 0;
      } else {
        assert (x ^ y) & 1 == 1;
      }
    }
  }

  ghost predicate Additive<T(!new)>(step: T -> T, add: (T, T) -> T)
  {
    forall x, y {:trigger step(add(x, y))} :: step(add(x, y)) == add(step(x), step(y))
  }

  lemma {:induction false} TurnsAreAdditive<T(!new)>(step: T -> T, add: (T, T) -> T, n: nat, x: T, y: T)
    requires Additive(step, add)
    ensures Turns(step, n, add(x, y)) == add(Turns(step, n, x), Turns(step, n, y))
  {
    if n > 0 {
      TurnsAreAdditive(step, add, n - 1, x, y);
    }
  }

  function Xor(x: bv32, y: bv32): bv32
  {
    x ^ y
  }

  lemma BitStepIsAdditive()
    ensures Additive(BitStep, Xor)
  {
    forall u, v ensures BitStep(Xor(u, v)) == Xor(BitStep(u), BitStep(v)) {
      BitStepIsLinear(u, v);
    }
  }

  lemma BitTurnsAreAdditive(n: nat, x: bv32, y: bv32)
    ensures Turns(BitStep, n, Xor(x, y)) == Xor(Turns(BitStep, n, x), Turns(BitStep, n, y))
  {
    BitStepIsAdditive();
    TurnsAreAdditive(BitStep, Xor, n, x, y);
  }

  lemma EightBitsIsLinear(x: bv32, y: bv32)
    ensures EightBits(x ^ y) == EightBits(x) ^ EightBits(y)
  {
    BitTurnsAreAdditive(8, x, y);
  }

  predicate StepsBack(e: bv32, e': bv32)
  {
    e' & 0x8000_0000 == 0 ==> e == e' << 1
  }

  lemma BitStepsBack(e: bv32)
    ensures StepsBack(e, BitStep(e))
  {
  }

  lemma EightStepsBack(e: bv32, e1: bv32, e2: bv32, e3: bv32, e4: bv32, e5: bv32, e6: bv32, e7: bv32, e8: bv32)
    requires StepsBack(e, e1) && StepsBack(e1, e2) && StepsBack(e2, e3) && StepsBack(e3, e4)
    requires StepsBack(e4, e5) && StepsBack(e5, e6) && StepsBack(e6, e7) && StepsBack(e7, e8)
    requires e8 & 0xFF00_0000 == 0
    ensures e == e8 << 8
  {
  }

  lemma EachTurn<T(!new)>(step: T -> T, e: T, rel: (T, T) -> bool)
    requires forall u :: rel(u, step(u))
    ensures forall n: nat :: n < 8 ==> rel(Turns(step, n, e), Turns(step, n + 1, e))
  {
    forall n: nat | n < 8 ensures rel(Turns(step, n, e), Turns(step, n + 1, e)) {
      assert Turns(step, n + 1, e) == step(Turns(step, n, e));
    }
  }

  /** A byte step whose result has a clear top byte did nothing but shift. */
  lemma ClearTopByteMeansShift(e: bv32)
    requires EightBits(e) & 0xFF00_0000 == 0
    ensures e == EightBits(e) << 8
  {
    forall u ensures StepsBack(u, BitStep(u)) {
      BitStepsBack(u);
    }
    EachTurn(BitStep, e, StepsBack);
    EightStepsBack(e, Turns(BitStep, 1, e), Turns(BitStep, 2, e), Turns(BitStep, 3, e), Turns(BitStep, 4, e),
      Turns(BitStep, 5, e), Turns(BitStep, 6, e), Turns(BitStep, 7, e), EightBits(e));
  }

  lemma DifferenceBefore(e: bv32, e': bv32)
    ensures (EightBits(e) ^ EightBits(e')) & 0xFF00_0000 == 0 ==> e ^ e' == (EightBits(e) ^ EightBits(e')) << 8
  {
    EightBitsIsLinear(e, e');
    ShiftedBack(e ^ e', EightBits(e) ^ EightBits(e'));
  }

  lemma ShiftedBack(x: bv32, d: bv32)
    requires EightBits(x) == d
    ensures d & 0xFF00_0000 == 0 ==> x == d << 8
  {
    if d & 0xFF00_0000 == 0 {
      ClearTopByteMeansShift(x);
    }
  }

  // ---- what the checksum detects ---------------------------------------------------------------

  lemma {:induction false} FeedAppend<W>(step: (W, bv8) -> W, c: W, a: octets, b: octets)
    ensures Feed(step, c, a + b) == Feed(step, Feed(step, c, a), b)
    decreases |a|
  {
    if a == [] {
      assert a + b == b;
    } else {
      assert (a + b)[1..] == a[1..] + b;
      FeedAppend(step, step(c, a[0]), a[1..], b);
    }
  }

  /** The bytes in which two strings of one length differ. */
  function Changes(u: octets, v: octets): (d: octets)
    requires |u| == |v|
    ensures |d| == |u|
    decreases |u|
  {
    if u == [] then [] else [u[0] ^ v[0]] + Changes(u[1..], v[1..])
  }

  lemma EqualBytes(a: bv8, b: bv8)
    ensures a ^ b == 0 <==> a == b
  {
  }

  lemma {:induction false} NoChanges(u: octets, v: octets)
    requires |u| == |v| && forall i :: 0 <= i < |u| ==> Changes(u, v)[i] == 0
    ensures u == v
    decreases |u|
  {
    if u != [] {
      var d := Changes(u, v);
      forall i | 0 <= i < |u| - 1 ensures Changes(u[1..], v[1..])[i] == 0 {
        assert d[i + 1] == 0;
      }
      NoChanges(u[1..], v[1..]);
      assert d[0] == 0;
      EqualBytes(u[0], v[0]);
      assert u == [u[0]] + u[1..] && v == [v[0]] + v[1..];
    }
  }

  function Grow(b: bv8, x: bv32): bv32
  {
    (b as bv32) ^ (x << 8)
  }

  /** Up to four octets as one word, the first octet lowest. */
  function Word(d: octets): bv32
  {
    if d == [] then 0 else Grow(d[0], Word(d[1..]))
  }

  predicate DifferBy(c: bv32, c': bv32, d: octets)
  {
    c ^ c' == Word(d)
  }

  ghost predicate RunsBack<W(!new)>(step: (W, bv8) -> W, differ: (W, W, octets) -> bool)
  {
    && (forall c :: differ(c, c, []))
    && forall c, c', a, b, d {:trigger differ(step(c, a), step(c', b), d)} ::
         |d| <= 3 && differ(step(c, a), step(c', b), d) ==> differ(c, c', [a ^ b] + d)
  }

  /** Registers that agree after two strings of at most four bytes differed by exactly the strings' difference. */
  lemma {:induction false} RegistersDifferLikeStrings<W(!new)>(step: (W, bv8) -> W, differ: (W, W, octets) -> bool,
                                                               c: W, c': W, u: octets, v: octets)
    requires RunsBack(step, differ) && |u| == |v| <= 4 && Feed(step, c, u) == Feed(step, c', v)
    ensures differ(c, c', Changes(u, v))
    decreases |u|
  {
    if u != [] {
      RegistersDifferLikeStrings(step, differ, step(c, u[0]), step(c', v[0]), u[1..], v[1..]);
    }
  }

  lemma WordOfMore(b: bv8, d: octets)
    ensures Word([b] + d) == Grow(b, Word(d))
  {
    assert ([b] + d)[1..] == d;
  }

  lemma OneFits(a: bv8)
    ensures Grow(a, 0) & 0xFF00_0000 == 0
  {
  }

  lemma TwoFit(a: bv8, b: bv8)
    ensures Grow(a, Grow(b, 0)) & 0xFF00_0000 == 0
  {
  }

  lemma ThreeFit(a: bv8, b: bv8, c: bv8)
    ensures Grow(a, Grow(b, Grow(c, 0))) & 0xFF00_0000 == 0
  {
  }

  lemma ThreeOctetsLeaveTopClear(d: octets)
    requires |d| <= 3
    ensures Word(d) & 0xFF00_0000 == 0
  {
    if |d| == 1 {
      WordOfOne(d);
      OneFits(d[0]);
    } else if |d| == 2 {
      WordOfOne(d[1..]);
      TwoFit(d[0], d[1]);
    } else if |d| == 3 {
      WordOfTwo(d[1..]);
      ThreeFit(d[0], d[1], d[2]);
    }
  }

  lemma WordOfOne(d: octets)
    requires |d| == 1
    ensures Word(d) == Grow(d[0], 0)
  {
    assert d[1..] == [];
  }

  lemma WordOfTwo(d: octets)
    requires |d| == 2
    ensures Word(d) == Grow(d[0], Grow(d[1], 0))
  {
    WordOfOne(d[1..]);
  }

  lemma NothingMeansNothing(x: bv32, b: bv8)
    ensures x & 0xFF00_0000 == 0 && Grow(b, x) == 0 ==> b == 0 && x == 0
  {
  }

  lemma {:induction false} ZeroWord(d: octets)
    requires |d| <= 4 && Word(d) == 0
    ensures forall i :: 0 <= i < |d| ==> d[i] == 0
  {
    if d != [] {
      ThreeOctetsLeaveTopClear(d[1..]);
      NothingMeansNothing(Word(d[1..]), d[0]);
      ZeroWord(d[1..]);
      forall i | 0 <= i < |d| ensures d[i] == 0 {
        assert i > 0 ==> d[i] == d[1..][i - 1];
      }
    }
  }

  lemma Regroup(c: bv32, c': bv32, a: bv8, b: bv8, w: bv32)
    ensures (c ^ (a as bv32)) ^ (c' ^ (b as bv32)) == w ==> c ^ c' == ((a ^ b) as bv32) ^ w
  {
  }

  lemma SameWord(a: bv32, b: bv32)
    ensures a ^ b == 0 <==> a == b
  {
  }

  lemma ByteRunsBack(c: bv32, c': bv32, a: bv8, b: bv8, d: octets)
    requires |d| <= 3 && ByteStep(c, a) ^ ByteStep(c', b) == Word(d)
    ensures c ^ c' == Word([a ^ b] + d)
  {
    ThreeOctetsLeaveTopClear(d);
    WordOfMore(a ^ b, d);
    WordRunsBack(c, c', a, b, Word(d));
  }

  lemma WordRunsBack(c: bv32, c': bv32, a: bv8, b: bv8, w: bv32)
    requires ByteStep(c, a) ^ ByteStep(c', b) == w && w & 0xFF00_0000 == 0
    ensures c ^ c' == ((a ^ b) as bv32) ^ (w << 8)
  {
    DifferenceBefore(c ^ (a as bv32), c' ^ (b as bv32));
    Regroup(c, c', a, b, w << 8);
  }

  lemma BytesRunBack()
    ensures RunsBack(ByteStep, DifferBy)
  {
    forall c ensures DifferBy(c, c, []) {
      SameWord(c, c);
    }
    forall c, c', a, b, d | |d| <= 3 && DifferBy(ByteStep(c, a), ByteStep(c', b), d)
      ensures DifferBy(c, c', [a ^ b] + d)
    {
      ByteRunsBack(c, c', a, b, d);
    }
  }

  lemma RegistersAgree(c: bv32, c': bv32, u: octets, v: octets)
    requires |u| == |v| <= 4 && Feed(ByteStep, c, u) == Feed(ByteStep, c', v)
    ensures DifferBy(c, c', Changes(u, v))
  {
    BytesRunBack();
    RegistersDifferLikeStrings(ByteStep, DifferBy, c, c', u, v);
  }

  lemma {:induction false} FeedIsInjective(c: bv32, c': bv32, data: octets)
    requires Feed(ByteStep, c, data) == Feed(ByteStep, c', data)
    ensures c == c'
    decreases |data|
  {
    if data != [] {
      FeedIsInjective(ByteStep(c, data[0]), ByteStep(c', data[0]), data[1..]);
      OneByteIsInjective(c, c', data[0]);
    }
  }

  lemma OneByteIsInjective(c: bv32, c': bv32, b: bv8)
    requires ByteStep(c, b) == ByteStep(c', b)
    ensures c == c'
  {
    RegistersAgree(c, c', [b], [b]);
    EqualBytes(b, b);
    ZeroChange(c, c', [b ^ b]);
    assert Changes([b], [b]) == [b ^ b];
  }

  lemma ZeroChange(c: bv32, c': bv32, d: octets)
    requires DifferBy(c, c', d) && d == [0]
    ensures c == c'
  {
    SameWord(c, c');
    WordOfOne(d);
  }

  lemma OctetBurstsAreDetected(before: octets, u: octets, v: octets, after: octets)
    requires |u| == |v| <= 4 && Checksum(before + u + after) == Checksum(before + v + after)
    ensures u == v
  {
    SameAfterAllOnes(Feed(ByteStep, ALL_ONES, before + u + after), Feed(ByteStep, ALL_ONES, before + v + after));
    var c := Feed(ByteStep, ALL_ONES, before);
    FeedAppend(ByteStep, ALL_ONES, before + u, after);
    FeedAppend(ByteStep, ALL_ONES, before + v, after);
    FeedAppend(ByteStep, ALL_ONES, before, u);
    FeedAppend(ByteStep, ALL_ONES, before, v);
    FeedIsInjective(Feed(ByteStep, c, u), Feed(ByteStep, c, v), after);
    BurstsChangeTheRegister(c, u, v);
  }

  /** Any change confined to four consecutive bytes changes the checksum. */
  lemma BurstsAreDetected(before: bytes, u: bytes, v: bytes, after: bytes)
    requires |u| == |v| <= 4 && Crc32(before + u + after) == Crc32(before + v + after)
    ensures u == v
  {
    OctetsOfParts(before, u, after);
    OctetsOfParts(before, v, after);
    SameNumber(Checksum(Octets(before + u + after)), Checksum(Octets(before + v + after)));
    OctetBurstsAreDetected(Octets(before), Octets(u), Octets(v), Octets(after));
    SameOctets(u, v);
  }

  lemma OctetsOfParts(a: bytes, b: bytes, c: bytes)
    ensures Octets(a + b + c) == Octets(a) + Octets(b) + Octets(c)
  {
  }

  lemma SameOctets(u: bytes, v: bytes)
    requires Octets(u) == Octets(v)
    ensures u == v
  {
    forall i | 0 <= i < |u| ensures u[i] == v[i] {
      assert Octets(u)[i] == Octets(v)[i];
      SameOctet(u[i], v[i]);
    }
  }

  lemma SameNumber(x: bv32, y: bv32)
    requires x as int == y as int
    ensures x == y
  {
    assert x == (x as int) as bv32;
  }

  lemma BitsCanBeRead(b7: bool, b6: bool, b5: bool, b4: bool, b3: bool, b2: bool, b1: bool, b0: bool)
    ensures FromBits(b7, b6, b5, b4, b3, b2, b1, b0) & 0x80 != 0 <==> b7
    ensures FromBits(b7, b6, b5, b4, b3, b2, b1, b0) & 0x40 != 0 <==> b6
    ensures FromBits(b7, b6, b5, b4, b3, b2, b1, b0) & 0x20 != 0 <==> b5
    ensures FromBits(b7, b6, b5, b4, b3, b2, b1, b0) & 0x10 != 0 <==> b4
    ensures FromBits(b7, b6, b5, b4, b3, b2, b1, b0) & 8 != 0 <==> b3
    ensures FromBits(b7, b6, b5, b4, b3, b2, b1, b0) & 4 != 0 <==> b2
    ensures FromBits(b7, b6, b5, b4, b3, b2, b1, b0) & 2 != 0 <==> b1
    ensures FromBits(b7, b6, b5, b4, b3, b2, b1, b0) & 1 != 0 <==> b0
  {
  }

  lemma BitsAgree(a7: bool, a6: bool, a5: bool, a4: bool, a3: bool, a2: bool, a1: bool, a0: bool,
                  b7: bool, b6: bool, b5: bool, b4: bool, b3: bool, b2: bool, b1: bool, b0: bool)
    requires FromBits(a7, a6, a5, a4, a3, a2, a1, a0) == FromBits(b7, b6, b5, b4, b3, b2, b1, b0)
    ensures (a7 <==> b7) && (a6 <==> b6) && (a5 <==> b5) && (a4 <==> b4) && (a3 <==> b3) && (a2 <==> b2) && (a1 <==> b1) && (a0 <==> b0)
  {
    BitsCanBeRead(a7, a6, a5, a4, a3, a2, a1, a0);
    BitsCanBeRead(b7, b6, b5, b4, b3, b2, b1, b0);
  }

  /** Numbers with the same bits from `k` up to 8 have the same part above `k`. */
  lemma {:induction false} BitsDecide(m: nat, n: nat, k: nat)
    requires m < 256 && n < 256 && k <= 8
    requires forall j :: k <= j < 8 ==> (BitAt(m, j) <==> BitAt(n, j))
    ensures Half(m, k) == Half(n, k)
    decreases 8 - k
  {
    if k < 8 {
      BitsDecide(m, n, k + 1);
      assert Half(m, k + 1) == Half(m, k) / 2 && Half(n, k + 1) == Half(n, k) / 2;
      assert BitAt(m, k) <==> BitAt(n, k);
    } else {
      NothingLeft(m);
      NothingLeft(n);
    }
  }

  lemma NothingLeft(n: nat)
    requires n < 256
    ensures Half(n, 8) == 0
  {
    assert Half(n, 1) < 128;
    assert Half(n, 2) < 64;
    assert Half(n, 3) < 32;
    assert Half(n, 4) < 16;
    assert Half(n, 5) < 8;
    assert Half(n, 6) < 4;
    assert Half(n, 7) < 2;
  }

  lemma SameOctet(a: byte, b: byte)
    requires Octet(a) == Octet(b)
    ensures a == b
  {
    var (m, n) := (a as int, b as int);
    BitsAgree(BitAt(m, 7), BitAt(m, 6), BitAt(m, 5), BitAt(m, 4), BitAt(m, 3), BitAt(m, 2), BitAt(m, 1), BitAt(m, 0),
      BitAt(n, 7), BitAt(n, 6), BitAt(n, 5), BitAt(n, 4), BitAt(n, 3), BitAt(n, 2), BitAt(n, 1), BitAt(n, 0));
    SameBits(m, n);
  }

  lemma SameBits(m: nat, n: nat)
    requires m < 256 && n < 256
    requires (BitAt(m, 7) <==> BitAt(n, 7)) && (BitAt(m, 6) <==> BitAt(n, 6)) && (BitAt(m, 5) <==> BitAt(n, 5))
    requires (BitAt(m, 4) <==> BitAt(n, 4)) && (BitAt(m, 3) <==> BitAt(n, 3)) && (BitAt(m, 2) <==> BitAt(n, 2))
    requires (BitAt(m, 1) <==> BitAt(n, 1)) && (BitAt(m, 0) <==> BitAt(n, 0))
    ensures m == n
  {
    forall j | 0 <= j < 8 ensures BitAt(m, j) <==> BitAt(n, j) {
      assert j == 0 || j == 1 || j == 2 || j == 3 || j == 4 || j == 5 || j == 6 || j == 7;
    }
    BitsDecide(m, n, 0);
  }

  lemma LowestBit(n: nat, k: nat, m: nat, b: bool)
    requires Half(n, k) == Twice(m, b)
    ensures (BitAt(n, k) <==> b) && Half(n, k + 1) == m
  {
  }

  lemma BitsOfNumber(n: nat, b7: bool, b6: bool, b5: bool, b4: bool, b3: bool, b2: bool, b1: bool, b0: bool)
    requires n == Twice(Twice(Twice(Twice(Twice(Twice(Twice(Twice(0, b7), b6), b5), b4), b3), b2), b1), b0)
    ensures (BitAt(n, 7) <==> b7) && (BitAt(n, 6) <==> b6) && (BitAt(n, 5) <==> b5) && (BitAt(n, 4) <==> b4)
    ensures (BitAt(n, 3) <==> b3) && (BitAt(n, 2) <==> b2) && (BitAt(n, 1) <==> b1) && (BitAt(n, 0) <==> b0)
  {
    var n7 := Twice(0, b7);
    var n6 := Twice(n7, b6);
    var n5 := Twice(n6, b5);
    var n4 := Twice(n5, b4);
    var n3 := Twice(n4, b3);
    var n2 := Twice(n3, b2);
    var n1 := Twice(n2, b1);
    LowestBit(n, 0, n1, b0);
    LowestBit(n, 1, n2, b1);
    LowestBit(n, 2, n3, b2);
    LowestBit(n, 3, n4, b3);
    LowestBit(n, 4, n5, b4);
    LowestBit(n, 5, n6, b5);
    LowestBit(n, 6, n7, b6);
    LowestBit(n, 7, 0, b7);
  }

  lemma MasksRebuild(o: bv8)
    ensures FromBits(o & 0x80 != 0, o & 0x40 != 0, o & 0x20 != 0, o & 0x10 != 0, o & 8 != 0, o & 4 != 0, o & 2 != 0, o & 1 != 0) == o
  {
  }

  lemma OctetRoundTrip(o: bv8)
    ensures Octet(FromOctet(o)) == o
  {
    var n := FromOctet(o) as int;
    BitsOfNumber(n, o & 0x80 != 0, o & 0x40 != 0, o & 0x20 != 0, o & 0x10 != 0, o & 8 != 0, o & 4 != 0, o & 2 != 0, o & 1 != 0);
    MasksRebuild(o);
  }

  lemma BurstsChangeTheRegister(c: bv32, u: octets, v: octets)
    requires |u| == |v| <= 4 && Feed(ByteStep, c, u) == Feed(ByteStep, c, v)
    ensures u == v
  {
    RegistersAgree(c, c, u, v);
    SameWord(c, c);
    ZeroWord(Changes(u, v));
    NoChanges(u, v);
  }

  lemma SameAfterAllOnes(a: bv32, b: bv32)
    ensures a ^ ALL_ONES == b ^ ALL_ONES ==> a == b
  {
  }

  lemma StandardCheckValue()
    ensures Checksum([0x31, 0x32, 0x33, 0x34, 0x35, 0x36, 0x37, 0x38, 0x39]) == 0xCBF4_3926
  {
    assert ByteStep(0xFFFFFFFF, 0x31) == 0x7C231048;
    assert ByteStep(0x7C231048, 0x32) == 0xB0ACBB32;
    assert ByteStep(0xB0ACBB32, 0x33) == 0x77B79C2D;
    assert ByteStep(0x77B79C2D, 0x34) == 0x641C1F5C;
    assert ByteStep(0x641C1F5C, 0x35) == 0x340AC5E3;
    assert ByteStep(0x340AC5E3, 0x36) == 0xF68D2C9E;
    assert ByteStep(0xF68D2C9E, 0x37) == 0xAFFC9660;
    assert ByteStep(0xAFFC9660, 0x38) == 0x651F2550;
    assert ByteStep(0x651F2550, 0x39) == 0x340BC6D9;
  }
}
