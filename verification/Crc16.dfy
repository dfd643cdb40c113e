/** The byte-wise checksum against the shift register it is a fast form of. */
module Crc16 {
  import opened Words

  const START: bv16 := 0xFFFF

  /** One shift of the register: the reference definition of division by the polynomial
      x^16 + x^12 + x^5 + 1, whose terms below x^16 are 0x1021. */
  function Shift(s: bv16): bv16 {
    if s >> 15 == 1 then (s << 1) ^ 0x1021 else s << 1
  }

  function TopWord(bit: bool): bv16 {
    if bit then 0x8000 else 0
  }

  function FeedBit(s: bv16, bit: bool): bv16 {
    Shift(s ^ TopWord(bit))
  }

  /** The bit-serial checksum register after a message, first bit first. */
  function Serial(s: bv16, bits: seq<bool>): bv16
    decreases |bits|
  {
    if |bits| == 0 then s else Serial(FeedBit(s, bits[0]), bits[1..])
  }

  /** The `n` highest bits of `r`, highest first. */
  function TopBits(r: bv16, n: nat): (bits: seq<bool>)
    ensures |bits| == n
    decreases n
  {
    if n == 0 then [] else [r & 0x8000 == 0x8000] + TopBits(r << 1, n - 1)
  }

  /** Bits of a byte, highest first (the code is not reflected). */
  function ByteBits(b: bv8): (bits: seq<bool>)
    ensures |bits| == 8
  {
    TopBits((b as bv16) << 8, 8)
  }

  function Bits(data: seq<bv8>): seq<bool> {
    if |data| == 0 then [] else ByteBits(data[0]) + Bits(data[1..])
  }

  /** One pass of the byte-wise loop. */
  function ByteStep(crc: bv16, b: bv8): bv16 {
    Mix(crc, Fold((crc >> 8) ^ (b as bv16)))
  }

  function Fold(x: bv16): bv16 {
    x ^ (x >> 4)
  }

  function Mix(crc: bv16, x: bv16): bv16 {
    (crc << 8) ^ (x << 12) ^ (x << 5) ^ x
  }

  function Shifts(s: bv16, n: nat): bv16
    decreases n
  {
    if n == 0 then s else Shifts(Shift(s), n - 1)
  }

  function Left(r: bv16, n: nat): bv16
    decreases n
  {
    if n == 0 then r else Left(r << 1, n - 1)
  }

  // Single unfoldings, so that the proofs below need no definition at all.

  lemma ShiftsStep(s: bv16, n: nat)
    ensures Shifts(s, n) == if n == 0 then s else Shifts(Shift(s), n - 1)
  {
    hide Shift;
  }

  lemma SerialStep(s: bv16, bits: seq<bool>)
    ensures Serial(s, bits) == if |bits| == 0 then s else Serial(FeedBit(s, bits[0]), bits[1..])
  {
    hide FeedBit;
  }

  lemma LeftStep(r: bv16, n: nat)
    ensures Left(r, n) == if n == 0 then r else Left(r << 1, n - 1)
  {
  }

  lemma TopBitsStep(r: bv16, n: nat)
    requires n > 0
    ensures TopBits(r, n)[0] == (r & 0x8000 == 0x8000) && TopBits(r, n)[1..] == TopBits(r << 1, n - 1)
  {
  }

  lemma TopWordIs(r: bv16)
    ensures TopWord(r & 0x8000 == 0x8000) == r & 0x8000
  {
    TopBit(r);
  }

  // The fast form is the slow one.

  lemma ShiftFeedsBack(u: bv16)
    ensures Shift(u) == (u << 1) ^ ((u >> 15) << 12) ^ ((u >> 15) << 5) ^ (u >> 15)
  {
    FeedbackOfTop(u);
  }

  lemma PairShift(u: bv16)
    ensures Shift(Shift(u)) == (u << 2) ^ ((u >> 14) << 12) ^ ((u >> 14) << 5) ^ (u >> 14)
  {
    hide Shift;
    ShiftFeedsBack(u);
    ShiftFeedsBack(Shift(u));
    TwoShifts(u, Shift(u), Shift(Shift(u)));
  }

  lemma QuadShift(u: bv16)
    ensures FourTimes(u) == (u << 4) ^ ((u >> 12) << 12) ^ ((u >> 12) << 5) ^ (u >> 12)
  {
    hide Shift;
    PairShift(u);
    PairShift(Shift(Shift(u)));
    FourShifts(u, Shift(Shift(u)), Shift(Shift(Shift(Shift(u)))));
  }

  function FourTimes(u: bv16): bv16 {
    Shift(Shift(Shift(Shift(u))))
  }

  lemma EightTimes(u: bv16)
    ensures Shifts(u, 8) == FourTimes(FourTimes(u))
  {
    hide Shift;
    assert Shifts(u, 8) == Shifts(Shift(Shift(u)), 6) == Shifts(FourTimes(u), 4);
    var t := FourTimes(u);
    assert Shifts(t, 4) == Shifts(Shift(Shift(t)), 2);
  }

  lemma QuadShiftEq(u: bv16, h: bv16)
    requires h == u >> 12
    ensures Eq(FourTimes(u), (u << 4) ^ (h << 12) ^ (h << 5) ^ h)
  {
    hide FourTimes;
    QuadShift(u);
  }

  lemma OctShiftEq(s: bv16, b: bv16, u: bv16, h: bv16, t: bv16, k: bv16, x: bv16, y: bv16)
    requires u == s ^ (b << 8) && h == u >> 12 && t == FourTimes(u) && k == t >> 12
    requires b & 0xFF00 == 0 && x == (s >> 8) ^ b && y == x ^ (x >> 4)
    ensures Eq((t << 4) ^ (k << 12) ^ (k << 5) ^ k, (s << 8) ^ (y << 12) ^ (y << 5) ^ y)
  {
    hide FourTimes;
    QuadShiftEq(u, h);
    EightShifts(s, b, u, h, t, k, x, y);
  }

  lemma ByteStepIs(s: bv16, b: bv8, x: bv16)
    requires x == (s >> 8) ^ (b as bv16)
    ensures ByteStep(s, b) == Mix(s, Fold(x))
  {
    hide Mix, Fold;
  }

  lemma MixOf(s: bv16, f: bv16, y: bv16)
    requires f == y
    ensures Mix(s, f) == (s << 8) ^ (y << 12) ^ (y << 5) ^ y
  {
  }

  lemma MixIs(s: bv16, x: bv16, y: bv16)
    requires y == x ^ (x >> 4)
    ensures Mix(s, Fold(x)) == (s << 8) ^ (y << 12) ^ (y << 5) ^ y
    ensures Eq((s << 8) ^ (y << 12) ^ (y << 5) ^ y, Mix(s, Fold(x)))
  {
    hide Mix;
    MixOf(s, Fold(x), y);
  }

  lemma OctShiftMix(s: bv16, b: bv16, u: bv16, h: bv16, t: bv16, k: bv16, x: bv16, y: bv16)
    requires u == s ^ (b << 8) && h == u >> 12 && t == FourTimes(u) && k == t >> 12
    requires b & 0xFF00 == 0 && x == (s >> 8) ^ b && y == x ^ (x >> 4)
    ensures Eq(FourTimes(t), Mix(s, Fold(x)))
  {
    hide *;
    QuadShiftEq(t, k);
    OctShiftEq(s, b, u, h, t, k, x, y);
    MixIs(s, x, y);
    EqTrans(FourTimes(t), (t << 4) ^ (k << 12) ^ (k << 5) ^ k, (s << 8) ^ (y << 12) ^ (y << 5) ^ y);
    EqTrans(FourTimes(t), (s << 8) ^ (y << 12) ^ (y << 5) ^ y, Mix(s, Fold(x)));
  }

  lemma ByteIsEightShifts(s: bv16, b: bv8, w: bv16, u: bv16)
    requires w == b as bv16 && u == s ^ (w << 8)
    ensures ByteStep(s, b) == Shifts(u, 8)
  {
    hide FourTimes, Mix, Fold, Shifts, ByteStep;
    var x := (s >> 8) ^ w;
    var t := FourTimes(u);
    EightTimes(u);
    ByteWord(b);
    OctShiftMix(s, w, u, u >> 12, t, t >> 12, x, x ^ (x >> 4));
    ByteStepIs(s, b, x);
  }

  lemma ShiftSum(u: bv16, v: bv16, r: bv16)
    requires u == v ^ (r & 0x7FFF)
    ensures Shift(u) == Shift(v) ^ (r << 1)
  {
    hide Shift;
    ShiftFeedsBack(u);
    ShiftFeedsBack(v);
    ShiftOfSum(u, v, r, Shift(u), Shift(v));
  }

  lemma FeedTopAt(s: bv16, r: bv16, top: bv16, u: bv16, v: bv16)
    requires top == r & 0x8000 && u == s ^ r && v == s ^ top
    ensures Shift(u) == Shift(v) ^ (r << 1)
  {
    hide Shift;
    SplitTop(s, r, top, u, v);
    ShiftSum(u, v, r);
  }

  /** Feeding the highest waiting bit while the others move up. */
  lemma FeedTop(s: bv16, r: bv16, bit: bool, u: bv16, v: bv16)
    requires bit == (r & 0x8000 == 0x8000) && u == s ^ r && v == s ^ TopWord(bit)
    ensures Shift(u) == Shift(v) ^ (r << 1)
  {
    hide *;
    TopWordIs(r);
    FeedTopAt(s, r, TopWord(bit), u, v);
  }

  lemma FeedBitIs(s: bv16, bit: bool, v: bv16)
    requires v == s ^ TopWord(bit)
    ensures FeedBit(s, bit) == Shift(v)
  {
    hide Shift, TopWord;
  }

  /** Bits waiting in the register are fed one by one as it shifts. */
  lemma {:induction false} ShiftsFeed(s: bv16, r: bv16, n: nat, u: bv16)
    requires u == s ^ r
    ensures Shifts(u, n) == Serial(s, TopBits(r, n)) ^ Left(r, n)
    decreases n
  {
    hide *;
    ShiftsStep(u, n);
    SerialStep(s, TopBits(r, n));
    LeftStep(r, n);
    if n == 0 {
    } else {
      var bit := r & 0x8000 == 0x8000;
      var v := s ^ TopWord(bit);
      FeedTop(s, r, bit, u, v);
      FeedBitIs(s, bit, v);
      TopBitsStep(r, n);
      ShiftsFeed(Shift(v), r << 1, n - 1, Shift(u));
    }
  }

  lemma LeftEight(r: bv16)
    ensures Left(r, 8) == r << 8
  {
    assert Left(r, 8) == Left(r << 1 << 1, 6) == Left(r << 1 << 1 << 1 << 1, 4);
    assert Left(r, 8) == Left(r << 1 << 1 << 1 << 1 << 1 << 1, 2);
    EightSingleShifts(r);
  }

  lemma ByteBitsOf(b: bv8, r: bv16)
    requires r == (b as bv16) << 8
    ensures TopBits(r, 8) == ByteBits(b) && Left(r, 8) == 0
  {
    hide TopBits, Left;
    LeftEight(r);
    ByteWord(b);
  }

  lemma EightBitsFed(s: bv16, r: bv16, u: bv16, step: bv16)
    requires u == s ^ r && step == Shifts(u, 8) && Left(r, 8) == 0
    ensures step == Serial(s, TopBits(r, 8))
  {
    hide *;
    assert Shifts(u, 8) == Serial(s, TopBits(r, 8)) ^ Left(r, 8) by {
      ShiftsFeed(s, r, 8, u);
    }
    XorZero(step, Serial(s, TopBits(r, 8)), Left(r, 8));
  }

  /** One byte of the fast form is eight bits of the slow one. */
  lemma ByteIsEightBits(s: bv16, b: bv8)
    ensures ByteStep(s, b) == Serial(s, ByteBits(b))
  {
    hide *;
    var w := b as bv16;
    var r := w << 8;
    ByteIsEightShifts(s, b, w, s ^ r);
    ByteBitsOf(b, r);
    EightBitsFed(s, r, s ^ r, ByteStep(s, b));
  }

  lemma {:induction false} SerialSplit(s: bv16, a: seq<bool>, b: seq<bool>)
    ensures Serial(s, a + b) == Serial(Serial(s, a), b)
    decreases |a|
  {
    hide FeedBit;
    if |a| == 0 {
      assert a + b == b;
    } else {
      SerialSplit(FeedBit(s, a[0]), a[1..], b);
      assert (a + b)[1..] == a[1..] + b;
    }
  }

  lemma BitsStep(data: seq<bv8>)
    ensures Bits(data) == if |data| == 0 then [] else ByteBits(data[0]) + Bits(data[1..])
  {
    hide ByteBits;
  }

  lemma {:induction false} BitsAppend(a: seq<bv8>, b: seq<bv8>)
    ensures Bits(a + b) == Bits(a) + Bits(b)
  {
    hide *;
    BitsStep(a);
    BitsStep(a + b);
    if |a| == 0 {
      assert a + b == b;
      assert [] + Bits(b) == Bits(b);
    } else {
      BitsAppend(a[1..], b);
      assert (a + b)[1..] == a[1..] + b;
      assert ByteBits(a[0]) + (Bits(a[1..]) + Bits(b)) == ByteBits(a[0]) + Bits(a[1..]) + Bits(b);
    }
  }

  lemma Extend(done: seq<bv8>, b: bv8, crc: bv16)
    requires crc == Serial(START, Bits(done))
    ensures ByteStep(crc, b) == Serial(START, Bits(done + [b]))
  {
    hide ByteStep, Serial, ByteBits, START;
    ByteIsEightBits(crc, b);
    BitsAppend(done, [b]);
    assert [b][1..] == [] && Bits([b]) == ByteBits(b) + [];
    assert Bits([b]) == ByteBits(b);
    SerialSplit(START, Bits(done), ByteBits(b));
  }

  lemma LoopBody(crc: bv16, b: bv8, x: bv16, y: bv16, next: bv16)
    requires x == (crc >> 8) ^ (b as bv16) && y == x ^ (x >> 4)
    requires next == (crc << 8) ^ (y << 12) ^ (y << 5) ^ y
    ensures next == ByteStep(crc, b)
  {
    hide *;
    ByteStepIs(crc, b, x);
    MixIs(crc, x, y);
  }

  /** The byte-wise loop computes the bit-serial checksum of the first `length` bytes. */
  method Crc(data: seq<bv8>, length: nat) returns (crc: bv16)
    requires length <= |data| && length < 256
    ensures crc == Serial(START, Bits(data[..length]))
  {
    hide *;
    crc := START;
    Nothing(data);
    var i := 0;
    while i < length
      invariant i <= length
      invariant crc == Serial(START, Bits(data[..i]))
    {
      ghost var before := crc;
      Extend(data[..i], data[i], crc);
      assert data[..i + 1] == data[..i] + [data[i]];
      var x := (crc >> 8) ^ (data[i] as bv16);
      ghost var x0 := x;
      x := x ^ (x >> 4);
      crc := (crc << 8) ^ (x << 12) ^ (x << 5) ^ x;
      LoopBody(before, data[i], x0, x, crc);
      i := i + 1;
    }
  }

  lemma Nothing(data: seq<bv8>)
    ensures Serial(START, Bits(data[..0])) == START
  {
  }

  // Errors that the checksum always shows.

  /** Outputs of a shift that agree on a block of low bits come from inputs that agree on
      the block one shorter and on the highest bit. */
  lemma ShiftBackwards(u: bv16, v: bv16, mask: bv16)
    requires mask & 1 == 1 && (Shift(u) ^ Shift(v)) & mask == 0
    ensures (u ^ v) & (mask >> 1) == 0 && u & 0x8000 == v & 0x8000
  {
    ShiftFeedsBack(u);
    ShiftFeedsBack(v);
    hide Shift;
    ShiftBack(u, v, Shift(u), Shift(v), mask);
  }

  lemma ShiftInjective(u: bv16, v: bv16)
    requires Shift(u) == Shift(v)
    ensures u == v
  {
    hide Shift;
    SameWord(Shift(u));
    ShiftBackwards(u, v, 0xFFFF);
    SameLowAndTop(u, v);
  }

  lemma TopWordLow(bit: bool)
    ensures TopWord(bit) & 0x7FFF == 0
  {
  }

  lemma TopWordInjective(p: bool, q: bool)
    requires TopWord(p) == TopWord(q)
    ensures p == q
  {
  }

  lemma FeedBitBackwards(s: bv16, t: bv16, p: bool, q: bool, mask: bv16)
    requires mask & 1 == 1 && (FeedBit(s, p) ^ FeedBit(t, q)) & mask == 0
    ensures (s ^ t) & (mask >> 1) == 0 && (s == t ==> p == q)
  {
    hide Shift, TopWord;
    TopWordLow(p);
    TopWordLow(q);
    ShiftBackwards(s ^ TopWord(p), t ^ TopWord(q), mask);
    DropTops(s, t, TopWord(p), TopWord(q), mask);
    if s == t {
      SameTops(s, TopWord(p), TopWord(q));
      TopWordInjective(p, q);
    }
  }

  lemma FeedBitTops(s: bv16, t: bv16, bit: bool, mask: bv16)
    requires mask & 1 == 1 && (FeedBit(s, bit) ^ FeedBit(t, bit)) & mask == 0
    ensures s & 0x8000 == t & 0x8000
  {
    hide Shift, TopWord;
    ShiftBackwards(s ^ TopWord(bit), t ^ TopWord(bit), mask);
    SameTopBits(s, t, TopWord(bit));
  }

  lemma FeedBitInjective(s: bv16, t: bv16, bit: bool)
    requires FeedBit(s, bit) == FeedBit(t, bit)
    ensures s == t
  {
    hide *;
    SameWord(FeedBit(s, bit));
    FeedBitBackwards(s, t, bit, bit, 0xFFFF);
    FeedBitTops(s, t, bit, 0xFFFF);
    SameLowAndTop(s, t);
  }

  /** Different registers stay different over the same message. */
  lemma {:induction false} SerialInjective(s: bv16, t: bv16, bits: seq<bool>)
    requires Serial(s, bits) == Serial(t, bits)
    ensures s == t
    decreases |bits|
  {
    hide *;
    SerialStep(s, bits);
    SerialStep(t, bits);
    if |bits| == 0 {
    } else {
      SerialInjective(FeedBit(s, bits[0]), FeedBit(t, bits[0]), bits[1..]);
      FeedBitInjective(s, t, bits[0]);
    }
  }

  /** The low 16 - k bits. */
  function LowMask(k: nat): bv16 {
    if k == 0 then 0xFFFF else LowMask(k - 1) >> 1
  }

  lemma LowMaskStep(k: nat)
    ensures LowMask(k) == if k == 0 then 0xFFFF else LowMask(k - 1) >> 1
  {
  }

  lemma LowMaskOdd(k: nat)
    requires k <= 15
    ensures LowMask(k) & 1 == 1
  {
    assert LowMask(2) == 0x3FFF && LowMask(4) == 0x0FFF;
    assert LowMask(6) == 0x03FF && LowMask(8) == 0x00FF;
    assert LowMask(10) == 0x003F && LowMask(12) == 0x000F;
    assert LowMask(14) == 0x0003;
  }

  /** Equal outcomes after the same number of bits pin down the low bits of the registers. */
  lemma {:induction false} SerialBackwards(s: bv16, t: bv16, x: seq<bool>, y: seq<bool>)
    requires |x| == |y| <= 16 && Serial(s, x) == Serial(t, y)
    ensures (s ^ t) & LowMask(|x|) == 0
    ensures |x| > 0 && s == t ==> x[0] == y[0]
    decreases |x|
  {
    hide *;
    SerialStep(s, x);
    SerialStep(t, y);
    LowMaskStep(|x|);
    if |x| == 0 {
      SameWord(s);
    } else {
      SerialBackwards(FeedBit(s, x[0]), FeedBit(t, y[0]), x[1..], y[1..]);
      LowMaskOdd(|x| - 1);
      FeedBitBackwards(s, t, x[0], y[0], LowMask(|x| - 1));
    }
  }

  /** From a common register, different messages of at most 16 bits end differently. */
  lemma {:induction false} WindowInjective(s: bv16, x: seq<bool>, y: seq<bool>)
    requires |x| == |y| <= 16 && Serial(s, x) == Serial(s, y)
    ensures x == y
    decreases |x|
  {
    if |x| == 0 {
    } else {
      SerialBackwards(s, s, x, y);
      WindowInjective(FeedBit(s, x[0]), x[1..], y[1..]);
      assert x == [x[0]] + x[1..] && y == [y[0]] + y[1..];
    }
  }

  /** Every burst error of at most 16 bits is detected, wherever it lies in the message. */
  lemma BurstDetected(before: seq<bool>, x: seq<bool>, y: seq<bool>, after: seq<bool>)
    requires |x| == |y| <= 16 && x != y
    ensures Serial(START, before + x + after) != Serial(START, before + y + after)
  {
    hide Serial;
    var s := Serial(START, before);
    SerialSplit(START, before + x, after);
    SerialSplit(START, before + y, after);
    SerialSplit(START, before, x);
    SerialSplit(START, before, y);
    if Serial(START, before + x + after) == Serial(START, before + y + after) {
      SerialInjective(Serial(s, x), Serial(s, y), after);
      WindowInjective(s, x, y);
      assert false;
    }
  }

  lemma {:induction false} ShiftsInjective(u: bv16, v: bv16, n: nat)
    requires Shifts(u, n) == Shifts(v, n)
    ensures u == v
    decreases n
  {
    hide Shift;
    if n == 0 {
    } else {
      ShiftsInjective(Shift(u), Shift(v), n - 1);
      ShiftInjective(u, v);
    }
  }

  lemma ByteBitsInjective(a: bv8, b: bv8)
    requires ByteBits(a) == ByteBits(b)
    ensures a == b
  {
    hide ByteBits, Serial, ByteStep, Shifts;
    ByteIsEightBits(0, a);
    ByteIsEightBits(0, b);
    var u, v := 0 ^ ((a as bv16) << 8), 0 ^ ((b as bv16) << 8);
    ByteIsEightShifts(0, a, a as bv16, u);
    ByteIsEightShifts(0, b, b as bv16, v);
    ShiftsInjective(u, v, 8);
    ByteWordInjective(a, b, 0);
  }

  lemma TwoBytes(a: bv8, b: bv8)
    ensures Bits([a, b]) == ByteBits(a) + ByteBits(b)
  {
    hide ByteBits;
    assert [a, b][1..] == [b] && [b][1..] == [];
    assert Bits([b]) == ByteBits(b) + [];
  }

  /** Buffers that differ only within two adjacent bytes have different checksums. */
  lemma AdjacentBytesDetected(before: seq<bv8>, a: bv8, b: bv8, c: bv8, d: bv8, after: seq<bv8>)
    requires a != c || b != d
    ensures Serial(START, Bits(before + [a, b] + after)) != Serial(START, Bits(before + [c, d] + after))
  {
    hide Serial, ByteBits, Bits;
    BitsAppend(before + [a, b], after);
    BitsAppend(before + [c, d], after);
    BitsAppend(before, [a, b]);
    BitsAppend(before, [c, d]);
    TwoBytes(a, b);
    TwoBytes(c, d);
    var x, y := ByteBits(a) + ByteBits(b), ByteBits(c) + ByteBits(d);
    assert x[..8] == ByteBits(a) && x[8..] == ByteBits(b) && y[..8] == ByteBits(c) && y[8..] == ByteBits(d);
    if x == y {
      ByteBitsInjective(a, c);
      ByteBitsInjective(b, d);
      assert false;
    }
    BurstDetected(Bits(before), x, y, Bits(after));
  }
}
