/** Facts about 16-bit words. Each is a closed formula about its arguments, with the
    feedback of the shift register written out. */
module Words {

  lemma FeedbackOfTop(u: bv16)
    ensures u >> 15 == 1 ==> (u << 1) ^ 0x1021 == (u << 1) ^ ((u >> 15) << 12) ^ ((u >> 15) << 5) ^ (u >> 15)
    ensures u >> 15 != 1 ==> u << 1 == (u << 1) ^ ((u >> 15) << 12) ^ ((u >> 15) << 5) ^ (u >> 15)
  {
  }

  lemma TwoShifts(u: bv16, t: bv16, tt: bv16)
    requires t == (u << 1) ^ ((u >> 15) << 12) ^ ((u >> 15) << 5) ^ (u >> 15)
    requires tt == (t << 1) ^ ((t >> 15) << 12) ^ ((t >> 15) << 5) ^ (t >> 15)
    ensures tt == (u << 2) ^ ((u >> 14) << 12) ^ ((u >> 14) << 5) ^ (u >> 14)
  {
  }

  lemma FourShifts(u: bv16, t: bv16, tt: bv16)
    requires t == (u << 2) ^ ((u >> 14) << 12) ^ ((u >> 14) << 5) ^ (u >> 14)
    requires tt == (t << 2) ^ ((t >> 14) << 12) ^ ((t >> 14) << 5) ^ (t >> 14)
    ensures tt == (u << 4) ^ ((u >> 12) << 12) ^ ((u >> 12) << 5) ^ (u >> 12)
  {
  }

  lemma EightShifts(s: bv16, b: bv16, u: bv16, h: bv16, t: bv16, k: bv16, x: bv16, y: bv16)
    requires u == s ^ (b << 8) && b & 0xFF00 == 0
    requires h == u >> 12 && t == (u << 4) ^ (h << 12) ^ (h << 5) ^ h
    requires k == t >> 12
    requires x == (s >> 8) ^ b && y == x ^ (x >> 4)
    ensures (t << 4) ^ (k << 12) ^ (k << 5) ^ k == (s << 8) ^ (y << 12) ^ (y << 5) ^ y
  {
  }

  lemma SplitTop(s: bv16, r: bv16, top: bv16, u: bv16, v: bv16)
    requires top == r & 0x8000 && u == s ^ r && v == s ^ top
    ensures u == v ^ (r & 0x7FFF)
  {
  }

  lemma ShiftOfSum(u: bv16, v: bv16, r: bv16, su: bv16, sv: bv16)
    requires u == v ^ (r & 0x7FFF)
    requires su == (u << 1) ^ ((u >> 15) << 12) ^ ((u >> 15) << 5) ^ (u >> 15)
    requires sv == (v << 1) ^ ((v >> 15) << 12) ^ ((v >> 15) << 5) ^ (v >> 15)
    ensures su == sv ^ (r << 1)
  {
  }

  lemma SameTopBits(s: bv16, t: bv16, p: bv16)
    requires (s ^ p) & 0x8000 == (t ^ p) & 0x8000
    ensures s & 0x8000 == t & 0x8000
  {
  }

  lemma ShiftBack(u: bv16, v: bv16, su: bv16, sv: bv16, mask: bv16)
    requires su == (u << 1) ^ ((u >> 15) << 12) ^ ((u >> 15) << 5) ^ (u >> 15)
    requires sv == (v << 1) ^ ((v >> 15) << 12) ^ ((v >> 15) << 5) ^ (v >> 15)
    requires mask & 1 == 1 && (su ^ sv) & mask == 0
    ensures (u ^ v) & (mask >> 1) == 0 && u & 0x8000 == v & 0x8000
  {
  }

  lemma SameLowAndTop(u: bv16, v: bv16)
    requires (u ^ v) & 0x7FFF == 0 && u & 0x8000 == v & 0x8000
    ensures u == v
  {
  }

  lemma ByteWord(b: bv8)
    ensures (b as bv16) & 0xFF00 == 0 && (b as bv16) << 8 << 8 == 0
  {
  }

  lemma DropTops(s: bv16, t: bv16, x: bv16, y: bv16, mask: bv16)
    requires x & 0x7FFF == 0 && y & 0x7FFF == 0
    requires ((s ^ x) ^ (t ^ y)) & (mask >> 1) == 0 && (s ^ x) & 0x8000 == (t ^ y) & 0x8000
    ensures (s ^ t) & (mask >> 1) == 0
  {
  }

  lemma SameTops(s: bv16, x: bv16, y: bv16)
    requires x & 0x7FFF == 0 && y & 0x7FFF == 0
    requires (s ^ x) & 0x8000 == (s ^ y) & 0x8000
    ensures x == y
  {
  }

  lemma ByteWordInjective(a: bv8, b: bv8, s: bv16)
    requires s ^ ((a as bv16) << 8) == s ^ ((b as bv16) << 8)
    ensures a == b
  {
  }

  lemma TopBit(r: bv16)
    ensures r & 0x8000 == 0x8000 || r & 0x8000 == 0
    ensures (r & 0x8000) & 0x7FFF == 0
  {
  }

  lemma EightSingleShifts(r: bv16)
    ensures r << 1 << 1 << 1 << 1 << 1 << 1 << 1 << 1 == r << 8
  {
  }

  lemma SameWord(u: bv16)
    ensures (u ^ u) & 0xFFFF == 0
  {
  }

  /** Equality as a named relation, so that chains of equal words need no word-level search. */
  ghost predicate Eq(a: bv16, b: bv16) {
    a == b
  }

  lemma EqTrans(a: bv16, b: bv16, c: bv16)
    requires Eq(a, b) && Eq(b, c)
    ensures Eq(a, c)
  {
  }

  lemma XorZero(a: bv16, u: bv16, z: bv16)
    requires a == u ^ z && z == 0
    ensures a == u
  {
  }
}
