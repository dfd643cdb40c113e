/** The time to the next packet on one segment of the rate profile, in whole nanoseconds. */
module PacketDelay {
  import opened Arithmetic

  const MAX_RATE: nat := 256_000_000_000 // bit/s; at 32 bytes one packet then takes 1 ns

  /** A stretch of the profile on which the rate moves linearly from `srate` to `erate`. */
  datatype Segment = Segment(sts: nat, ets: nat, srate: nat, erate: nat)

  /** Times 10^9 bits: what one packet of `len` bytes carries. */
  function Load(len: nat): nat {
    8_000_000_000 * len
  }

  function Square(x: int): int {
    x * x
  }

  /** Largest whole number whose square is at most `n`. */
  function SqrtFloor(n: nat): (r: nat)
    ensures Square(r) <= n < Square(r + 1)
  {
    if n == 0 then
      SqrtOfZero();
      hide Square;
      0
    else
      var q := SqrtFloor(n / 4);
      SqrtStep(n, q);
      hide Square;
      if Square(2 * q + 1) <= n then 2 * q + 1 else 2 * q
  }

  lemma SqrtOfZero()
    ensures Square(0) == 0 && Square(0 + 1) == 1
  {
  }

  lemma SqrtStep(n: nat, q: nat)
    requires Square(q) <= n / 4 < Square(q + 1)
    ensures Square(2 * q) <= n < Square(2 * q + 1 + 1)
  {
    assert Square(2 * q) == 4 * Square(q) && Square(2 * q + 2) == 4 * Square(q + 1);
  }

  /** Rate times segment length, `x` ns into the segment: the line the code interpolates. */
  function Line(g: Segment, x: nat): int {
    g.srate * (g.ets - g.sts) + (g.erate - g.srate) * x
  }

  /** The gap at the start of a ramp that rises from zero to `rate` over `tp` ns. */
  function FromRest(load: nat, tp: nat, rate: nat): nat
    requires rate > 0
  {
    SqrtFloor(2 * load * tp / rate)
  }

  /** The delay of `getNextPacketTS`, branch by branch. Only called with some rate non-zero. */
  function Delay(g: Segment, ts: nat, len: nat): nat
    requires g.sts <= ts < g.ets && (g.srate != 0 || g.erate != 0)
  {
    var tp: nat, x: nat := g.ets - g.sts, ts - g.sts;
    LinePositive(g, x);
    if g.srate == g.erate then Load(len) / g.erate
    else if x == 0 then
      if g.srate == 0 then FromRest(Load(len), tp, g.erate) else Load(len) / g.srate
    else Load(len) * tp / Line(g, x)
  }

  function NextPacketTs(g: Segment, ts: nat, len: nat): nat
    requires g.sts <= ts < g.ets
  {
    if g.srate == 0 && g.erate == 0 then g.ets else ts + Delay(g, ts, len)
  }

  /** What the generator relies on: a packet length of the parser and a rate whose packets
      are at least one nanosecond apart; profile times are whole milliseconds. */
  predicate Sane(g: Segment, len: nat) {
    && 32 <= len <= 1472
    && g.srate <= MAX_RATE && g.erate <= MAX_RATE
    && (g.sts < g.ets ==> g.ets - g.sts >= 1_000_000)
  }

  // The interpolated rate

  lemma LineConvex(g: Segment, x: nat)
    requires g.sts <= g.ets && x <= g.ets - g.sts
    ensures Line(g, x) == g.srate * (g.ets - g.sts - x) + g.erate * x
  {
  }

  /** The interpolated rate lies between the rates at the two ends of the segment. */
  lemma RateBetweenEndpoints(g: Segment, x: nat)
    requires g.sts <= g.ets && x <= g.ets - g.sts
    ensures var tp := g.ets - g.sts;
            var lo := if g.srate <= g.erate then g.srate else g.erate;
            var hi := if g.srate <= g.erate then g.erate else g.srate;
            lo * tp <= Line(g, x) <= hi * tp
  {
    var tp := g.ets - g.sts;
    LineConvex(g, x);
    var lo := if g.srate <= g.erate then g.srate else g.erate;
    var hi := if g.srate <= g.erate then g.erate else g.srate;
    MulMono(lo, g.srate, tp - x);
    MulMono(lo, g.erate, x);
    MulMono(g.srate, hi, tp - x);
    MulMono(g.erate, hi, x);
    assert lo * (tp - x) + lo * x == lo * tp;
    assert hi * (tp - x) + hi * x == hi * tp;
  }

  /** Inside a segment with some traffic the interpolated rate is never zero. */
  lemma LinePositive(g: Segment, x: nat)
    requires g.sts < g.ets && x < g.ets - g.sts && (g.srate != 0 || g.erate != 0)
    ensures g.srate > 0 || x > 0 ==> Line(g, x) > 0
  {
    LineConvex(g, x);
    if g.srate > 0 {
      MulMono(1, g.srate, g.ets - g.sts - x);
    } else {
      MulMono(1, g.erate, x);
    }
  }

  /** The positive-rate branches of the code are one formula. */
  lemma DelayIsQuotient(g: Segment, ts: nat, len: nat)
    requires g.sts <= ts < g.ets && (g.srate != 0 || g.erate != 0)
    requires g.srate != 0 || ts != g.sts
    ensures Line(g, ts - g.sts) > 0
    ensures Delay(g, ts, len) == Load(len) * (g.ets - g.sts) / Line(g, ts - g.sts)
  {
    var tp, x := g.ets - g.sts, ts - g.sts;
    LinePositive(g, x);
    if g.srate == g.erate || x == 0 {
      assert (g.erate - g.srate) * x == 0;
      DivScale(Load(len), g.srate, tp);
    }
  }

  /** From a silent start the first gap is the longest whole number of nanoseconds in which
      the ramp carries no more than one packet. */
  lemma FirstGapFromZero(g: Segment, len: nat)
    requires g.sts < g.ets && g.srate == 0 && g.erate > 0
    ensures var d, tp := Delay(g, g.sts, len), g.ets - g.sts;
            && Square(d) * g.erate <= 2 * Load(len) * tp < Square(d + 1) * g.erate
            && (forall k: nat :: Square(k) * g.erate <= 2 * Load(len) * tp ==> k <= d)
  {
    var a, b := 2 * Load(len) * (g.ets - g.sts), g.erate;
    LargestSquare(a, b, Delay(g, g.sts, len));
  }

  lemma LargestSquare(a: nat, b: nat, d: nat)
    requires b > 0 && Square(d) <= a / b < Square(d + 1)
    ensures Square(d) * b <= a < Square(d + 1) * b
    ensures forall k: nat :: Square(k) * b <= a ==> k <= d
  {
    DivSpec(a, b);
    MulMono(Square(d), a / b, b);
    MulMono(a / b + 1, Square(d + 1), b);
    forall k: nat | Square(k) * b <= a
      ensures k <= d
    {
      if k > d {
        SquareMono(d + 1, k);
        MulMono(Square(d + 1), Square(k), b);
      }
    }
  }

  lemma SquareMono(a: nat, b: nat)
    requires a <= b
    ensures Square(a) <= Square(b)
  {
  }

  /** Every delay is at least one nanosecond, so the cursor always moves. */
  lemma DelayPositive(g: Segment, ts: nat, len: nat)
    requires g.sts <= ts < g.ets && (g.srate != 0 || g.erate != 0) && Sane(g, len)
    ensures Delay(g, ts, len) >= 1
  {
    var tp, x := g.ets - g.sts, ts - g.sts;
    if g.srate == 0 && x == 0 {
      FirstGapFromZero(g, len);
      MulMono(1_000_000, tp, 2 * Load(len));
      assert Square(1) * g.erate <= 2 * Load(len) * tp;
    } else {
      DelayIsQuotient(g, ts, len);
      RateBetweenEndpoints(g, x);
      var hi := if g.srate <= g.erate then g.erate else g.srate;
      MulMono(hi, Load(len), tp);
      DivAtLeast(Load(len) * tp, Line(g, x), 1);
    }
  }
}
