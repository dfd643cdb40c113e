/** The packets of one segment: how their gaps evolve and how many bits they carry. */
module SegmentWalk {
  import opened Arithmetic
  import opened PacketDelay

  predicate Moving(g: Segment, len: nat) {
    g.sts < g.ets && (g.srate != 0 || g.erate != 0) && Sane(g, len)
  }

  /** Timestamps from the cursor position `ts` until the cursor leaves the segment. */
  function Walk(g: Segment, ts: nat, len: nat): seq<nat>
    requires Moving(g, len) && g.sts <= ts
    decreases if ts < g.ets then g.ets - ts else 0
  {
    if ts >= g.ets then []
    else
      DelayPositive(g, ts, len);
      var t := NextPacketTs(g, ts, len);
      [t] + Walk(g, t, len)
  }

  /** Time between the cursor and packet `i` of a walk, counted from the previous packet. */
  function Gap(g: Segment, ts: nat, len: nat, i: nat): int
    requires Moving(g, len) && g.sts <= ts && i < |Walk(g, ts, len)|
  {
    Walk(g, ts, len)[i] - (if i == 0 then ts else Walk(g, ts, len)[i - 1])
  }

  lemma NextMoves(g: Segment, ts: nat, len: nat)
    requires Moving(g, len) && g.sts <= ts < g.ets
    ensures NextPacketTs(g, ts, len) == ts + Delay(g, ts, len) > ts
  {
    hide Delay;
    DelayPositive(g, ts, len);
  }

  /** Strictly increasing from `ts`, with the last element, and only it, at or past `ets`. */
  ghost predicate Climbs(w: seq<nat>, ts: nat, ets: nat) {
    && (forall i :: 0 <= i < |w| ==> ts < w[i])
    && (forall i, j :: 0 <= i < j < |w| ==> w[i] < w[j])
    && (forall i :: 0 <= i < |w| - 1 ==> w[i] < ets)
    && (ts < ets ==> w != [] && w[|w| - 1] >= ets)
    && (ts >= ets ==> w == [])
  }

  lemma ClimbsPrepend(ts: nat, t: nat, v: seq<nat>, ets: nat)
    requires ts < t && ts < ets && Climbs(v, t, ets)
    ensures Climbs([t] + v, ts, ets)
  {
    var w := [t] + v;
    assert forall i :: 0 < i < |w| ==> w[i] == v[i - 1];
  }

  /** Timestamps strictly increase; only the last one lies outside the segment. */
  lemma {:induction false} WalkIncreases(g: Segment, ts: nat, len: nat)
    requires Moving(g, len) && g.sts <= ts
    ensures Climbs(Walk(g, ts, len), ts, g.ets)
    decreases if ts < g.ets then g.ets - ts else 0
  {
    hide Delay, NextPacketTs, Moving, Climbs;
    if ts < g.ets {
      NextMoves(g, ts, len);
      var t := NextPacketTs(g, ts, len);
      WalkIncreases(g, t, len);
      ClimbsPrepend(ts, t, Walk(g, t, len), g.ets);
    } else {
      EmptyClimbs(ts, g.ets);
    }
  }

  lemma EmptyClimbs(ts: nat, ets: nat)
    requires ts >= ets
    ensures Climbs([], ts, ets)
  {
  }

  // Gaps on ramps

  /** On a rising ramp the next gap is no longer than this one, also after a silent start. */
  lemma RisingGap(g: Segment, ts: nat, len: nat)
    requires Moving(g, len) && g.srate < g.erate && g.sts <= ts < g.ets
    requires ts + Delay(g, ts, len) < g.ets
    ensures Delay(g, ts + Delay(g, ts, len), len) <= Delay(g, ts, len)
  {
    var d := Delay(g, ts, len);
    DelayPositive(g, ts, len);
    var x := ts - g.sts;
    DelayIsQuotient(g, ts + d, len);
    if g.srate == 0 && x == 0 {
      RisingGapFromZero(g, len);
    } else {
      DelayIsQuotient(g, ts, len);
      LineRises(g, x, x + d);
      DivAntitone(Load(len) * (g.ets - g.sts), Line(g, x), Line(g, x + d));
    }
  }

  lemma LineRises(g: Segment, x: nat, y: nat)
    requires x <= y
    ensures g.srate <= g.erate ==> Line(g, x) <= Line(g, y)
    ensures g.srate >= g.erate ==> Line(g, x) >= Line(g, y)
  {
    if g.srate <= g.erate {
      MulMono(x, y, g.erate - g.srate);
    } else {
      MulMono(x, y, g.srate - g.erate);
    }
  }

  lemma SquaresApart(a: nat, b: nat, d: nat)
    requires d >= 1 && 2 * a < Square(d + 1) * b
    ensures a < (d + 1) * (b * d)
  {
    assert Square(d + 1) == d * d + 2 * d + 1 <= 2 * (d * d + d) by {
      MulMono(1, d, d);
    }
    MulMono(Square(d + 1), 2 * (d * d + d), b);
    assert 2 * (d * d + d) * b == 2 * ((d + 1) * (b * d)) by {
      assert (d * d + d) * b == (d + 1) * d * b;
      MulAssoc(d + 1, d, b);
    }
  }

  lemma LineFromZero(g: Segment, x: nat)
    requires g.srate == 0
    ensures Line(g, x) == g.erate * x
  {
  }

  /** The first gap after a silent start, with the products as the other lemmas name them. */
  lemma FirstGapBounds(g: Segment, len: nat, a: nat, d: nat)
    requires g.sts < g.ets && g.srate == 0 && g.erate > 0
    requires a == Load(len) * (g.ets - g.sts) && d == Delay(g, g.sts, len)
    ensures Square(d) * g.erate <= 2 * a < Square(d + 1) * g.erate
  {
    hide Delay;
    FirstGapFromZero(g, len);
    MulAssoc(2, Load(len), g.ets - g.sts);
  }

  lemma RisingGapFromZero(g: Segment, len: nat)
    requires Moving(g, len) && g.srate == 0 && g.erate > 0
    requires g.sts + Delay(g, g.sts, len) < g.ets
    ensures Delay(g, g.sts + Delay(g, g.sts, len), len) <= Delay(g, g.sts, len)
  {
    hide Delay, Line, Load;
    var d := Delay(g, g.sts, len);
    var a := Load(len) * (g.ets - g.sts);
    DelayPositive(g, g.sts, len);
    FirstGapBounds(g, len, a, d);
    SquaresApart(a, g.erate, d);
    LineFromZero(g, d);
    DelayIsQuotient(g, g.sts + d, len);
    DivAtMost(a, g.erate * d, d);
  }

  /** On a falling ramp the next gap is no shorter than this one. */
  lemma FallingGap(g: Segment, ts: nat, len: nat)
    requires Moving(g, len) && g.erate < g.srate && g.sts <= ts < g.ets
    requires ts + Delay(g, ts, len) < g.ets
    ensures Delay(g, ts + Delay(g, ts, len), len) >= Delay(g, ts, len)
  {
    var d := Delay(g, ts, len);
    var x := ts - g.sts;
    DelayIsQuotient(g, ts + d, len);
    DelayIsQuotient(g, ts, len);
    LineRises(g, x, x + d);
    DivAntitone(Load(len) * (g.ets - g.sts), Line(g, x + d), Line(g, x));
  }

  /** Over the whole walk: gaps never grow on a rising ramp, never shrink on a falling one
      and are all equal at a constant rate. */
  lemma {:induction false} GapsFollowTheRamp(g: Segment, ts: nat, len: nat, i: nat)
    requires Moving(g, len) && g.sts <= ts && i + 1 < |Walk(g, ts, len)|
    ensures g.srate <= g.erate ==> Gap(g, ts, len, i + 1) <= Gap(g, ts, len, i)
    ensures g.srate >= g.erate ==> Gap(g, ts, len, i + 1) >= Gap(g, ts, len, i)
    decreases i
  {
    DelayPositive(g, ts, len);
    var t := NextPacketTs(g, ts, len);
    var w, v := Walk(g, ts, len), Walk(g, t, len);
    assert forall k :: 0 <= k < |v| ==> w[k + 1] == v[k];
    if i > 0 {
      GapsFollowTheRamp(g, t, len, i - 1);
    } else if g.srate < g.erate {
      RisingGap(g, ts, len);
    } else if g.erate < g.srate {
      FallingGap(g, ts, len);
    }
  }

  // Bits

  /** Twice the segment length times the area under the rate line up to `x`: the rate at
      offset `x` is Line / length, so this is 2 * length * (bits * 10^9). */
  function Area(g: Segment, x: int): int {
    2 * g.srate * (g.ets - g.sts) * x + (g.erate - g.srate) * Square(x)
  }

  lemma AreaStep(g: Segment, x: nat, d: nat)
    ensures Area(g, x + d) - Area(g, x) == 2 * Line(g, x) * d + (g.erate - g.srate) * Square(d)
  {
    var p, q := g.srate * (g.ets - g.sts), g.erate - g.srate;
    assert Square(x + d) == Square(x) + 2 * x * d + Square(d);
    assert q * Square(x + d) == q * Square(x) + 2 * (q * x) * d + q * Square(d);
    assert 2 * p * (x + d) == 2 * p * x + 2 * p * d;
    assert 2 * (p + q * x) * d == 2 * p * d + 2 * (q * x) * d;
  }

  /** One gap on a level or falling segment carries at least the area under it. */
  lemma GapCoversArea(g: Segment, ts: nat, len: nat)
    requires Moving(g, len) && g.erate <= g.srate && g.sts <= ts < g.ets
    ensures var t := NextPacketTs(g, ts, len);
            var e := if t < g.ets then t else g.ets;
            Area(g, e - g.sts) - Area(g, ts - g.sts) <= 2 * Load(len) * (g.ets - g.sts)
  {
    hide Delay, Line, Load, Area;
    var tp: nat, x: nat := g.ets - g.sts, ts - g.sts;
    var d := Delay(g, ts, len);
    var k: nat := if ts + d < g.ets then d else g.ets - ts;
    DelayIsQuotient(g, ts, len);
    var a: nat, b: nat := Load(len) * tp, Line(g, x);
    AreaStep(g, x, k);
    DivSpec(a, b);
    FallingGapArea(a, b, d, k, g.srate - g.erate);
    MulAssoc(2, Load(len), tp);
  }

  lemma FallingGapArea(a: nat, b: nat, d: nat, k: nat, drop: nat)
    requires d * b <= a && k <= d
    ensures 2 * b * k + (0 - drop) * Square(k) <= 2 * a
  {
    MulMono(k, d, b);
    MulMono(0, Square(k), drop);
    assert 2 * b * k == 2 * (k * b) && (0 - drop) * Square(k) == 0 - Square(k) * drop;
  }

  /** A level or falling segment never under-sends: the packets of a walk carry at least the
      bits under the rate line from the cursor to the end of the segment. */
  lemma {:induction false} NeverUnderSends(g: Segment, ts: nat, len: nat)
    requires Moving(g, len) && g.erate <= g.srate && g.sts <= ts <= g.ets
    ensures 2 * Load(len) * (g.ets - g.sts) * |Walk(g, ts, len)| >= Area(g, g.ets - g.sts) - Area(g, ts - g.sts)
    decreases g.ets - ts
  {
    hide Delay, NextPacketTs, Area, Load;
    if ts >= g.ets {
    } else {
      NextMoves(g, ts, len);
      GapCoversArea(g, ts, len);
      var t := NextPacketTs(g, ts, len);
      var c := 2 * Load(len) * (g.ets - g.sts);
      var n := |Walk(g, t, len)|;
      assert |Walk(g, ts, len)| == n + 1;
      assert c * (n + 1) == c * n + c;
      if t < g.ets {
        NeverUnderSends(g, t, len);
      } else {
        assert n == 0;
      }
    }
  }

  /** One complete gap on a level or rising segment carries at most the area under it plus
      the share lost to rounding the gap down to whole nanoseconds. */
  lemma GapWithinArea(g: Segment, ts: nat, len: nat)
    requires Moving(g, len) && g.srate <= g.erate && g.sts <= ts < g.ets
    requires ts + Delay(g, ts, len) < g.ets
    ensures var d := Delay(g, ts, len);
            Area(g, ts + d - g.sts) - Area(g, ts - g.sts) >= 2 * (Load(len) - g.erate) * (g.ets - g.sts)
  {
    hide Delay, Line, Load, Area;
    var tp: nat, x: nat := g.ets - g.sts, ts - g.sts;
    var d := Delay(g, ts, len);
    var a, top := Load(len) * tp, g.erate * tp;
    AreaStep(g, x, d);
    Distribute(Load(len), g.erate, tp);
    if g.srate == 0 && x == 0 {
      FirstGapBounds(g, len, a, d);
      LineFromZero(g, 0);
      FirstGapArea(a, g.erate, d, tp);
    } else {
      DelayIsQuotient(g, ts, len);
      RateBetweenEndpoints(g, x);
      DivSpec(a, Line(g, x));
      RisingGapArea(a, Line(g, x), d, top, g.erate - g.srate);
    }
  }

  lemma Distribute(a: nat, b: nat, k: nat)
    ensures 2 * (a - b) * k == 2 * (a * k) - 2 * (b * k)
  {
  }

  lemma FirstGapArea(a: nat, b: nat, d: nat, tp: nat)
    requires 2 * a < Square(d + 1) * b && d < tp
    ensures b * Square(d) >= 2 * a - 2 * (b * tp)
  {
    assert Square(d + 1) == Square(d) + (2 * d + 1);
    assert Square(d + 1) * b == Square(d) * b + (2 * d + 1) * b;
    MulMono(2 * d + 1, 2 * tp, b);
  }

  lemma RisingGapArea(a: nat, b: nat, d: nat, top: nat, rise: nat)
    requires a < (d + 1) * b && b <= top
    ensures 2 * b * d + rise * Square(d) >= 2 * a - 2 * top
  {
    MulMono(0, Square(d), rise);
    assert (d + 1) * b == d * b + b;
    assert 2 * b * d == 2 * (d * b);
  }

  /** A level or rising segment never over-sends: all packets of a walk but the last one carry
      at most the bits under the rate line, plus one nanosecond of the end rate per packet. */
  lemma {:induction false} NeverOverSends(g: Segment, ts: nat, len: nat)
    requires Moving(g, len) && g.srate <= g.erate && g.sts <= ts < g.ets
    ensures 2 * (Load(len) - g.erate) * (g.ets - g.sts) * (|Walk(g, ts, len)| - 1)
              <= Area(g, g.ets - g.sts) - Area(g, ts - g.sts)
    decreases g.ets - ts
  {
    hide Delay, NextPacketTs, Area, Load;
    NextMoves(g, ts, len);
    var t := NextPacketTs(g, ts, len);
    var c := 2 * (Load(len) - g.erate) * (g.ets - g.sts);
    var n := |Walk(g, t, len)|;
    assert |Walk(g, ts, len)| == n + 1;
    if t < g.ets {
      GapWithinArea(g, ts, len);
      NeverOverSends(g, t, len);
      assert n >= 1 && c * n == c * (n - 1) + c;
    } else {
      assert n == 0;
      AreaRises(g, ts - g.sts, g.ets - g.sts);
    }
  }

  lemma AreaRises(g: Segment, x: nat, y: nat)
    requires g.srate <= g.erate && x <= y && g.sts <= g.ets
    ensures Area(g, x) <= Area(g, y)
  {
    AreaStep(g, x, y - x);
    MulMono(0, Square(y - x), g.erate - g.srate);
    assert Line(g, x) >= 0 by {
      MulMono(0, g.ets - g.sts, g.srate);
      MulMono(0, x, g.erate - g.srate);
    }
    MulMono(0, y - x, 2 * Line(g, x));
  }

  // Constant rate

  /** At a constant rate packet `i` lies exactly `i + 1` delays after the cursor. */
  lemma {:induction false} ConstantRateTimes(g: Segment, ts: nat, len: nat, i: nat)
    requires Moving(g, len) && g.srate == g.erate && g.sts <= ts && i < |Walk(g, ts, len)|
    ensures Walk(g, ts, len)[i] == ts + (i + 1) * (Load(len) / g.erate)
    decreases i
  {
    DelayPositive(g, ts, len);
    var t := NextPacketTs(g, ts, len);
    if i == 0 {
    } else {
      ConstantRateTimes(g, t, len, i - 1);
      var d := Load(len) / g.erate;
      assert (i + 1) * d == i * d + d;
    }
  }

  /** At a constant rate a segment entered at `ts` emits exactly ceil((ets - ts) / d) packets,
      whose bits cover rate * time and exceed it by less than one packet and the rounding. */
  lemma ConstantRateCount(g: Segment, ts: nat, len: nat)
    requires Moving(g, len) && g.srate == g.erate && g.sts <= ts < g.ets
    ensures var d, n := Load(len) / g.erate, |Walk(g, ts, len)|;
            && (n - 1) * d < g.ets - ts <= n * d
            && g.erate * (g.ets - ts) <= Load(len) * n < g.erate * (g.ets - ts) + Load(len) + g.erate * n
  {
    var d, n, r := Load(len) / g.erate, |Walk(g, ts, len)|, g.erate;
    WalkIncreases(g, ts, len);
    DelayPositive(g, ts, len);
    ConstantRateTimes(g, ts, len, n - 1);
    if n >= 2 {
      ConstantRateTimes(g, ts, len, n - 2);
    }
    DivSpec(Load(len), r);
    CountBits(g.ets - ts, d, n, r, Load(len));
  }

  lemma CountBits(time: nat, d: nat, n: nat, r: nat, load: nat)
    requires d * r <= load < (d + 1) * r && n >= 1 && (n - 1) * d < time <= n * d
    ensures r * time <= load * n < r * time + load + r * n
  {
    var m := n - 1;
    assert r * time <= load * n by {
      MulMono(time, n * d, r);
      MulAssoc(n, d, r);
      MulMono(d * r, load, n);
    }
    assert load * n < (d * r) * m + d * r + r * n by {
      MulStrict(load, (d + 1) * r, n);
      assert (d + 1) * r == d * r + r;
      assert (d * r + r) * n == (d * r) * n + r * n;
      assert (d * r) * n == (d * r) * m + d * r;
    }
    MulMono(m * d, time, r);
    MulAssoc(m, d, r);
  }
}
