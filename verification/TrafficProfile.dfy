/** The rate profile: its definition points and their periodic unrolling up to the deadline. */
module TrafficProfile {
  import opened Wrappers
  import opened Wrapping

  /** Time in seconds, rate in kbit/s, payload length in bytes. */
  datatype TPoint = TPoint(ts: real, bitrate: real, len: nat)

  /** What unrolling relies on: at least two points, no negative time, a positive period. */
  predicate Usable(p: seq<TPoint>) {
    && |p| >= 2
    && p[|p| - 1].ts > 0.0
    && forall i :: 0 <= i < |p| ==> p[i].ts >= 0.0
  }

  predicate Ordered(p: seq<TPoint>) {
    forall i, j :: 0 <= i <= j < |p| ==> p[i].ts <= p[j].ts
  }

  /** Point `i` of the endless repetition: the last point only gives the period. */
  function Unrolled(p: seq<TPoint>, i: nat): TPoint
    requires |p| >= 2
  {
    var m := |p| - 1;
    var q := p[i % m];
    q.(ts := q.ts + (i / m) as real * p[m].ts)
  }

  /** `out` is the repetition of `p` cut after the first point at or past the deadline. */
  ghost predicate IsUnrolling(p: seq<TPoint>, deadline: nat, out: seq<TPoint>)
    requires |p| >= 2
  {
    if deadline == 0 then out == []
    else
      && |out| > 0
      && (forall i :: 0 <= i < |out| ==> out[i] == Unrolled(p, i))
      && (forall i :: 0 <= i < |out| - 1 ==> out[i].ts < deadline as real)
      && out[|out| - 1].ts >= deadline as real
  }

  lemma UnrollingIsUnique(p: seq<TPoint>, deadline: nat, a: seq<TPoint>, b: seq<TPoint>)
    requires |p| >= 2 && IsUnrolling(p, deadline, a) && IsUnrolling(p, deadline, b)
    ensures a == b
  {
    if deadline > 0 {
      var k := if |a| < |b| then |a| - 1 else |b| - 1;
      assert a[k] == Unrolled(p, k) == b[k];
    }
  }

  /** Index arithmetic of the unrolling at position `c` cycles and `k` points. */
  lemma UnrolledAt(p: seq<TPoint>, c: nat, k: nat)
    requires |p| >= 2 && k < |p| - 1
    ensures Unrolled(p, (|p| - 1) * c + k) == p[k].(ts := p[k].ts + c as real * p[|p| - 1].ts)
  {
    DivModUnique((|p| - 1) * c + k, |p| - 1, c, k);
    UnrolledIs(p, (|p| - 1) * c + k, c, k);
    hide Unrolled;
  }

  lemma UnrolledIs(p: seq<TPoint>, i: nat, c: nat, k: nat)
    requires |p| >= 2 && i / (|p| - 1) == c && i % (|p| - 1) == k
    ensures Unrolled(p, i) == p[k].(ts := p[k].ts + c as real * p[|p| - 1].ts)
  {
  }

  lemma OneMorePeriod(c: nat, period: real)
    ensures (c + 1) as real * period == c as real * period + period
  {
  }

  /** The unrolled times never decrease when those of the profile do not. */
  lemma UnrolledOrdered(p: seq<TPoint>, i: nat)
    requires Usable(p) && Ordered(p)
    ensures Unrolled(p, i).ts <= Unrolled(p, i + 1).ts
  {
    hide Unrolled;
    var m := |p| - 1;
    var c, k := i / m, i % m;
    assert i == m * c + k;
    UnrolledAt(p, c, k);
    if k + 1 < m {
      UnrolledAt(p, c, k + 1);
      assert p[k].ts <= p[k + 1].ts;
    } else {
      assert i + 1 == m * (c + 1) + 0;
      UnrolledAt(p, c + 1, 0);
      OneMorePeriod(c, p[m].ts);
      assert p[k].ts <= p[m].ts;
    }
  }

  lemma {:induction false} UnrolledMonotone(p: seq<TPoint>, i: nat, j: nat)
    requires Usable(p) && Ordered(p) && i <= j
    ensures Unrolled(p, i).ts <= Unrolled(p, j).ts
    decreases j - i
  {
    if i == j {
    } else {
      UnrolledMonotone(p, i, j - 1);
      UnrolledOrdered(p, j - 1);
    }
  }

  /** The unrolled times of an ordered profile are ordered. */
  lemma UnrollingOrdered(p: seq<TPoint>, deadline: nat, out: seq<TPoint>)
    requires Usable(p) && Ordered(p) && IsUnrolling(p, deadline, out)
    ensures Ordered(out)
  {
    forall i, j | 0 <= i <= j < |out|
      ensures out[i].ts <= out[j].ts
    {
      UnrolledMonotone(p, i, j);
    }
  }

  /** The two reads of the first step are safe exactly when the profile starts before the deadline. */
  lemma AtLeastTwoPoints(p: seq<TPoint>, deadline: nat, out: seq<TPoint>)
    requires Usable(p) && deadline > 0 && IsUnrolling(p, deadline, out)
    ensures |out| >= 2 <==> p[0].ts < deadline as real
  {
    UnrolledAt(p, 0, 0);
    assert out[0].ts == p[0].ts;
  }

  /** Whole nanoseconds of a profile time, cut to milliseconds as the code does. */
  function Nanos(t: real): nat
    requires t >= 0.0
  {
    (t * 1000.0).Floor * 1_000_000
  }

  function BitsPerSecond(kbits: real): nat
    requires kbits >= 0.0
  {
    (kbits * 1000.0).Floor
  }

  lemma NanosReachDeadline(t: real, deadline: nat)
    requires t >= deadline as real
    ensures Nanos(t) >= deadline * 1_000_000_000
  {
    assert t * 1000.0 >= (deadline * 1000) as real;
  }

  /** The profile the command line options -t, -T and -R describe. */
  function CommandLineProfile(t: Option<real>, upper: Option<real>, ramp: Option<real>,
                              rate1: real, rate2: real, size: nat): seq<TPoint>
  {
    var start := if t.Some? then t.value else 0.0;
    var first := if t.Some? then [TPoint(0.0, rate1, size), TPoint(start, rate1, size)]
                 else [TPoint(0.0, rate1, size)];
    var afterR := if ramp.Some? then first + [TPoint(start + ramp.value, rate2, size)] else first;
    var afterT := if upper.Some? then afterR + [TPoint(start + upper.value, rate2, size)] else afterR;
    var all := if ramp.None? && upper.None? && t.None? then afterT + [TPoint(86400.0, rate1, size)] else afterT;
    all + [all[|all| - 1]]
  }

  /** The options give a usable profile exactly when the last time they name is positive,
      and one whose times never run backwards exactly when -R does not exceed -T. */
  lemma CommandLineProfileUsable(t: Option<real>, upper: Option<real>, ramp: Option<real>,
                                 rate1: real, rate2: real, size: nat)
    requires t.Some? ==> t.value >= 0.0
    requires upper.Some? ==> upper.value >= 0.0
    requires ramp.Some? ==> ramp.value >= 0.0
    ensures var p := CommandLineProfile(t, upper, ramp, rate1, rate2, size);
            var start := if t.Some? then t.value else 0.0;
            && (Usable(p) <==> (if upper.Some? then start + upper.value > 0.0
                                else if ramp.Some? then start + ramp.value > 0.0
                                else t.Some? ==> start > 0.0))
            && (Ordered(p) <==> (upper.Some? && ramp.Some? ==> ramp.value <= upper.value))
            && p[0].ts == 0.0
  {
    var p := CommandLineProfile(t, upper, ramp, rate1, rate2, size);
    if upper.Some? && ramp.Some? && ramp.value > upper.value {
      var k := |p| - 3;
      assert p[k].ts > p[k + 1].ts;
    }
  }

  /** Time `x` lies on the segment after point `i`. */
  predicate Within(p: seq<TPoint>, i: nat, x: real)
    requires i + 1 < |p|
  {
    p[i].ts < x <= p[i + 1].ts
  }

  /** Rate `r` is what the line from point `i` to the next one has at time `x`. */
  predicate OnLine(p: seq<TPoint>, i: nat, x: real, r: real)
    requires i + 1 < |p|
  {
    r * (p[i + 1].ts - p[i].ts) == p[i].bitrate * (p[i + 1].ts - x) + p[i + 1].bitrate * (x - p[i].ts)
  }

  /** The rate on the way from `r1` to `r2`. */
  function Slope(r1: real, r2: real, start: real, rise: real, x: real): real
    requires rise > 0.0
  {
    r1 + (r2 - r1) * ((x - start) / rise)
  }

  /** The rate that the options ask for at time `x`: the first one for -t seconds, then a ramp
      to the second one that takes -R seconds, or -T seconds without -R, then the second one. */
  function AskedRate(t: Option<real>, upper: Option<real>, ramp: Option<real>, rate1: real, rate2: real, x: real): real
  {
    var start := if t.Some? then t.value else 0.0;
    var rise := if ramp.Some? then ramp.value else if upper.Some? then upper.value else 0.0;
    if x <= start || (ramp.None? && upper.None?) then rate1
    else if x > start + rise || rise <= 0.0 then rate2
    else Slope(rate1, rate2, start, rise, x)
  }

  lemma Level(r: real, a: real, b: real, x: real)
    ensures r * (b - a) == r * (b - x) + r * (x - a)
  {
  }

  lemma Rising(r1: real, r2: real, start: real, rise: real, x: real)
    requires rise > 0.0
    ensures Slope(r1, r2, start, rise, x) * rise == r1 * (start + rise - x) + r2 * (x - start)
  {
    var q := (x - start) / rise;
    assert q * rise == x - start;
    assert (r2 - r1) * q * rise == (r2 - r1) * (q * rise);
    assert (r1 + (r2 - r1) * q) * rise == r1 * rise + (r2 - r1) * (x - start);
  }

  lemma FlatLine(p: seq<TPoint>, i: nat, x: real, r: real)
    requires i + 1 < |p| && p[i].bitrate == r && p[i + 1].bitrate == r
    ensures OnLine(p, i, x, r)
  {
    Level(r, p[i].ts, p[i + 1].ts, x);
  }

  lemma RisingLine(p: seq<TPoint>, i: nat, x: real)
    requires i + 1 < |p| && p[i].ts < p[i + 1].ts
    ensures OnLine(p, i, x, Slope(p[i].bitrate, p[i + 1].bitrate, p[i].ts, p[i + 1].ts - p[i].ts, x))
  {
    Rising(p[i].bitrate, p[i + 1].bitrate, p[i].ts, p[i + 1].ts - p[i].ts, x);
    hide Slope;
  }

  /** The segment that `x` lies on has the wanted rate at both ends, or rises to the second. */
  lemma CommandLineSegment(t: Option<real>, upper: Option<real>, ramp: Option<real>,
                           rate1: real, rate2: real, size: nat, x: real, i: nat)
    requires t.Some? ==> t.value >= 0.0
    requires upper.Some? ==> upper.value >= 0.0
    requires ramp.Some? ==> ramp.value >= 0.0
    requires upper.Some? && ramp.Some? ==> ramp.value <= upper.value
    requires i + 1 < |CommandLineProfile(t, upper, ramp, rate1, rate2, size)|
    requires Within(CommandLineProfile(t, upper, ramp, rate1, rate2, size), i, x)
    ensures var p := CommandLineProfile(t, upper, ramp, rate1, rate2, size);
            var want := AskedRate(t, upper, ramp, rate1, rate2, x);
            || (p[i].bitrate == want && p[i + 1].bitrate == want)
            || want == Slope(p[i].bitrate, p[i + 1].bitrate, p[i].ts, p[i + 1].ts - p[i].ts, x)
  {
    hide Slope;
  }

  /** The profile is the rate line that the options ask for, in packets of the given size,
      with its last point doubled; without -T, -R and -t it lasts a day. */
  lemma CommandLineRates(t: Option<real>, upper: Option<real>, ramp: Option<real>,
                         rate1: real, rate2: real, size: nat, x: real)
    requires t.Some? ==> t.value >= 0.0
    requires upper.Some? ==> upper.value >= 0.0
    requires ramp.Some? ==> ramp.value >= 0.0
    requires upper.Some? && ramp.Some? ==> ramp.value <= upper.value
    ensures var p := CommandLineProfile(t, upper, ramp, rate1, rate2, size);
            && |p| >= 2 && p[|p| - 1] == p[|p| - 2] && p[0].ts == 0.0 && p[0].bitrate == rate1
            && (t.None? && upper.None? && ramp.None? ==> p[|p| - 1].ts == 86400.0)
            && (forall i :: 0 <= i < |p| ==> p[i].len == size)
            && (forall i :: 0 <= i < |p| - 1 && Within(p, i, x) ==>
                  OnLine(p, i, x, AskedRate(t, upper, ramp, rate1, rate2, x)))
  {
    var p := CommandLineProfile(t, upper, ramp, rate1, rate2, size);
    var want := AskedRate(t, upper, ramp, rate1, rate2, x);
    forall i | 0 <= i < |p| - 1 && Within(p, i, x)
      ensures OnLine(p, i, x, want)
    {
      CommandLineSegment(t, upper, ramp, rate1, rate2, size, x, i);
      hide CommandLineProfile, AskedRate, Slope, OnLine;
      if p[i].bitrate == want && p[i + 1].bitrate == want {
        FlatLine(p, i, x, want);
      } else {
        RisingLine(p, i, x);
      }
    }
  }
}
