/** The schedule read from the points alone: what each segment between two of them emits. */
module ProfilePlan {
  import opened PacketDelay
  import opened SegmentWalk
  import opened TrafficProfile
  import opened PacketCursor
  import opened PacketSchedule

  // The cursor against the points

  /** The cursor after the first `n` calls. */
  function Calls(points: seq<TPoint>, deadline: nat, n: nat): (c: Cursor)
    requires CursorOk(Start(points, deadline))
    ensures CursorOk(c) && c.deadline == deadline
  {
    if n == 0 then Start(points, deadline)
    else
      PrepOk(Calls(points, deadline, n - 1));
      Prep(Calls(points, deadline, n - 1)).c
  }

  /** The cursor is on the segment that starts at point `k`: rate, time and length are those
      of that point, and the points behind it are still to come. */
  predicate OnSegment(points: seq<TPoint>, k: nat, c: Cursor)
    requires SanePoints(points)
  {
    && c.tdLen > 0 && k < |points| && c.points == points[k + 1..]
    && c.sTs == Nanos(points[k].ts)
    && c.sRate == BitsPerSecond(points[k].bitrate)
    && c.len == points[k].len
  }

  lemma PrimedOnFirst(c: Cursor)
    requires c.points != [] && SanePoints(c.points)
    ensures OnSegment(c.points, 0, Primed(c))
  {
    assert SanePoint(c.points[0]);
  }

  lemma AdvancedOnNext(points: seq<TPoint>, k: nat, c: Cursor)
    requires SanePoints(points) && OnSegment(points, k, c) && c.points != []
    ensures OnSegment(points, k + 1, Advanced(c))
  {
    assert SanePoint(c.points[0]);
    assert c.points[0] == points[k + 1] && c.points[1..] == points[k + 2..];
  }

  /** One step stays on its segment or moves to the next one. */
  lemma StepOnSegment(points: seq<TPoint>, k: nat, c: Cursor)
    requires SanePoints(points) && OnSegment(points, k, c) && CursorOk(c) && c.points != []
    ensures OnSegment(points, k, Step(c).c) || OnSegment(points, k + 1, Step(c).c)
  {
    assert SanePoint(c.points[0]);
    AdvancedOnNext(points, k, c);
    hide NextPacketTs, Nanos, BitsPerSecond, Advanced;
  }

  lemma OneCallOn(points: seq<TPoint>, c: Cursor, first: bool)
    requires SanePoints(points) && CursorOk(c) && c.points != [] && |c.points| <= |points|
    requires if first then c.tdLen == 0 && c.points == points
             else |c.points| < |points| && OnSegment(points, |points| - |c.points| - 1, c)
    ensures var r := Prep(c).c; |r.points| < |points| && OnSegment(points, |points| - |r.points| - 1, r)
  {
    if first {
      PrimedOnFirst(c);
      PrimedOk(c);
      StepOnSegment(points, 0, Primed(c));
    } else {
      StepOnSegment(points, |points| - |c.points| - 1, c);
    }
    hide Step, Primed, CursorOk, SanePoints;
  }

  /** One call more, from a place that is known. */
  lemma PlaceAfterCall(points: seq<TPoint>, c: Cursor, first: bool)
    requires SanePoints(points) && CursorOk(c) && |c.points| <= |points| && points != []
    requires if first then c.tdLen == 0 && c.points == points
             else |c.points| < |points| && OnSegment(points, |points| - |c.points| - 1, c)
    ensures var r := Prep(c).c; |r.points| < |points| && OnSegment(points, |points| - |r.points| - 1, r)
  {
    if c.points != [] {
      OneCallOn(points, c, first);
    }
    hide OnSegment, SanePoints, Step, Primed;
  }

  /** From the first call on the cursor carries the values of the point it has passed last. */
  lemma {:induction false} CallsKeepPlace(points: seq<TPoint>, deadline: nat, n: nat)
    requires CursorOk(Start(points, deadline)) && points != []
    ensures var c := Calls(points, deadline, n);
            && |c.points| <= |points|
            && (n > 0 ==> |c.points| < |points| && OnSegment(points, |points| - |c.points| - 1, c))
  {
    assert SanePoints(points);
    hide OnSegment, CursorOk, SanePoints, Prep;
    if n == 0 {
    } else {
      CallsKeepPlace(points, deadline, n - 1);
      PlaceAfterCall(points, Calls(points, deadline, n - 1), n == 1);
    }
  }

  // The plan

  /** The segment between point `k` and the next one. */
  function Between(points: seq<TPoint>, k: nat): Segment
    requires SanePoints(points) && k + 1 < |points|
  {
    Segment(Nanos(points[k].ts), Nanos(points[k + 1].ts),
            BitsPerSecond(points[k].bitrate), BitsPerSecond(points[k + 1].bitrate))
  }

  /** Whole bits per second below the rate, and whole milliseconds below the time. */
  predicate Rounds(g: Segment, p: TPoint, q: TPoint) {
    && g.srate as real <= 1000.0 * p.bitrate < (g.srate + 1) as real
    && g.erate as real <= 1000.0 * q.bitrate < (g.erate + 1) as real
    && g.sts % 1_000_000 == 0 && g.sts as real <= 1_000_000_000.0 * p.ts < (g.sts + 1_000_000) as real
    && g.ets % 1_000_000 == 0 && g.ets as real <= 1_000_000_000.0 * q.ts < (g.ets + 1_000_000) as real
  }

  lemma RateRounds(k: real)
    requires k >= 0.0
    ensures BitsPerSecond(k) as real <= 1000.0 * k < (BitsPerSecond(k) + 1) as real
  {
  }

  lemma TimeRounds(t: real)
    requires t >= 0.0
    ensures Nanos(t) % 1_000_000 == 0
    ensures Nanos(t) as real <= 1_000_000_000.0 * t < (Nanos(t) + 1_000_000) as real
  {
    var m := (t * 1000.0).Floor;
    assert (m * 1_000_000) as real == m as real * 1_000_000.0;
  }

  lemma BetweenRounds(points: seq<TPoint>, k: nat)
    requires SanePoints(points) && k + 1 < |points|
    ensures Rounds(Between(points, k), points[k], points[k + 1])
  {
    var p, q := points[k], points[k + 1];
    assert SanePoint(p) && SanePoint(q);
    RateRounds(p.bitrate);
    RateRounds(q.bitrate);
    TimeRounds(p.ts);
    TimeRounds(q.ts);
    hide Nanos, BitsPerSecond;
  }

  lemma BetweenIsSane(points: seq<TPoint>, k: nat)
    requires SanePoints(points) && k + 1 < |points|
    ensures Sane(Between(points, k), points[k].len)
  {
    var p, q := points[k], points[k + 1];
    assert SanePoint(p) && SanePoint(q);
    NanosWholeMillis(p.ts);
    NanosWholeMillis(q.ts);
    var g := Between(points, k);
    if g.sts < g.ets {
      MillisApart(g.sts, g.ets);
    }
  }

  /** The times up to the first one that reaches the horizon. */
  function Below(times: seq<nat>, horizon: nat): seq<nat> {
    if |times| == 0 || times[0] >= horizon then [] else [times[0]] + Below(times[1..], horizon)
  }

  /** What is emitted from time `ts` on, at or after point `k`: segment by segment the walk of
      its rate line in packets of its first point's length, until one reaches the horizon. A
      walk starts where the last one has left its segment, and a silent segment is skipped. */
  function Plan(points: seq<TPoint>, k: nat, ts: nat, horizon: nat): seq<TimedPacket>
    requires SanePoints(points) && k < |points| && Nanos(points[k].ts) <= ts
    decreases |points| - k
  {
    if k + 1 == |points| then []
    else
      var g, len := Between(points, k), points[k].len;
      if ts >= g.ets then Plan(points, k + 1, ts, horizon)
      else if g.srate == 0 && g.erate == 0 then Plan(points, k + 1, g.ets, horizon)
      else
        BetweenIsSane(points, k);
        WalkIncreases(g, ts, len);
        var w := Walk(g, ts, len);
        var end := w[|w| - 1];
        Stamped(Below(w, horizon), len) + if end < horizon then Plan(points, k + 1, end, horizon) else []
  }

  // The generator against the plan

  lemma {:induction false} BelowAll(w: seq<nat>, ts: nat, ets: nat, horizon: nat)
    requires Climbs(w, ts, ets)
    requires |w| > 0 ==> w[|w| - 1] < horizon
    ensures Below(w, horizon) == w
    decreases |w|
  {
    if |w| == 0 {
    } else {
      FirstBeforeLast(w, ts, ets);
      if |w| > 1 {
        ClimbsTail(w, ts, ets);
        BelowAll(w[1..], w[0], ets, horizon);
      }
    }
  }

  lemma ClimbsTail(w: seq<nat>, ts: nat, ets: nat)
    requires Climbs(w, ts, ets) && |w| > 1
    ensures Climbs(w[1..], w[0], ets)
  {
  }

  /** A step that reaches the horizon emits nothing and is the last. */
  lemma DrainStops(c: Cursor)
    requires CursorOk(c) && c.tdLen > 0 && c.points != [] && Moving(Ahead(c), c.len)
    requires c.ts < Ahead(c).ets && NextPacketTs(Ahead(c), c.ts, c.len) >= Horizon(c)
    ensures Drain(c).packets == []
  {
    hide Delay, NextPacketTs;
    StepProgress(c);
  }

  /** A walk that reaches the horizon is cut there, and the generator stops. */
  lemma {:induction false} DrainCutsWalk(c: Cursor, w: seq<nat>)
    requires CursorOk(c) && c.tdLen > 0 && c.points != [] && Moving(Ahead(c), c.len)
    requires c.ts < Ahead(c).ets && w == Walk(Ahead(c), c.ts, c.len)
    requires |w| > 0 && w[|w| - 1] >= Horizon(c)
    ensures Drain(c).packets == Stamped(Below(w, Horizon(c)), c.len)
    decreases if c.ts < Ahead(c).ets then Ahead(c).ets - c.ts else 0
  {
    hide Climbs, Delay, NextPacketTs, Moving, Walk, Drain, Stamped;
    var g := Ahead(c);
    WalkIncreases(g, c.ts, c.len);
    WalkStep(g, c.ts, c.len);
    var t := NextPacketTs(g, c.ts, c.len);
    var v := Walk(g, t, c.len);
    assert w[1..] == v;
    if t >= Horizon(c) {
      DrainStops(c);
      StampedNothing(c.len, []);
      assert Below(w, Horizon(c)) == [] && Stamped([], c.len) == Stamped([], c.len) + [];
    } else {
      DrainStep(c, t);
      WalkIncreases(g, t, c.len);
      ClimbsEnds(v, t, g.ets);
      assert |v| > 0 && v[|v| - 1] == w[|w| - 1];
      DrainCutsWalk(MovedTo(c, t), v);
      var u := Below(v, Horizon(c));
      assert Below(w, Horizon(c)) == [t] + u;
      StampedSplit(t, u, c.len, []);
      assert Stamped([t] + u, c.len) == Stamped([t] + u, c.len) + [];
      assert Stamped(u, c.len) + [] == Stamped(u, c.len);
    }
  }

  /** On a segment with traffic: the walk, up to the horizon, and then the rest if any. */
  lemma DrainWalks(c: Cursor)
    requires CursorOk(c) && c.tdLen > 0 && c.points != [] && Moving(Ahead(c), c.len)
    requires c.ts < Ahead(c).ets
    ensures var w := Walk(Ahead(c), c.ts, c.len);
            && |w| > 0 && w[|w| - 1] >= Ahead(c).ets
            && (w[|w| - 1] < Horizon(c) ==>
                  && CursorOk(MovedTo(c, w[|w| - 1]))
                  && Drain(c).packets ==
                       Stamped(Below(w, Horizon(c)), c.len) + Drain(MovedTo(c, w[|w| - 1])).packets)
            && (w[|w| - 1] >= Horizon(c) ==> Drain(c).packets == Stamped(Below(w, Horizon(c)), c.len))
  {
    var w := Walk(Ahead(c), c.ts, c.len);
    WalkIncreases(Ahead(c), c.ts, c.len);
    if w[|w| - 1] < Horizon(c) {
      BelowAll(w, c.ts, Ahead(c).ets, Horizon(c));
      DrainFollowsWalk(c, w, w[|w| - 1]);
    } else {
      DrainCutsWalk(c, w);
    }
  }

  /** Past the end of its segment the cursor only moves on. */
  lemma DrainAdvances(points: seq<TPoint>, k: nat, c: Cursor)
    requires SanePoints(points) && CursorOk(c) && OnSegment(points, k, c) && c.points != []
    requires c.ts >= Ahead(c).ets
    ensures CursorOk(Advanced(c)) && OnSegment(points, k + 1, Advanced(c)) && Advanced(c).ts == c.ts
    ensures Drain(c).packets == Drain(Advanced(c)).packets
  {
    StepProgress(c);
    AdvancedOnNext(points, k, c);
    assert [] + Drain(Advanced(c)).packets == Drain(Advanced(c)).packets;
  }

  /** From any place of the cursor the generator emits the plan of the points. */
  lemma {:induction false} DrainIsPlan(points: seq<TPoint>, k: nat, c: Cursor)
    requires SanePoints(points) && CursorOk(c) && OnSegment(points, k, c)
    ensures Drain(c).packets == Plan(points, k, c.ts, Horizon(c))
    decreases |points| - k, 0
  {
    if k + 1 == |points| {
      assert c.points == [];
    } else {
      var g := Between(points, k);
      assert c.points[0] == points[k + 1] && g == Ahead(c);
      BetweenIsSane(points, k);
      if c.ts >= g.ets {
        PlanPastEnd(points, k, c);
      } else if g.srate == 0 && g.erate == 0 {
        SilentSegment(c);
        PlanPastEnd(points, k, MovedTo(c, g.ets));
      } else {
        DrainWalks(c);
        var w := Walk(g, c.ts, c.len);
        if w[|w| - 1] < Horizon(c) {
          PlanPastEnd(points, k, MovedTo(c, w[|w| - 1]));
        }
      }
    }
  }

  lemma {:induction false} PlanPastEnd(points: seq<TPoint>, k: nat, c: Cursor)
    requires SanePoints(points) && CursorOk(c) && OnSegment(points, k, c) && k + 1 < |points|
    requires c.points != [] && c.ts >= Ahead(c).ets
    ensures Nanos(points[k + 1].ts) <= c.ts
    ensures Drain(c).packets == Plan(points, k + 1, c.ts, Horizon(c))
    decreases |points| - k - 1, 1
  {
    assert c.points[0] == points[k + 1];
    DrainAdvances(points, k, c);
    DrainIsPlan(points, k + 1, Advanced(c));
  }

  /** The schedule is the plan of the points from the first one on, and the segments of the
      plan are the profile's, rounded to whole bits per second and whole milliseconds. */
  lemma ScheduleIsPlan(points: seq<TPoint>, deadline: nat)
    requires CursorOk(Start(points, deadline)) && points != []
    ensures Schedule(points, deadline).packets == Plan(points, 0, Nanos(points[0].ts), deadline * 1_000_000_000)
    ensures forall k :: 0 <= k < |points| - 1 ==> Rounds(Between(points, k), points[k], points[k + 1])
  {
    var c := Start(points, deadline);
    PrimedOk(c);
    PrimedOnFirst(c);
    DrainIsPlan(points, 0, Primed(c));
    forall k | 0 <= k < |points| - 1
      ensures Rounds(Between(points, k), points[k], points[k + 1])
    {
      BetweenRounds(points, k);
    }
  }
}
