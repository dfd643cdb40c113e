/** The whole schedule of a profile, and its segments as the walks of the rate line. */
module PacketSchedule {
  import opened Arithmetic
  import opened PacketDelay
  import opened SegmentWalk
  import opened TrafficProfile
  import opened PacketCursor

  /** Everything the generator emits for a list of points, from its first call on. */
  function Schedule(points: seq<TPoint>, deadline: nat): Drained
    requires CursorOk(Start(points, deadline))
  {
    var c := Start(points, deadline);
    if points == [] then Drained([], c)
    else
      PrimedOk(c);
      Drain(Primed(c))
  }

  /** The points that unrolling hands to the cursor are what the cursor relies on. */
  lemma UnrolledPointsFit(p: seq<TPoint>, deadline: nat, points: seq<TPoint>)
    requires Usable(p) && SanePoints(p) && IsUnrolling(p, deadline, points)
    requires p[0].ts < deadline as real || deadline == 0
    ensures CursorOk(Start(points, deadline)) && Covers(Start(points, deadline))
  {
    if deadline > 0 {
      AtLeastTwoPoints(p, deadline, points);
      forall i | 0 <= i < |points|
        ensures SanePoint(points[i])
      {
        assert SanePoint(p[i % (|p| - 1)]);
        UnrolledTimePositive(p, i);
      }
      NanosReachDeadline(points[|points| - 1].ts, deadline);
    }
  }

  lemma UnrolledTimePositive(p: seq<TPoint>, i: nat)
    requires Usable(p)
    ensures Unrolled(p, i).ts >= 0.0
  {
    assert (i / (|p| - 1)) as real >= 0.0;
  }

  /** From profile to packets: timestamps strictly increase below the deadline, and the
      profile never runs out before the cursor has reached the deadline. */
  lemma ProfileToPackets(p: seq<TPoint>, deadline: nat, points: seq<TPoint>)
    requires Usable(p) && SanePoints(p) && p[0].ts < deadline as real
    requires IsUnrolling(p, deadline, points)
    ensures CursorOk(Start(points, deadline))
    ensures var d := Schedule(points, deadline);
            && InOrder(d.packets, -1, deadline * 1_000_000_000)
            && d.last.ts >= deadline * 1_000_000_000
  {
    UnrolledPointsFit(p, deadline, points);
    AtLeastTwoPoints(p, deadline, points);
    var c := Start(points, deadline);
    PrimedOk(c);
    DrainSound(Primed(c));
    InOrderEarlier(Drain(Primed(c)).packets, Primed(c).ts, -1, Horizon(c));
  }

  function Stamped(times: seq<nat>, len: nat): seq<TimedPacket> {
    seq(|times|, i requires 0 <= i < |times| => TimedPacket(times[i], len))
  }

  /** The cursor `c` moved to the timestamp `t` within its segment. */
  function MovedTo(c: Cursor, t: nat): Cursor
    requires c.points != []
  {
    c.(ts := t, tdLen := c.points[0].len)
  }

  lemma DrainStep(c: Cursor, t: nat)
    requires CursorOk(c) && c.tdLen > 0 && c.points != [] && Moving(Ahead(c), c.len)
    requires c.ts < Ahead(c).ets && t == NextPacketTs(Ahead(c), c.ts, c.len) < Horizon(c)
    ensures c.ts < t && CursorOk(MovedTo(c, t)) && MovedTo(c, t).tdLen > 0
    ensures Drain(c) == Drained([TimedPacket(t, c.len)] + Drain(MovedTo(c, t)).packets, Drain(MovedTo(c, t)).last)
  {
    hide Delay, NextPacketTs;
    assert SanePoint(c.points[0]);
    StepProgress(c);
    NextMoves(Ahead(c), c.ts, c.len);
  }

  lemma WalkStep(g: Segment, ts: nat, len: nat)
    requires Moving(g, len) && g.sts <= ts < g.ets
    ensures var t := NextPacketTs(g, ts, len); ts < t && Walk(g, ts, len) == [t] + Walk(g, t, len)
  {
    hide Delay, NextPacketTs;
    NextMoves(g, ts, len);
  }

  lemma StampedSplit(t: nat, v: seq<nat>, len: nat, rest: seq<TimedPacket>)
    ensures Stamped([t] + v, len) + rest == [TimedPacket(t, len)] + (Stamped(v, len) + rest)
  {
  }

  /** While a walk stays below the deadline the generator emits exactly its timestamps, and
      then goes on with the next segment from where the walk ended. */
  lemma {:induction false} DrainFollowsWalk(c: Cursor, w: seq<nat>, last: nat)
    requires CursorOk(c) && c.tdLen > 0 && c.points != [] && Moving(Ahead(c), c.len)
    requires c.ts < Ahead(c).ets && w == Walk(Ahead(c), c.ts, c.len)
    requires |w| > 0 && last == w[|w| - 1] < Horizon(c)
    ensures CursorOk(MovedTo(c, last)) && MovedTo(c, last).tdLen > 0
    ensures Drain(c) == Drained(Stamped(w, c.len) + Drain(MovedTo(c, last)).packets, Drain(MovedTo(c, last)).last)
    decreases if c.ts < Ahead(c).ets then Ahead(c).ets - c.ts else 0
  {
    hide Climbs, Delay, NextPacketTs, Moving, Walk, Drain, Stamped;
    var g := Ahead(c);
    WalkIncreases(g, c.ts, c.len);
    WalkStep(g, c.ts, c.len);
    var t := NextPacketTs(g, c.ts, c.len);
    var v := Walk(g, t, c.len);
    FirstBeforeLast(w, c.ts, g.ets);
    DrainStep(c, t);
    WalkIncreases(g, t, c.len);
    ClimbsEnds(v, t, g.ets);
    StampedSplit(t, v, c.len, Drain(MovedTo(c, last)).packets);
    if t < g.ets {
      DrainFollowsWalk(MovedTo(c, t), v, last);
      assert MovedTo(MovedTo(c, t), last) == MovedTo(c, last);
    } else {
      StampedNothing(c.len, Drain(MovedTo(c, last)).packets);
    }
  }

  lemma ClimbsEnds(v: seq<nat>, ts: nat, ets: nat)
    requires Climbs(v, ts, ets)
    ensures v == [] <==> ts >= ets
  {
  }

  lemma StampedNothing(len: nat, rest: seq<TimedPacket>)
    ensures Stamped([], len) + rest == rest
  {
  }

  lemma FirstBeforeLast(w: seq<nat>, ts: nat, ets: nat)
    requires Climbs(w, ts, ets) && |w| > 0
    ensures w[0] <= w[|w| - 1]
  {
  }

  /** A silent segment emits nothing and is skipped in one step. */
  lemma SilentSegment(c: Cursor)
    requires CursorOk(c) && c.tdLen > 0 && c.points != []
    requires c.ts < Ahead(c).ets && Ahead(c).srate == 0 && Ahead(c).erate == 0
    ensures var next := c.(ts := Ahead(c).ets, tdLen := c.points[0].len);
            CursorOk(next) && next.tdLen > 0 && Drain(c) == Drain(next)
  {
    assert SanePoint(c.points[0]);
    StepProgress(c);
    var next := c.(ts := Ahead(c).ets, tdLen := c.points[0].len);
    assert [] + Drain(next).packets == Drain(next).packets;
  }

  function Bytes(packets: seq<TimedPacket>): nat {
    if |packets| == 0 then 0 else packets[0].len + Bytes(packets[1..])
  }

  lemma {:induction false} StampedBytes(times: seq<nat>, len: nat)
    ensures Bytes(Stamped(times, len)) == len * |times|
    decreases |times|
  {
    if |times| == 0 {
    } else {
      StampedBytes(times[1..], len);
      assert Stamped(times, len)[1..] == Stamped(times[1..], len);
      assert len * |times| == len + len * (|times| - 1);
    }
  }

  lemma SameCount(d: nat, time: nat, a: nat, b: nat)
    requires (a - 1) * d < time <= a * d && (b - 1) * d < time <= b * d
    ensures a == b
  {
    if a < b {
      MulMono(a, b - 1, d);
    } else if b < a {
      MulMono(b, a - 1, d);
    }
  }

  /** A segment of constant rate, the delay `d` of one packet on it, and the number `n` of
      delays after which the cursor is past its end, at `end`. */
  predicate ConstantStretch(c: Cursor, d: nat, n: nat, end: nat) {
    && CursorOk(c) && c.tdLen > 0 && c.points != [] && Moving(Ahead(c), c.len)
    && Ahead(c).srate == Ahead(c).erate && c.ts < Ahead(c).ets
    && d == Load(c.len) / Ahead(c).erate
    && (n - 1) * d < Ahead(c).ets - c.ts <= n * d
    && end == c.ts + n * d
  }

  /** The walk of a constant rate, as timestamps. */
  lemma ConstantWalk(c: Cursor, d: nat, n: nat, end: nat)
    requires ConstantStretch(c, d, n, end)
    ensures Moving(Ahead(c), c.len) && Ahead(c).sts <= c.ts
    ensures var g := Ahead(c);
            var w := Walk(g, c.ts, c.len);
            && |w| == n && n > 0 && w[n - 1] == end
            && (forall i :: 0 <= i < n ==> w[i] == c.ts + (i + 1) * d)
            && g.erate * (g.ets - c.ts) <= Load(c.len) * n < g.erate * (g.ets - c.ts) + Load(c.len) + g.erate * n
  {
    var g := Ahead(c);
    var w := Walk(g, c.ts, c.len);
    ConstantRateCount(g, c.ts, c.len);
    SameCount(d, g.ets - c.ts, |w|, n);
    hide Walk;
    forall i | 0 <= i < n
      ensures w[i] == c.ts + (i + 1) * d
    {
      ConstantRateTimes(g, c.ts, c.len, i);
    }
  }

  /** Bit conservation of the generator: let a segment of constant rate r be entered at t0,
      let d be the delay of one packet and n = ceil((ets - t0) / d), and let n delays end
      before the deadline. Then the next n packets are exactly those of the segment, d apart;
      they carry at least r * (ets - t0) bits and less than one packet plus one nanosecond of
      rate per packet more (times 10^9), and the generator goes on from the last of them. */
  lemma ConstantRateConservation(c: Cursor, d: nat, n: nat, end: nat)
    requires ConstantStretch(c, d, n, end) && end < Horizon(c)
    ensures CursorOk(MovedTo(c, end)) && MovedTo(c, end).tdLen > 0
    ensures var g, ps := Ahead(c), Drain(c).packets;
            && |ps| >= n
            && (forall i :: 0 <= i < n ==> ps[i].ts == c.ts + (i + 1) * d && ps[i].len == c.len)
            && g.erate * (g.ets - c.ts) <= 8_000_000_000 * Bytes(ps[..n])
                 < g.erate * (g.ets - c.ts) + Load(c.len) + g.erate * n
            && ps[n..] == Drain(MovedTo(c, end)).packets
  {
    ConstantWalk(c, d, n, end);
    var w := Walk(Ahead(c), c.ts, c.len);
    DrainFollowsWalk(c, w, end);
    StampedBytes(w, c.len);
    LoadOf(c.len, n);
    hide Walk, Drain, CursorOk, Moving, Load, Ahead, Horizon;
    assert Drain(c).packets[..n] == Stamped(w, c.len);
  }

  lemma LoadOf(len: nat, n: nat)
    ensures 8_000_000_000 * (len * n) == Load(len) * n
  {
  }

  // Ramps

  /** The cursor is inside a segment with traffic and leaves it before the deadline. */
  predicate LeavesInTime(c: Cursor) {
    && CursorOk(c) && c.tdLen > 0 && c.points != [] && Moving(Ahead(c), c.len)
    && c.ts < Ahead(c).ets
    && var w := Walk(Ahead(c), c.ts, c.len); |w| > 0 && w[|w| - 1] < Horizon(c)
  }

  /** How many packets the cursor emits until it leaves the segment. */
  function Emitted(c: Cursor): nat
    requires LeavesInTime(c)
  {
    |Walk(Ahead(c), c.ts, c.len)|
  }

  /** Those packets: the first ones of the drain, up to the first at or past the end. */
  lemma SegmentPackets(c: Cursor)
    requires LeavesInTime(c)
    ensures var w, n, ps := Walk(Ahead(c), c.ts, c.len), Emitted(c), Drain(c).packets;
            && 0 < n <= |ps|
            && ps[..n] == Stamped(w, c.len)
            && (forall i :: 0 <= i < n ==> ps[i] == TimedPacket(w[i], c.len))
            && (forall i :: 0 <= i < n - 1 ==> ps[i].ts < Ahead(c).ets)
            && ps[n - 1].ts >= Ahead(c).ets
  {
    var w := Walk(Ahead(c), c.ts, c.len);
    WalkIncreases(Ahead(c), c.ts, c.len);
    DrainFollowsWalk(c, w, w[|w| - 1]);
    hide Walk, Drain, CursorOk, Moving, Horizon, Ahead;
    var ps, n := Drain(c).packets, |w|;
    assert ps[..n] == Stamped(w, c.len);
    forall i | 0 <= i < n
      ensures ps[i] == TimedPacket(w[i], c.len)
    {
      assert ps[i] == ps[..n][i];
    }
  }

  /** Time from the packet before packet `i`, or from the cursor, to packet `i`. */
  function PacketGap(c: Cursor, ps: seq<TimedPacket>, i: nat): int
    requires i < |ps|
  {
    ps[i].ts - if i == 0 then c.ts else ps[i - 1].ts
  }

  /** The gaps between the packets that the generator emits on a segment never grow on a
      rising ramp, also from zero, and never shrink on a falling one. */
  lemma PacketsFollowTheRamp(c: Cursor, i: nat)
    requires LeavesInTime(c) && i + 1 < Emitted(c)
    ensures var g, ps := Ahead(c), Drain(c).packets;
            && i + 1 < |ps|
            && (g.srate <= g.erate ==> PacketGap(c, ps, i + 1) <= PacketGap(c, ps, i))
            && (g.srate >= g.erate ==> PacketGap(c, ps, i + 1) >= PacketGap(c, ps, i))
  {
    SegmentPackets(c);
    GapsFollowTheRamp(Ahead(c), c.ts, c.len, i);
    hide Walk, Drain, CursorOk, Moving, Horizon, Ahead;
  }

  lemma EmittedBytes(c: Cursor)
    requires LeavesInTime(c)
    ensures var n, ps := Emitted(c), Drain(c).packets;
            && 0 < n <= |ps|
            && Bytes(ps[..n]) == c.len * n && Bytes(ps[..n - 1]) == c.len * (n - 1)
  {
    var w := Walk(Ahead(c), c.ts, c.len);
    SegmentPackets(c);
    StampedBytes(w, c.len);
    StampedBytes(w[..|w| - 1], c.len);
    hide Drain, CursorOk, Horizon, Walk, Moving, Ahead, Bytes;
    assert Drain(c).packets[..|w| - 1] == Stamped(w[..|w| - 1], c.len);
  }

  /** Twice the segment's length times the bits (times 10^9) under the rate line from the
      cursor to the end of the segment. */
  function Due(c: Cursor): int
    requires LeavesInTime(c)
  {
    Area(Ahead(c), Ahead(c).ets - Ahead(c).sts) - Area(Ahead(c), c.ts - Ahead(c).sts)
  }

  /** On a level or falling segment the emitted packets carry at least what is due. */
  lemma PacketsNeverUnderSend(c: Cursor)
    requires LeavesInTime(c) && Ahead(c).erate <= Ahead(c).srate
    ensures var g, n, ps := Ahead(c), Emitted(c), Drain(c).packets;
            0 < n <= |ps| && 2 * (8_000_000_000 * Bytes(ps[..n])) * (g.ets - g.sts) >= Due(c)
  {
    EmittedBytes(c);
    NeverUnderSends(Ahead(c), c.ts, c.len);
    LoadTimes(c.len, Emitted(c), Ahead(c).ets - Ahead(c).sts);
    hide Drain, CursorOk, Horizon, Area, Walk, Moving, Ahead, Load, Bytes;
  }

  /** On a level or rising segment all emitted packets but the last carry at most what is
      due, plus one nanosecond of the end rate for each of them. */
  lemma PacketsNeverOverSend(c: Cursor)
    requires LeavesInTime(c) && Ahead(c).srate <= Ahead(c).erate
    ensures var g, n, ps := Ahead(c), Emitted(c), Drain(c).packets;
            && 0 < n <= |ps|
            && 2 * (8_000_000_000 * Bytes(ps[..n - 1]) - g.erate * (n - 1)) * (g.ets - g.sts) <= Due(c)
  {
    EmittedBytes(c);
    NeverOverSends(Ahead(c), c.ts, c.len);
    LoadLessTimes(c.len, Emitted(c) - 1, Ahead(c).erate, Ahead(c).ets - Ahead(c).sts);
    hide Drain, CursorOk, Horizon, Area, Walk, Moving, Ahead, Load, Bytes;
  }

  lemma LoadTimes(len: nat, n: nat, tp: nat)
    ensures 2 * (8_000_000_000 * (len * n)) * tp == 2 * Load(len) * tp * n
  {
    LoadOf(len, n);
    TripleSwap(Load(len), n, tp);
    hide Load;
  }

  lemma TripleSwap(a: int, n: int, tp: int)
    ensures 2 * (a * n) * tp == 2 * a * tp * n
  {
  }

  lemma LoadLessTimes(len: nat, n: nat, rate: nat, tp: nat)
    ensures 2 * (8_000_000_000 * (len * n) - rate * n) * tp == 2 * (Load(len) - rate) * tp * n
  {
    LoadOf(len, n);
    var a := Load(len) - rate;
    assert Load(len) * n - rate * n == a * n;
    TripleSwap(a, n, tp);
    hide Load;
  }
}
