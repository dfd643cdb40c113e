/** The packet cursor that walks the unrolled profile, as a function on its state. */
module PacketCursor {
  import opened Wrappers
  import opened PacketDelay
  import opened TrafficProfile

  datatype TimedPacket = TimedPacket(ts: nat, len: nat)

  /** The cursor fields; `tdLen` is zero until the first point has been read. */
  datatype Cursor = Cursor(
    points: seq<TPoint>,
    deadline: nat,
    tdLen: nat,
    sRate: nat,
    sTs: nat,
    len: nat,
    ts: nat)

  /** Result of one step: the packet put into the buffer, if any, and the value returned. */
  datatype Stepped = Stepped(c: Cursor, packet: Option<TimedPacket>, ok: bool)

  predicate SanePoint(p: TPoint) {
    p.ts >= 0.0 && p.bitrate >= 0.0 && BitsPerSecond(p.bitrate) <= MAX_RATE && 32 <= p.len <= 1472
  }

  predicate SanePoints(points: seq<TPoint>) {
    forall i :: 0 <= i < |points| ==> SanePoint(points[i])
  }

  /** Holds before and after every step. The first step reads two points without looking. */
  predicate CursorOk(c: Cursor) {
    && SanePoints(c.points)
    && (c.tdLen == 0 ==> |c.points| != 1)
    && (c.tdLen > 0 ==> Running(c))
  }

  predicate Running(c: Cursor) {
    && c.sTs <= c.ts
    && c.sRate <= MAX_RATE
    && 32 <= c.len <= 1472
    && c.sTs % 1_000_000 == 0
  }

  function Horizon(c: Cursor): nat {
    c.deadline * 1_000_000_000
  }

  /** The points still ahead, or the cursor itself, reach the deadline. */
  predicate Covers(c: Cursor)
    requires SanePoints(c.points)
  {
    if c.points == [] then c.ts >= Horizon(c) else Nanos(c.points[|c.points| - 1].ts) >= Horizon(c)
  }

  function Start(points: seq<TPoint>, deadline: nat): Cursor {
    Cursor(points, deadline, 0, 0, 0, 0, 0)
  }

  /** Reading the first point. */
  function Primed(c: Cursor): Cursor
    requires c.points != [] && SanePoints(c.points)
  {
    var p := c.points[0];
    c.(sRate := BitsPerSecond(p.bitrate), sTs := Nanos(p.ts), len := p.len, ts := Nanos(p.ts),
       tdLen := p.len, points := c.points[1..])
  }

  function Ahead(c: Cursor): Segment
    requires c.points != [] && SanePoints(c.points)
  {
    Segment(c.sTs, Nanos(c.points[0].ts), c.sRate, BitsPerSecond(c.points[0].bitrate))
  }

  /** Moving on to the next segment. */
  function Advanced(c: Cursor): Cursor
    requires c.points != [] && SanePoints(c.points)
  {
    var p := c.points[0];
    c.(sRate := BitsPerSecond(p.bitrate), sTs := Nanos(p.ts), len := p.len, tdLen := p.len, points := c.points[1..])
  }

  /** `prepNextPacket` once the first point has been read. */
  function Step(c: Cursor): Stepped
    requires c.points != [] && SanePoints(c.points) && c.sTs <= c.ts
  {
    var g := Ahead(c);
    if g.ets != g.sts && c.ts < g.ets then
      var t := NextPacketTs(g, c.ts, c.len);
      var c1 := c.(ts := t, tdLen := c.points[0].len);
      if g.srate != 0 || g.erate != 0 then
        if t < Horizon(c) then Stepped(c1, Some(TimedPacket(t, c.len)), true)
        else Stepped(c1, None, false)
      else Stepped(c1, None, true)
    else Stepped(Advanced(c), None, true)
  }

  /** `prepNextPacket`. */
  function Prep(c: Cursor): Stepped
    requires CursorOk(c)
  {
    if c.points == [] then Stepped(c, None, false)
    else if c.tdLen == 0 then Step(Primed(c))
    else Step(c)
  }

  lemma NanosWholeMillis(t: real)
    requires t >= 0.0
    ensures Nanos(t) % 1_000_000 == 0
  {
  }

  lemma MillisApart(a: nat, b: nat)
    requires a < b && a % 1_000_000 == 0 && b % 1_000_000 == 0
    ensures b - a >= 1_000_000
  {
  }

  /** A segment the cursor is about to walk satisfies what the delay formula relies on. */
  lemma AheadIsSane(c: Cursor)
    requires CursorOk(c) && c.tdLen > 0 && c.points != []
    ensures Sane(Ahead(c), c.len)
  {
    var g := Ahead(c);
    assert SanePoint(c.points[0]);
    NanosWholeMillis(c.points[0].ts);
    if g.sts < g.ets {
      MillisApart(g.sts, g.ets);
    }
  }

  lemma PrimedOk(c: Cursor)
    requires CursorOk(c) && c.tdLen == 0 && c.points != []
    ensures CursorOk(Primed(c)) && Primed(c).tdLen > 0 && Primed(c).points != []
    ensures Covers(c) ==> Covers(Primed(c))
  {
    assert SanePoint(c.points[0]);
    NanosWholeMillis(c.points[0].ts);
  }

  /** How far the cursor is from the end of the current segment. */
  function Distance(c: Cursor): nat
    requires SanePoints(c.points)
  {
    if c.points == [] || c.tdLen == 0 then 0
    else if c.ts < Nanos(c.points[0].ts) then Nanos(c.points[0].ts) - c.ts else 0
  }

  /** One step keeps the cursor well-formed, moves it forward and makes progress. */
  lemma StepProgress(c: Cursor)
    requires CursorOk(c) && c.tdLen > 0 && c.points != []
    ensures var r := Step(c);
            && CursorOk(r.c) && r.c.tdLen > 0 && r.c.deadline == c.deadline
            && (Covers(c) ==> Covers(r.c))
            && (|r.c.points| < |c.points| || (r.c.points == c.points && Distance(r.c) < Distance(c)))
            && c.ts <= r.c.ts
            && (r.packet.Some? ==> r.packet.value.ts == r.c.ts && c.ts < r.c.ts < Horizon(c))
            && (r.packet.Some? ==> r.ok)
            && (!r.ok ==> r.c.ts >= Horizon(c))
  {
    var g := Ahead(c);
    assert SanePoint(c.points[0]);
    if g.ets != g.sts && c.ts < g.ets {
      AheadIsSane(c);
      if g.srate != 0 || g.erate != 0 {
        DelayPositive(g, c.ts, c.len);
      }
    } else {
      NanosWholeMillis(c.points[0].ts);
    }
  }

  lemma PrepOk(c: Cursor)
    requires CursorOk(c)
    ensures CursorOk(Prep(c).c) && Prep(c).c.deadline == c.deadline
    ensures c.points != [] ==> Prep(c).c.tdLen > 0
  {
    if c.points != [] {
      if c.tdLen == 0 {
        PrimedOk(c);
        StepProgress(Primed(c));
      } else {
        StepProgress(c);
      }
    }
  }

  /** All packets from `c` until the first false, and the cursor at that moment. */
  datatype Drained = Drained(packets: seq<TimedPacket>, last: Cursor)

  function Drain(c: Cursor): Drained
    requires CursorOk(c) && c.tdLen > 0
    decreases |c.points|, Distance(c)
  {
    if c.points == [] then Drained([], c)
    else
      StepProgress(c);
      var r := Step(c);
      if !r.ok then Drained([], r.c)
      else
        var rest := Drain(r.c);
        Drained((if r.packet.Some? then [r.packet.value] else []) + rest.packets, rest.last)
  }

  /** Strictly increasing timestamps, all after `from` and before `horizon`. */
  ghost predicate InOrder(packets: seq<TimedPacket>, from: int, horizon: nat) {
    && (forall i :: 0 <= i < |packets| ==> from < packets[i].ts < horizon)
    && (forall i, j :: 0 <= i < j < |packets| ==> packets[i].ts < packets[j].ts)
  }

  lemma InOrderPrepend(p: TimedPacket, rest: seq<TimedPacket>, from: int, horizon: nat)
    requires from < p.ts < horizon && InOrder(rest, p.ts, horizon)
    ensures InOrder([p] + rest, from, horizon)
  {
    var all := [p] + rest;
    assert forall i :: 0 < i < |all| ==> all[i] == rest[i - 1];
  }

  lemma InOrderEarlier(rest: seq<TimedPacket>, from: int, earlier: int, horizon: nat)
    requires earlier <= from && InOrder(rest, from, horizon)
    ensures InOrder(rest, earlier, horizon)
  {
  }

  lemma InOrderNothing(from: int, horizon: nat)
    ensures InOrder([], from, horizon)
  {
  }

  /** Whatever the profile, the packets are in order and before the deadline, and when the
      generator first says no its cursor has reached the deadline. */
  lemma {:induction false} DrainSound(c: Cursor)
    requires CursorOk(c) && c.tdLen > 0 && Covers(c)
    ensures var d := Drain(c);
            && InOrder(d.packets, c.ts, Horizon(c))
            && d.last.ts >= Horizon(c)
    decreases |c.points|, Distance(c)
  {
    hide Step, InOrder;
    if c.points == [] {
      InOrderNothing(c.ts, Horizon(c));
    } else {
      StepProgress(c);
      var r := Step(c);
      if !r.ok {
        InOrderNothing(c.ts, Horizon(c));
      } else {
        DrainSound(r.c);
        var rest := Drain(r.c);
        if r.packet.Some? {
          InOrderPrepend(r.packet.value, rest.packets, c.ts, Horizon(c));
        } else {
          assert [] + rest.packets == rest.packets;
          InOrderEarlier(rest.packets, r.c.ts, c.ts, Horizon(c));
        }
      }
    }
  }
}
