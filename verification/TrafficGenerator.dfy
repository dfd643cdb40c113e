/** The generator object: its methods change the fields that the cursor functions describe. */
module TrafficGenerator {
  import opened PacketDelay
  import opened TrafficProfile
  import opened PacketCursor
  import opened PacketSchedule

  // The delay, branch by branch, in the terms the method computes with

  lemma DelayFlat(g: Segment, ts: nat, len: nat)
    requires g.sts <= ts < g.ets && g.srate == g.erate > 0
    ensures Delay(g, ts, len) == 8_000_000_000 * len / g.erate
  {
  }

  lemma DelayFirst(g: Segment, len: nat)
    requires g.sts < g.ets && g.srate > 0
    ensures Delay(g, g.sts, len) == 8_000_000_000 * len / g.srate
  {
  }

  lemma DelayFromRest(g: Segment, len: nat)
    requires g.sts < g.ets && g.srate == 0 && g.erate > 0
    ensures Delay(g, g.sts, len) == FromRest(8_000_000_000 * len, g.ets - g.sts, g.erate)
  {
  }

  lemma DelayInside(g: Segment, ts: nat, len: nat)
    requires g.sts < ts < g.ets && g.srate != g.erate
    ensures var rate := g.srate * (g.ets - g.sts) + (g.erate - g.srate) * (ts - g.sts);
            && rate > 0
            && Delay(g, ts, len) == 8_000_000_000 * len * (g.ets - g.sts) / rate
  {
    LinePositive(g, ts - g.sts);
  }

  class Generator {
    var tpoints: seq<TPoint>
    var deadline: nat
    var tdLen: nat
    var sTmpRate: nat
    var eTmpRate: nat
    var sTmpTs: nat
    var eTmpTs: nat
    var tmpLen: nat
    var tmpTs: nat
    var deltaRate: int
    var delay: nat
    var nsecDelta: nat
    var tpDiff: nat
    var pbuffer: seq<TimedPacket>

    ghost function Snap(): Cursor
      reads this
    {
      Cursor(tpoints, deadline, tdLen, sTmpRate, sTmpTs, tmpLen, tmpTs)
    }

    constructor (points: seq<TPoint>, seconds: nat)
      ensures tpoints == points && deadline == seconds
      ensures Snap() == Start(points, seconds) && pbuffer == []
    {
      tpoints, deadline := points, seconds;
      tdLen, sTmpRate, eTmpRate, sTmpTs, eTmpTs, tmpLen, tmpTs := 0, 0, 0, 0, 0, 0, 0;
      deltaRate, delay, nsecDelta, tpDiff, pbuffer := 0, 0, 0, 0, [];
    }

    /** Empties the queue of points into a vector. */
    method TakePoints() returns (points: seq<TPoint>)
      modifies `tpoints
      ensures tpoints == [] && points == old(tpoints)
    {
      points := [];
      while tpoints != []
        invariant points + tpoints == old(tpoints)
        decreases |tpoints|
      {
        points, tpoints := points + [tpoints[0]], tpoints[1..];
      }
    }

    /** Replaces the profile by its repetition up to the deadline. */
    method RefactorTPoints()
      requires tpoints == [] || deadline == 0 || Usable(tpoints)
      modifies `tpoints
      ensures old(tpoints) == [] || deadline == 0 ==> tpoints == []
      ensures |old(tpoints)| >= 2 ==> IsUnrolling(old(tpoints), deadline, tpoints)
    {
      if tpoints == [] {
        return;
      }
      var reftime, lastTs := 0.0, 0.0;
      var p := TakePoints();
      if deadline == 0 {
        return;
      }
      assert |p| >= 2 && p[|p| - 1].ts > 0.0;
      var index: nat := 0;
      ghost var cycles: nat := 0;
      FirstCycle(p, deadline);
      hide UnrolledSoFar, Usable, IsUnrolling, MostCycles;
      while lastTs + reftime < deadline as real
        invariant |p| >= 2 && index <= |p| - 1
        invariant UnrolledSoFar(p, deadline, cycles, index, reftime, tpoints)
        invariant lastTs >= 0.0 && lastTs + reftime == if tpoints == [] then 0.0 else tpoints[|tpoints| - 1].ts
        decreases MostCycles(p, deadline) - cycles, |p| - 1 - index
      {
        LoopTurn(p, deadline, cycles, index, reftime, tpoints);
        if index > 0 && index % (|p| - 1) == 0 {
          reftime := reftime + p[index].ts;
          index := 0;
          cycles := cycles + 1;
        }
        var tp := p[index];
        lastTs := tp.ts;
        tp := tp.(ts := tp.ts + reftime);
        tpoints := tpoints + [tp];
        index := index + 1;
      }
      DeadlineReached(p, deadline, cycles, index, reftime, tpoints);
    }

    /** The time of the next packet; the intermediate values stay in fields. */
    method GetNextPacketTS(ts: nat, sts: nat, ets: nat, srate: nat, erate: nat, len: nat) returns (next: nat)
      requires sts <= ts < ets
      modifies `deltaRate, `delay, `nsecDelta, `tpDiff
      ensures next == NextPacketTs(Segment(sts, ets, srate, erate), ts, len)
    {
      if srate == 0 && erate == 0 {
        return ets;
      }
      ghost var g := Segment(sts, ets, srate, erate);
      hide Delay, Line, Load;
      deltaRate := erate - srate;
      if deltaRate == 0 {
        DelayFlat(g, ts, len);
        delay := 8_000_000_000 * len / erate;
        return ts + delay;
      }
      nsecDelta, tpDiff := ts - sts, ets - sts;
      if nsecDelta == 0 {
        if srate == 0 {
          DelayFromRest(g, len);
          delay := FromRest(8_000_000_000 * len, tpDiff, deltaRate);
        } else {
          DelayFirst(g, len);
          delay := 8_000_000_000 * len / srate;
        }
        return ts + delay;
      }
      DelayInside(g, ts, len);
      delay := 8_000_000_000 * len * tpDiff / (srate * tpDiff + deltaRate * nsecDelta);
      return ts + delay;
    }

    /** Runs once: the first point starts the cursor. */
    method ReadFirstPoint()
      requires tpoints != [] && SanePoints(tpoints)
      modifies this
      ensures Snap() == Primed(old(Snap())) && pbuffer == old(pbuffer)
    {
      hide Nanos, BitsPerSecond;
      var td := tpoints[0];
      assert SanePoint(td);
      sTmpRate := BitsPerSecond(td.bitrate);
      sTmpTs := Nanos(td.ts);
      tdLen, tmpLen, tmpTs := td.len, td.len, sTmpTs;
      tpoints := tpoints[1..];
    }

    /** Moves one packet, or one point, ahead. */
    method StepCursor() returns (ok: bool)
      requires tpoints != [] && SanePoints(tpoints) && sTmpTs <= tmpTs
      modifies this
      ensures Snap() == Step(old(Snap())).c && ok == Step(old(Snap())).ok
      ensures pbuffer == old(pbuffer) + PacketOf(Step(old(Snap())))
    {
      hide NextPacketTs, Nanos, BitsPerSecond;
      var td := tpoints[0];
      assert SanePoint(td);
      eTmpTs := Nanos(td.ts);
      eTmpRate := BitsPerSecond(td.bitrate);
      if eTmpTs != sTmpTs && tmpTs < eTmpTs {
        tdLen := td.len;
        tmpTs := GetNextPacketTS(tmpTs, sTmpTs, eTmpTs, sTmpRate, eTmpRate, tmpLen);
        if sTmpRate != 0 || eTmpRate != 0 {
          if tmpTs < deadline * 1_000_000_000 {
            pbuffer := pbuffer + [TimedPacket(tmpTs, tmpLen)];
          } else {
            return false;
          }
        }
      } else {
        tdLen, sTmpRate, sTmpTs, tmpLen := td.len, eTmpRate, eTmpTs, td.len;
        tpoints := tpoints[1..];
      }
      return true;
    }

    /** One call: at most one packet goes into the buffer. False means the deadline is reached. */
    method PrepNextPacket() returns (ok: bool)
      requires CursorOk(Snap())
      modifies this
      ensures Snap() == Prep(old(Snap())).c && ok == Prep(old(Snap())).ok
      ensures pbuffer == old(pbuffer) + PacketOf(Prep(old(Snap())))
    {
      if tpoints != [] {
        if tdLen == 0 {
          PrimedOk(Snap());
          hide SanePoints, Step;
          ReadFirstPoint();
        }
        hide SanePoints, Step;
        ok := StepCursor();
      } else {
        ok := false;
      }
    }

    method NextPacket() returns (some: bool)
      ensures some <==> pbuffer != []
    {
      some := pbuffer != [];
    }

    method GetNextPacket() returns (p: TimedPacket)
      requires pbuffer != []
      modifies `pbuffer
      ensures [p] + pbuffer == old(pbuffer)
    {
      p := pbuffer[0];
      pbuffer := pbuffer[1..];
    }

    /** Fills the buffer up to its bound, or until the generator says no. */
    method FillBuffer(maxBuffered: nat, ghost done: seq<TimedPacket>) returns (ok: bool)
      requires CursorOk(Snap()) && tdLen > 0 && |pbuffer| <= maxBuffered
      modifies this
      ensures CursorOk(Snap()) && tdLen > 0 && deadline == old(deadline)
      ensures |pbuffer| <= maxBuffered && (ok <==> |pbuffer| == maxBuffered)
      ensures old(done + pbuffer + Drain(Snap()).packets) == done + pbuffer + (if ok then Drain(Snap()).packets else [])
    {
      ghost var all := done + pbuffer + Drain(Snap()).packets;
      hide Drain, Prep, CursorOk;
      ok := true;
      while ok && |pbuffer| < maxBuffered
        invariant CursorOk(Snap()) && tdLen > 0 && deadline == old(deadline)
        invariant |pbuffer| <= maxBuffered && (!ok ==> |pbuffer| < maxBuffered)
        invariant all == done + pbuffer + (if ok then Drain(Snap()).packets else [])
        decreases ok, |tpoints|, Left(Snap())
      {
        ghost var before := pbuffer;
        LaterPrep(Snap(), done + pbuffer);
        PrepOk(Snap());
        ok := PrepNextPacket();
        Appended(done, before, pbuffer);
      }
    }

    /** The producing thread. `takes` says how many packets the sender has removed by each
        time the thread wakes up; when it is exhausted the run has been stopped. What was
        removed followed by what is buffered is always a beginning of the schedule, all of it
        once the generator has said no, and the buffer never exceeds its bound. Each wake-up
        finds the buffer full again, and the generator says no exactly when filling it would
        need more than the schedule has. */
    method RunPacketFactory(maxBuffered: nat, takes: seq<nat>) returns (sent: seq<TimedPacket>, exhausted: bool)
      requires Snap() == Start(tpoints, deadline) && CursorOk(Snap()) && pbuffer == [] && maxBuffered >= 1
      modifies this
      ensures sent + pbuffer <= Schedule(old(tpoints), old(deadline)).packets
      ensures exhausted ==> sent + pbuffer == Schedule(old(tpoints), old(deadline)).packets
      ensures |pbuffer| <= maxBuffered
      ensures !exhausted ==> |sent| == Served(takes, maxBuffered)
      ensures !exhausted && |takes| > 0 ==>
                |sent| + |pbuffer| == maxBuffered + Served(takes[..|takes| - 1], maxBuffered)
      ensures |takes| > 0 ==>
                (exhausted <==> maxBuffered + Served(takes[..|takes| - 1], maxBuffered)
                                > |Schedule(old(tpoints), old(deadline)).packets|)
    {
      hide Drain, Prep, CursorOk, Schedule, Start, SoFar, Served, SanePoints, PacketOf;
      ghost var all := Schedule(tpoints, deadline).packets;
      ghost var r := Prep(Snap());
      FirstCall(Snap(), takes, maxBuffered);
      var ok := PrepNextPacket();
      assert pbuffer == PacketOf(r);
      sent := [];
      var i := 0;
      while i < |takes| && ok
        invariant CursorOk(Snap()) && (ok ==> tdLen > 0) && 0 <= i <= |takes|
        invariant |pbuffer| <= maxBuffered
        invariant SoFar(all, sent, pbuffer, if ok then Drain(Snap()).packets else [], ok, takes, i, maxBuffered)
      {
        SoFarAdds(all, sent, pbuffer, Drain(Snap()).packets, ok, takes, i, maxBuffered);
        ok := FillBuffer(maxBuffered, sent);
        WokeUp(all, sent, pbuffer, if ok then Drain(Snap()).packets else [], ok, takes, i, maxBuffered);
        if ok {
          var k := if takes[i] <= |pbuffer| then takes[i] else |pbuffer|;
          sent, pbuffer := sent + pbuffer[..k], pbuffer[k..];
        }
        i := i + 1;
      }
      exhausted := !ok;
      InTheEnd(all, sent, pbuffer, if ok then Drain(Snap()).packets else [], ok, takes, i, maxBuffered);
    }
  }

  /** Where the producing thread is after `i` wake-ups: `rest` is what it has yet to make. */
  ghost predicate SoFar(all: seq<TimedPacket>, sent: seq<TimedPacket>, buffer: seq<TimedPacket>, rest: seq<TimedPacket>,
                        ok: bool, takes: seq<nat>, i: nat, max: nat)
    requires i <= |takes|
  {
    && all == sent + buffer + rest
    && (!ok ==> rest == [])
    && (ok ==> |sent| == Served(takes[..i], max))
    && (ok && i > 0 ==> |sent| + |buffer| == max + Served(takes[..i - 1], max))
    && (!ok && i > 0 ==> |all| < max + Served(takes[..i - 1], max))
    && (!ok && i == 0 ==> all == [])
  }

  lemma FirstCall(c: Cursor, takes: seq<nat>, max: nat)
    requires CursorOk(c) && c == Start(c.points, c.deadline)
    ensures var r := Prep(c);
            && CursorOk(r.c) && (r.ok ==> r.c.tdLen > 0) && |PacketOf(r)| <= 1
            && SoFar(Schedule(c.points, c.deadline).packets, [], PacketOf(r),
                     if r.ok then Drain(r.c).packets else [], r.ok, takes, 0, max)
  {
    FirstPrep(c);
    PrepOk(c);
    var r := Prep(c);
    assert !r.ok ==> PacketOf(r) == [];
    hide Prep, Drain, Schedule, CursorOk, Start;
    assert takes[..0] == [] && [] + PacketOf(r) == PacketOf(r);
  }

  lemma SoFarAdds(all: seq<TimedPacket>, sent: seq<TimedPacket>, buffer: seq<TimedPacket>, rest: seq<TimedPacket>,
                  ok: bool, takes: seq<nat>, i: nat, max: nat)
    requires i <= |takes| && ok && SoFar(all, sent, buffer, rest, ok, takes, i, max)
    ensures all == sent + buffer + rest && |sent| == Served(takes[..i], max)
  {
  }

  /** One wake-up: the buffer was filled, or could not be, and then the sender takes its part. */
  lemma WokeUp(all: seq<TimedPacket>, sent: seq<TimedPacket>, buffer: seq<TimedPacket>, rest: seq<TimedPacket>,
               ok: bool, takes: seq<nat>, i: nat, max: nat)
    requires i < |takes| && |sent| == Served(takes[..i], max)
    requires all == sent + buffer + rest && (!ok ==> rest == [])
    requires |buffer| <= max && (ok <==> |buffer| == max)
    ensures !ok ==> SoFar(all, sent, buffer, rest, ok, takes, i + 1, max)
    ensures ok ==>
              var k := if takes[i] <= |buffer| then takes[i] else |buffer|;
              SoFar(all, sent + buffer[..k], buffer[k..], rest, ok, takes, i + 1, max)
  {
    var k := if takes[i] <= |buffer| then takes[i] else |buffer|;
    assert takes[..i + 1][..i] == takes[..i];
    Taken(sent, buffer, k, rest);
  }

  lemma InTheEnd(all: seq<TimedPacket>, sent: seq<TimedPacket>, buffer: seq<TimedPacket>, rest: seq<TimedPacket>,
                 ok: bool, takes: seq<nat>, i: nat, max: nat)
    requires i <= |takes| && (ok ==> i == |takes|) && max >= 1 && |buffer| <= max
    requires SoFar(all, sent, buffer, rest, ok, takes, i, max)
    ensures sent + buffer <= all && (!ok ==> sent + buffer == all)
    ensures ok ==> |sent| == Served(takes, max)
    ensures ok && |takes| > 0 ==> |sent| + |buffer| == max + Served(takes[..|takes| - 1], max)
    ensures |takes| > 0 ==> (!ok <==> max + Served(takes[..|takes| - 1], max) > |all|)
  {
    assert takes[..|takes|] == takes;
    if |takes| > 0 && !ok {
      ServedGrows(takes, if i == 0 then 0 else i - 1, max);
    }
  }

  /** What the sender has removed from a buffer that was full at each wake-up. */
  function Served(takes: seq<nat>, maxBuffered: nat): nat {
    if |takes| == 0 then 0
    else
      var n := |takes| - 1;
      Served(takes[..n], maxBuffered) + if takes[n] <= maxBuffered then takes[n] else maxBuffered
  }

  lemma {:induction false} ServedGrows(takes: seq<nat>, i: nat, maxBuffered: nat)
    requires i < |takes|
    ensures Served(takes[..i], maxBuffered) <= Served(takes[..|takes| - 1], maxBuffered)
    decreases |takes|
  {
    if i + 1 < |takes| {
      var shorter := takes[..|takes| - 1];
      ServedGrows(shorter, i, maxBuffered);
      assert shorter[..i] == takes[..i];
    }
  }

  ghost function Left(c: Cursor): nat {
    if SanePoints(c.points) then Distance(c) else 0
  }

  lemma Taken(sent: seq<TimedPacket>, buffer: seq<TimedPacket>, k: nat, rest: seq<TimedPacket>)
    requires k <= |buffer|
    ensures (sent + buffer[..k]) + buffer[k..] + rest == sent + buffer + rest
  {
  }

  lemma Appended(done: seq<TimedPacket>, before: seq<TimedPacket>, after: seq<TimedPacket>)
    requires before <= after
    ensures done + before + after[|before|..] == done + after
  {
  }

  // The unrolling loop

  /** After `cycles` whole repetitions and `index` further points. */
  ghost predicate UnrolledSoFar(p: seq<TPoint>, deadline: nat, cycles: nat, index: nat, reftime: real, out: seq<TPoint>)
    requires |p| >= 2
  {
    && Usable(p)
    && |out| == (|p| - 1) * cycles + index
    && reftime == cycles as real * p[|p| - 1].ts
    && (forall i :: 0 <= i < |out| ==> out[i] == Unrolled(p, i))
    && (forall i :: 0 <= i < |out| - 1 ==> out[i].ts < deadline as real)
  }

  lemma FirstCycle(p: seq<TPoint>, deadline: nat)
    requires Usable(p)
    ensures UnrolledSoFar(p, deadline, 0, 0, 0.0, [])
  {
  }

  lemma DeadlineReached(p: seq<TPoint>, deadline: nat, cycles: nat, index: nat, reftime: real, out: seq<TPoint>)
    requires |p| >= 2 && UnrolledSoFar(p, deadline, cycles, index, reftime, out)
    requires deadline > 0 && (if out == [] then 0.0 else out[|out| - 1].ts) >= deadline as real
    ensures IsUnrolling(p, deadline, out)
  {
  }

  lemma EndOfCycle(index: nat, m: nat)
    requires index <= m && m > 0
    ensures index > 0 && index % m == 0 <==> index == m
  {
    if index < m {
      assert index % m == index;
    }
  }

  lemma NextCycle(p: seq<TPoint>, deadline: nat, cycles: nat, reftime: real, out: seq<TPoint>)
    requires |p| >= 2 && UnrolledSoFar(p, deadline, cycles, |p| - 1, reftime, out)
    ensures UnrolledSoFar(p, deadline, cycles + 1, 0, reftime + p[|p| - 1].ts, out)
  {
    hide Unrolled;
    OneMorePeriod(cycles, p[|p| - 1].ts);
    NextMultiple(|p| - 1, cycles);
  }

  lemma NextMultiple(m: nat, c: nat)
    ensures m * c + m == m * (c + 1)
  {
  }

  lemma NextPoint(p: seq<TPoint>, deadline: nat, cycles: nat, index: nat, reftime: real, out: seq<TPoint>)
    requires |p| >= 2 && index < |p| - 1 && UnrolledSoFar(p, deadline, cycles, index, reftime, out)
    requires out == [] || out[|out| - 1].ts < deadline as real
    ensures p[index].ts >= 0.0
    ensures UnrolledSoFar(p, deadline, cycles, index + 1, reftime, out + [p[index].(ts := p[index].ts + reftime)])
  {
    hide Unrolled;
    UnrolledAt(p, cycles, index);
    assert Usable(p);
  }

  /** How many whole periods start before the deadline. */
  ghost function MostCycles(p: seq<TPoint>, deadline: nat): int
    requires |p| >= 2
  {
    if p[|p| - 1].ts > 0.0 then (deadline as real / p[|p| - 1].ts).Floor else 0
  }

  lemma CyclesBounded(p: seq<TPoint>, deadline: nat, cycles: nat, index: nat, reftime: real, out: seq<TPoint>)
    requires |p| >= 2 && UnrolledSoFar(p, deadline, cycles, index, reftime, out)
    requires reftime < deadline as real && p[|p| - 1].ts > 0.0
    ensures cycles <= MostCycles(p, deadline)
  {
    hide Unrolled;
    PeriodsBounded(cycles, p[|p| - 1].ts, deadline as real);
  }

  /** One turn of the loop: from the end of the profile it goes on with the next cycle. */
  lemma LoopTurn(p: seq<TPoint>, deadline: nat, cycles: nat, index: nat, reftime: real, out: seq<TPoint>)
    requires |p| >= 2 && index <= |p| - 1 && UnrolledSoFar(p, deadline, cycles, index, reftime, out)
    requires reftime < deadline as real && p[|p| - 1].ts > 0.0
    requires out == [] || out[|out| - 1].ts < deadline as real
    ensures cycles <= MostCycles(p, deadline)
    ensures index > 0 && index % (|p| - 1) == 0 <==> index == |p| - 1
    ensures index < |p| - 1 ==>
              && p[index].ts >= 0.0
              && UnrolledSoFar(p, deadline, cycles, index + 1, reftime, out + [p[index].(ts := p[index].ts + reftime)])
    ensures index == |p| - 1 ==>
              var next := reftime + p[index].ts;
              && p[0].ts >= 0.0
              && UnrolledSoFar(p, deadline, cycles + 1, 1, next, out + [p[0].(ts := p[0].ts + next)])
  {
    CyclesBounded(p, deadline, cycles, index, reftime, out);
    EndOfCycle(index, |p| - 1);
    if index < |p| - 1 {
      NextPoint(p, deadline, cycles, index, reftime, out);
    } else {
      NextCycle(p, deadline, cycles, reftime, out);
      NextPoint(p, deadline, cycles + 1, 0, reftime + p[index].ts, out);
    }
    hide UnrolledSoFar, Usable;
  }

  lemma PeriodsBounded(cycles: nat, period: real, deadline: real)
    requires period > 0.0 && cycles as real * period < deadline
    ensures deadline / period > cycles as real
  {
    assert deadline / period * period == deadline;
  }

  function PacketOf(r: Stepped): seq<TimedPacket> {
    if r.packet.Some? then [r.packet.value] else []
  }

  lemma FirstPrep(c: Cursor)
    requires CursorOk(c) && c.tdLen == 0 && c == Start(c.points, c.deadline)
    ensures var r := Prep(c);
            && CursorOk(r.c)
            && Schedule(c.points, c.deadline).packets == PacketOf(r) + (if r.ok then Drain(r.c).packets else [])
            && (r.ok ==> r.c.tdLen > 0)
  {
    PrepOk(c);
    if c.points != [] {
      PrimedOk(c);
      StepProgress(Primed(c));
    }
  }

  lemma LaterPrep(c: Cursor, done: seq<TimedPacket>)
    requires CursorOk(c) && c.tdLen > 0
    ensures var r := Prep(c);
            && CursorOk(r.c) && r.c.tdLen > 0
            && done + Drain(c).packets == done + PacketOf(r) + (if r.ok then Drain(r.c).packets else [])
            && (r.ok ==> |r.c.points| < |c.points| || (r.c.points == c.points && Left(r.c) < Left(c)))
  {
    if c.points != [] {
      StepProgress(c);
    }
  }
}
