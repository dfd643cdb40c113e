/** The polling slot timer: one slot per flow, moved on by its own interval at each tick. */
module SlotTimer {
  import opened Arithmetic

  datatype Slot = Slot(trigger: nat, interval: nat)

  /** Slots by flow, and whether the polling loop looks at them. */
  datatype Timer = Timer(slots: map<nat, Slot>, active: bool)

  datatype Op =
    | Add(flow: nat, sampleLen: nat, now: nat)
    | Remove(flow: nat)
    | Poll(now: nat)

  predicate Due(s: Slot, now: nat) {
    now >= s.trigger
  }

  /** What one look at the clock does to one slot. */
  function Polled(s: Slot, now: nat): Slot {
    if Due(s, now) then s.(trigger := s.trigger + s.interval) else s
  }

  function PolledAll(slots: map<nat, Slot>, now: nat): map<nat, Slot> {
    map f | f in slots :: Polled(slots[f], now)
  }

  function Do(t: Timer, op: Op): Timer {
    match op
    case Add(flow, sampleLen, now) =>
      if sampleLen > 0 then Timer(t.slots[flow := Slot(now + sampleLen, sampleLen)], true) else t
    case Remove(flow) =>
      var slots := t.slots - {flow};
      Timer(slots, t.active && |slots| >= 1)
    case Poll(now) => if t.active then t.(slots := PolledAll(t.slots, now)) else t
  }

  function DoAll(t: Timer, ops: seq<Op>): Timer {
    if |ops| == 0 then t else Do(DoAll(t, ops[..|ops| - 1]), ops[|ops| - 1])
  }

  // One slot

  /** The slot started at `start` after looks at the given times, and the times of its ticks. */
  datatype Track = Track(slot: Slot, ticks: seq<nat>)

  function Tracked(start: nat, interval: nat, polls: seq<nat>): Track {
    if |polls| == 0 then Track(Slot(start + interval, interval), [])
    else
      var t, now := Tracked(start, interval, polls[..|polls| - 1]), polls[|polls| - 1];
      Track(Polled(t.slot, now), if Due(t.slot, now) then t.ticks + [now] else t.ticks)
  }

  ghost predicate Rising(times: seq<nat>) {
    forall i, j :: 0 <= i <= j < |times| ==> times[i] <= times[j]
  }

  lemma OneMoreInterval(k: nat, interval: nat)
    ensures (k + 1) * interval == k * interval + interval
  {
  }

  /** No drift, for every polling schedule: after k ticks the trigger stands at
      start + (k+1) intervals, and tick number j never comes before start + j intervals. */
  lemma {:induction false} NoDrift(start: nat, interval: nat, polls: seq<nat>)
    ensures var t := Tracked(start, interval, polls);
            && t.slot == Slot(start + (|t.ticks| + 1) * interval, interval)
            && forall j :: 0 <= j < |t.ticks| ==> t.ticks[j] >= start + (j + 1) * interval
    decreases |polls|
  {
    if |polls| == 0 {
    } else {
      NoDrift(start, interval, polls[..|polls| - 1]);
      var t := Tracked(start, interval, polls[..|polls| - 1]);
      OneMoreInterval(|t.ticks| + 1, interval);
    }
  }

  /** The ticks so far are never more than the whole intervals that have passed. */
  lemma TicksBounded(start: nat, interval: nat, polls: seq<nat>, now: nat)
    requires interval > 0 && start <= now
    requires forall i :: 0 <= i < |polls| ==> polls[i] <= now
    ensures |Tracked(start, interval, polls).ticks| <= (now - start) / interval
  {
    NoDrift(start, interval, polls);
    var ticks := Tracked(start, interval, polls).ticks;
    if |ticks| > 0 {
      TicksAreLooks(start, interval, polls);
      assert ticks[|ticks| - 1] in polls;
      assert |ticks| * interval <= now - start;
    }
    DivAtLeast(now - start, interval, |ticks|);
  }

  lemma {:induction false} TicksAreLooks(start: nat, interval: nat, polls: seq<nat>)
    ensures forall j :: 0 <= j < |Tracked(start, interval, polls).ticks| ==>
              Tracked(start, interval, polls).ticks[j] in polls
    decreases |polls|
  {
    if |polls| == 0 {
    } else {
      TicksAreLooks(start, interval, polls[..|polls| - 1]);
    }
  }

  /** Looks are close when neither the first nor any later one waits more than an interval. */
  ghost predicate Close(start: nat, interval: nat, polls: seq<nat>) {
    && Rising(polls)
    && (|polls| > 0 ==> start <= polls[0] <= start + interval)
    && forall i :: 0 < i < |polls| ==> polls[i] <= polls[i - 1] + interval
  }

  /** When looks are close, no tick is ever missing. */
  lemma {:induction false} NoTickMissed(start: nat, interval: nat, polls: seq<nat>)
    requires interval > 0 && |polls| > 0 && Close(start, interval, polls)
    ensures polls[|polls| - 1] >= start
    ensures |Tracked(start, interval, polls).ticks| == (polls[|polls| - 1] - start) / interval
    decreases |polls|
  {
    var n := |polls| - 1;
    var before, now := polls[..n], polls[n];
    NoDrift(start, interval, before);
    var t := Tracked(start, interval, before);
    var k := |t.ticks|;
    OneMoreInterval(k, interval);
    OneMoreInterval(k + 1, interval);
    if n == 0 {
      assert k == 0;
    } else {
      assert before[n - 1] == polls[n - 1];
      NoTickMissed(start, interval, before);
      DivSpec(before[n - 1] - start, interval);
    }
    if now >= start + (k + 1) * interval {
      DivIs(now - start, interval, k + 1);
    } else {
      DivIs(now - start, interval, k);
    }
  }

  // Many slots

  predicate Touches(op: Op, flow: nat) {
    (op.Add? && op.flow == flow) || (op.Remove? && op.flow == flow)
  }

  function Looks(ops: seq<Op>): seq<nat> {
    if |ops| == 0 then []
    else
      var rest, op := Looks(ops[..|ops| - 1]), ops[|ops| - 1];
      if op.Poll? then rest + [op.now] else rest
  }

  /** The loop is active exactly when there is a slot. */
  ghost predicate ActiveOk(t: Timer) {
    t.active <==> t.slots != map[]
  }

  lemma EmptySizes(slots: map<nat, Slot>)
    ensures |slots| >= 1 <==> slots != map[]
  {
    if slots != map[] {
      var f :| f in slots;
      assert f in slots.Keys;
    }
  }

  lemma StepActive(t: Timer, op: Op)
    requires ActiveOk(t)
    ensures ActiveOk(Do(t, op))
  {
    match op {
      case Add(flow, sampleLen, now) =>
        if sampleLen > 0 {
          assert flow in Do(t, op).slots;
        }
      case Remove(flow) =>
        EmptySizes(t.slots - {flow});
      case Poll(now) =>
        if t.active {
          var f :| f in t.slots;
          assert f in Do(t, op).slots;
        }
    }
  }

  /** On a server that was not stopped the loop is active exactly when slots exist. */
  lemma {:induction false} ActiveWhenSlots(ops: seq<Op>)
    ensures ActiveOk(DoAll(Timer(map[], false), ops))
    decreases |ops|
  {
    if |ops| == 0 {
    } else {
      ActiveWhenSlots(ops[..|ops| - 1]);
      StepActive(DoAll(Timer(map[], false), ops[..|ops| - 1]), ops[|ops| - 1]);
    }
  }

  /** The times at which the timer pushes a tick for one flow. */
  function TicksOf(t: Timer, ops: seq<Op>, flow: nat): seq<nat> {
    if |ops| == 0 then []
    else
      var h, op := ops[..|ops| - 1], ops[|ops| - 1];
      var r := DoAll(t, h);
      if op.Poll? && r.active && flow in r.slots && Due(r.slots[flow], op.now) then TicksOf(t, h, flow) + [op.now]
      else TicksOf(t, h, flow)
  }

  /** One operation that does not touch the flow, on all that is said about the flow. */
  lemma FlowStep(s: Timer, h: seq<Op>, op: Op, flow: nat, start: nat, len: nat)
    requires ActiveOk(DoAll(s, h)) && flow in DoAll(s, h).slots && !Touches(op, flow)
    requires Track(DoAll(s, h).slots[flow], TicksOf(s, h, flow)) == Tracked(start, len, Looks(h))
    ensures var ops := h + [op];
            && ActiveOk(DoAll(s, ops)) && flow in DoAll(s, ops).slots
            && Track(DoAll(s, ops).slots[flow], TicksOf(s, ops, flow)) == Tracked(start, len, Looks(ops))
  {
    var ops := h + [op];
    assert ops[..|ops| - 1] == h;
    StepActive(DoAll(s, h), op);
    OneMoreOp(DoAll(s, h), op, flow);
    if op.Poll? {
      TrackedOneMore(start, len, Looks(h), op.now);
    }
    hide Do, ActiveOk, Tracked, Polled, Due;
  }

  lemma TrackedOneMore(start: nat, len: nat, polls: seq<nat>, now: nat)
    ensures var t := Tracked(start, len, polls);
            var r := Track(Polled(t.slot, now), if Due(t.slot, now) then t.ticks + [now] else t.ticks);
            Tracked(start, len, polls + [now]) == r
  {
    assert (polls + [now])[..|polls|] == polls;
  }

  lemma {:induction false} FlowAlone(s: Timer, flow: nat, start: nat, len: nat, ops: seq<Op>)
    requires ActiveOk(s) && flow in s.slots && s.slots[flow] == Slot(start + len, len)
    requires forall i :: 0 <= i < |ops| ==> !Touches(ops[i], flow)
    ensures var r := DoAll(s, ops);
            && ActiveOk(r) && flow in r.slots
            && Track(r.slots[flow], TicksOf(s, ops, flow)) == Tracked(start, len, Looks(ops))
    decreases |ops|
  {
    if |ops| == 0 {
    } else {
      var h := ops[..|ops| - 1];
      FlowAlone(s, flow, start, len, h);
      FlowStep(s, h, ops[|ops| - 1], flow, start, len);
      assert ops == h + [ops[|ops| - 1]];
      hide DoAll, ActiveOk, TicksOf, Looks, Tracked;
    }
  }

  /** Once added, a flow's slot ticks as if it were alone, whatever happens to other flows,
      until the flow itself is added again or removed: same trigger, same ticks. */
  lemma SlotsIndependent(t: Timer, flow: nat, len: nat, start: nat, ops: seq<Op>)
    requires len > 0 && ActiveOk(t)
    requires forall i :: 0 <= i < |ops| ==> !Touches(ops[i], flow)
    ensures var s := Do(t, Add(flow, len, start));
            var r := DoAll(s, ops);
            && ActiveOk(r) && flow in r.slots
            && Track(r.slots[flow], TicksOf(s, ops, flow)) == Tracked(start, len, Looks(ops))
  {
    StepActive(t, Add(flow, len, start));
    var s := Do(t, Add(flow, len, start));
    assert flow in s.slots && s.slots[flow] == Slot(start + len, len);
    hide Do, ActiveOk, DoAll, TicksOf, Looks, Tracked;
    FlowAlone(s, flow, start, len, ops);
  }

  lemma OneMoreOp(r: Timer, op: Op, flow: nat)
    requires ActiveOk(r) && flow in r.slots && !Touches(op, flow)
    ensures r.active && flow in Do(r, op).slots
    ensures Do(r, op).slots[flow] == if op.Poll? then Polled(r.slots[flow], op.now) else r.slots[flow]
  {
  }

  /** So the ticks of each flow of a server are never more than the whole intervals since it
      was added, and exactly as many when no two looks are more than an interval apart. */
  lemma FlowTicks(t: Timer, flow: nat, len: nat, start: nat, ops: seq<Op>, now: nat)
    requires len > 0 && ActiveOk(t) && start <= now
    requires forall i :: 0 <= i < |ops| ==> !Touches(ops[i], flow)
    requires forall i :: 0 <= i < |Looks(ops)| ==> Looks(ops)[i] <= now
    ensures var ticks := TicksOf(Do(t, Add(flow, len, start)), ops, flow);
            && |ticks| <= (now - start) / len
            && (forall j :: 0 <= j < |ticks| ==> ticks[j] >= start + (j + 1) * len)
    ensures var looks := Looks(ops);
            |looks| > 0 && Close(start, len, looks) && now == looks[|looks| - 1] ==>
              |TicksOf(Do(t, Add(flow, len, start)), ops, flow)| == (now - start) / len
  {
    SlotsIndependent(t, flow, len, start, ops);
    var looks := Looks(ops);
    TicksBounded(start, len, looks, now);
    NoDrift(start, len, looks);
    hide Do, DoAll, TicksOf, Looks, Tracked, ActiveOk;
    if |looks| > 0 && Close(start, len, looks) && now == looks[|looks| - 1] {
      NoTickMissed(start, len, looks);
    }
  }

  /** The same slots for every flow but one. */
  ghost predicate SameBut(before: map<nat, Slot>, after: map<nat, Slot>, flow: nat) {
    forall f :: f != flow ==>
      && (f in after <==> f in before)
      && (f in before ==> f in after && after[f] == before[f])
  }

  // Removal

  predicate Starts(op: Op, flow: nat) {
    op.Add? && op.flow == flow && op.sampleLen > 0
  }

  /** A removed flow has no slot and gets no tick until it is added again. */
  lemma {:induction false} RemovedIsGone(t: Timer, flow: nat, ops: seq<Op>)
    requires forall i :: 0 <= i < |ops| ==> !Starts(ops[i], flow)
    ensures var s := Do(t, Remove(flow)); flow !in DoAll(s, ops).slots && TicksOf(s, ops, flow) == []
    decreases |ops|
  {
    var s := Do(t, Remove(flow));
    assert flow !in s.slots;
    hide Do;
    if |ops| == 0 {
    } else {
      var h, op := ops[..|ops| - 1], ops[|ops| - 1];
      RemovedIsGone(t, flow, h);
      SlotStep(DoAll(s, h), op, flow);
      hide Starts, Due;
      assert DoAll(s, ops) == Do(DoAll(s, h), op);
    }
  }

  /** Operation `i` gives the flow a slot, and nothing removes it later. */
  ghost predicate StartedAt(ops: seq<Op>, flow: nat, i: int) {
    && 0 <= i < |ops| && Starts(ops[i], flow)
    && forall j :: i < j < |ops| ==> ops[j] != Remove(flow)
  }

  /** The flow was added and has not been removed since. */
  ghost predicate Live(ops: seq<Op>, flow: nat) {
    exists i :: StartedAt(ops, flow, i)
  }

  lemma LiveStep(h: seq<Op>, op: Op, flow: nat)
    ensures Live(h + [op], flow) <==> Starts(op, flow) || (Live(h, flow) && op != Remove(flow))
  {
    var ops := h + [op];
    if Starts(op, flow) {
      assert StartedAt(ops, flow, |h|);
    } else if Live(h, flow) && op != Remove(flow) {
      var i :| StartedAt(h, flow, i);
      assert StartedAt(ops, flow, i);
    }
    if Live(ops, flow) && !Starts(op, flow) {
      var i :| StartedAt(ops, flow, i);
      assert i < |h| && ops[i] == h[i] && ops[|h|] == op;
      forall j | i < j < |h|
        ensures h[j] != Remove(flow)
      {
        assert ops[j] == h[j];
      }
      assert StartedAt(h, flow, i);
    }
  }

  lemma SlotStep(t: Timer, op: Op, flow: nat)
    ensures flow in Do(t, op).slots <==> Starts(op, flow) || (flow in t.slots && op != Remove(flow))
  {
  }

  lemma {:induction false} SlotOfFlow(ops: seq<Op>, flow: nat)
    ensures flow in DoAll(Timer(map[], false), ops).slots <==> Live(ops, flow)
    decreases |ops|
  {
    if |ops| == 0 {
    } else {
      var h, op := ops[..|ops| - 1], ops[|ops| - 1];
      SlotOfFlow(h, flow);
      assert ops == h + [op];
      LiveStep(h, op, flow);
      SlotStep(DoAll(Timer(map[], false), h), op, flow);
      hide Do, Live, Starts;
    }
  }

  /** On every run exactly the flows that were added and not removed since have a slot, and
      the loop is active exactly when there is such a flow. */
  lemma SlotsAreLive(ops: seq<Op>)
    ensures var t := DoAll(Timer(map[], false), ops);
            && (forall f :: f in t.slots <==> Live(ops, f))
            && (t.active <==> exists f :: Live(ops, f))
  {
    ActiveWhenSlots(ops);
    var t := DoAll(Timer(map[], false), ops);
    assert t.active ==> exists f :: f in t.slots;
    hide DoAll, Live;
    forall f
      ensures f in t.slots <==> Live(ops, f)
    {
      SlotOfFlow(ops, f);
    }
    if t.active {
      var f :| f in t.slots;
      assert Live(ops, f);
    }
  }

  ghost predicate Ascending(fs: seq<nat>) {
    forall i, j :: 0 <= i < j < |fs| ==> fs[i] < fs[j]
  }

  /** The timer of a server. */
  class ServerTimer {
    var slots: map<nat, Slot>
    var runActive: bool
    var timerEnabled: bool

    ghost function Snap(): Timer
      reads this
    {
      Timer(slots, runActive)
    }

    constructor ()
      ensures Snap() == Timer(map[], false) && timerEnabled
    {
      slots, runActive, timerEnabled := map[], false, true;
    }

    method AddTimer(flow: nat, sampleLen: nat, now: nat)
      modifies `slots, `runActive
      ensures Snap() == Do(old(Snap()), Add(flow, sampleLen, now))
      ensures SameBut(old(slots), slots, flow)
      ensures sampleLen > 0 ==> flow in slots && slots[flow] == Slot(now + sampleLen, sampleLen) && runActive
      ensures sampleLen == 0 ==> slots == old(slots) && runActive == old(runActive)
    {
      if sampleLen > 0 {
        var slot := Slot(now, sampleLen);
        slot := slot.(trigger := slot.trigger + sampleLen);
        slots := slots[flow := slot];
        runActive := true;
      }
    }

    method RemoveTimer(flow: nat)
      modifies `slots, `runActive
      ensures Snap() == Do(old(Snap()), Remove(flow))
      ensures flow !in slots && SameBut(old(slots), slots, flow)
      ensures runActive <==> old(runActive) && exists f :: f in old(slots) && f != flow
    {
      if flow in slots {
        slots := slots - {flow};
      } else {
        assert slots - {flow} == slots;
      }
      EmptySizes(slots);
      assert slots == map[] <==> forall f :: f in old(slots) ==> f == flow;
      if |slots| < 1 {
        runActive := false;
      }
    }

    /** One slot: a due trigger moves on by the slot's own interval. */
    method PollSlot(flow: nat, now: nat) returns (due: bool)
      requires flow in slots
      modifies `slots
      ensures due == Due(old(slots)[flow], now)
      ensures slots == if due then old(slots)[flow := Polled(old(slots)[flow], now)] else old(slots)
    {
      var slot := slots[flow];
      due := now >= slot.trigger;
      if due {
        slots := slots[flow := slot.(trigger := slot.trigger + slot.interval)];
      }
    }

    /** The loop over the slots, in the given order. */
    method PollFlows(order: seq<nat>, now: nat) returns (ticks: seq<nat>)
      requires Ascending(order) && forall f :: f in order ==> f in slots
      modifies `slots
      ensures slots == PolledSome(old(slots), order, now)
      ensures ticks == DueFlows(old(slots), order, now)
    {
      ghost var before := slots;
      LoopBegins(before, order, now);
      hide DueFlows, PolledSome, Ascending, Due;
      ticks := [];
      var i := 0;
      while i < |order|
        invariant 0 <= i <= |order|
        invariant slots == PolledSome(before, order[..i], now)
        invariant ticks == DueFlows(before, order[..i], now)
      {
        NextFlow(before, order, i, now);
        var due := PollSlot(order[i], now);
        if due {
          ticks := ticks + [order[i]];
        }
        i := i + 1;
      }
      assert order[..|order|] == order;
    }

    /** One turn of the polling loop. The ticks pushed are those of the flows that are due,
        each once, by ascending flow. */
    method PollOnce(now: nat) returns (ticks: seq<nat>)
      modifies `slots
      ensures Snap() == Do(old(Snap()), Poll(now))
      ensures Ascending(ticks)
      ensures forall f :: f in ticks <==> runActive && f in old(slots) && Due(old(slots)[f], now)
    {
      ticks := [];
      if runActive {
        var order := AscendingKeys(slots.Keys);
        LoopEnds(slots, order, now);
        hide DueFlows, PolledSome, Ascending, Due, Do;
        ticks := PollFlows(order, now);
      }
    }

    method Stop()
      modifies `runActive, `timerEnabled
      ensures !runActive && !timerEnabled
    {
      runActive, timerEnabled := false, false;
    }
  }

  /** The slots after the loop has looked at some of the flows. */
  function PolledSome(slots: map<nat, Slot>, looked: seq<nat>, now: nat): map<nat, Slot> {
    map f | f in slots :: if f in looked then Polled(slots[f], now) else slots[f]
  }

  lemma NextFlow(slots: map<nat, Slot>, order: seq<nat>, i: nat, now: nat)
    requires Ascending(order) && i < |order| && forall j :: 0 <= j < |order| ==> order[j] in slots
    ensures order[i] !in order[..i]
    ensures var s := PolledSome(slots, order[..i], now);
            && order[i] in s && s[order[i]] == slots[order[i]]
            && PolledSome(slots, order[..i + 1], now)
            == (if Due(slots[order[i]], now) then s[order[i] := Polled(slots[order[i]], now)] else s)
    ensures DueFlows(slots, order[..i + 1], now)
         == DueFlows(slots, order[..i], now) + if Due(slots[order[i]], now) then [order[i]] else []
  {
    assert order[..i + 1][..i] == order[..i];
    assert order[..i + 1] == order[..i] + [order[i]];
    MemberOneMore(order[..i], order[i]);
  }

  lemma LoopBegins(slots: map<nat, Slot>, order: seq<nat>, now: nat)
    ensures order[..0] == [] && PolledSome(slots, [], now) == slots && DueFlows(slots, [], now) == []
  {
  }

  lemma LoopEnds(slots: map<nat, Slot>, order: seq<nat>, now: nat)
    requires Ascending(order) && forall f :: f in order <==> f in slots
    ensures Do(Timer(slots, true), Poll(now)) == Timer(PolledSome(slots, order, now), true)
    ensures Ascending(DueFlows(slots, order, now))
    ensures forall f :: f in DueFlows(slots, order, now) <==> f in slots && Due(slots[f], now)
  {
    DueFlowsAscend(slots, order, now);
  }

  /** The flows in a list of flows that are due. */
  function DueFlows(slots: map<nat, Slot>, order: seq<nat>, now: nat): seq<nat>
    requires forall i :: 0 <= i < |order| ==> order[i] in slots
  {
    if |order| == 0 then []
    else
      var rest, f := DueFlows(slots, order[..|order| - 1], now), order[|order| - 1];
      if Due(slots[f], now) then rest + [f] else rest
  }

  lemma {:induction false} DueFlowsAscend(slots: map<nat, Slot>, order: seq<nat>, now: nat)
    requires Ascending(order) && forall i :: 0 <= i < |order| ==> order[i] in slots
    ensures Ascending(DueFlows(slots, order, now))
    ensures forall f :: f in DueFlows(slots, order, now) <==> f in order && Due(slots[f], now)
    decreases |order|
  {
    if |order| == 0 {
    } else {
      var h, f := order[..|order| - 1], order[|order| - 1];
      DueFlowsAscend(slots, h, now);
      assert order == h + [f];
      MemberOneMore(h, f);
      MemberOneMore(DueFlows(slots, h, now), f);
      forall g | g in h
        ensures g < f
      {
        var j :| 0 <= j < |h| && h[j] == g;
        assert order[j] < order[|order| - 1];
      }
      AscendingOneMore(DueFlows(slots, h, now), f);
    }
  }

  lemma AscendingOneMore(order: seq<nat>, f: nat)
    requires Ascending(order) && forall g :: g in order ==> g < f
    ensures Ascending(order + [f])
  {
    var all := order + [f];
    forall i, j | 0 <= i < j < |all|
      ensures all[i] < all[j]
    {
      assert all[i] == order[i] && order[i] in order;
    }
  }

  lemma MemberOneMore(order: seq<nat>, f: nat)
    ensures forall g :: g in order + [f] <==> g in order || g == f
  {
    assert (order + [f])[|order|] == f;
    forall g | g in order
      ensures g in order + [f]
    {
      var j :| 0 <= j < |order| && order[j] == g;
      assert (order + [f])[j] == g;
    }
  }

  method AscendingKeys(keys: set<nat>) returns (order: seq<nat>)
    ensures Ascending(order)
    ensures forall f :: f in order <==> f in keys
  {
    order := [];
    var todo := keys;
    while todo != {}
      invariant todo <= keys && Ascending(order)
      invariant forall f :: f in order <==> f in keys && f !in todo
      invariant forall f, g :: f in order && g in todo ==> f < g
      decreases |todo|
    {
      Least(todo);
      var flow :| flow in todo && AtMostAll(flow, todo);
      MemberOneMore(order, flow);
      AscendingOneMore(order, flow);
      order, todo := order + [flow], todo - {flow};
    }
  }

  predicate AtMostAll(f: nat, s: set<nat>) {
    forall g :: g in s ==> f <= g
  }

  lemma {:induction false} Least(s: set<nat>)
    requires s != {}
    ensures exists f :: f in s && AtMostAll(f, s)
    decreases |s|
  {
    var x :| x in s;
    var rest := s - {x};
    if rest == {} {
      assert s == {x};
      assert AtMostAll(x, s);
    } else {
      Least(rest);
      var f :| f in rest && AtMostAll(f, rest);
      LeastOfTwo(s, x, f);
    }
  }

  lemma LeastOfTwo(s: set<nat>, x: nat, f: nat)
    requires x in s && f in s && AtMostAll(f, s - {x})
    ensures var m := if x < f then x else f; m in s && AtMostAll(m, s)
  {
    forall g | g in s
      ensures (if x < f then x else f) <= g
    {
      assert g == x || g in s - {x};
    }
  }
}
