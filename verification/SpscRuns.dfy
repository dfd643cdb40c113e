/** Whole runs of the queue: every schedule of its two threads refines the bounded FIFO. */
module SpscRuns {
  import opened Wrappers
  import opened Wrapping
  import opened SpscQueue

  datatype Trace<+T> = Trace(s: State<T>, events: seq<Event<T>>)

  /** The state a schedule leads to and the events seen on the way. */
  function Run<T>(s: State<T>, acts: seq<Action<T>>): (t: Trace<T>)
    requires Shape(s)
    ensures Shape(t.s) && t.s.n == s.n && |t.events| == |acts|
    decreases |acts|
  {
    if acts == [] then Trace(s, [])
    else
      var o := Step(s, acts[0]);
      var rest := Run(o.s, acts[1..]);
      Trace(rest.s, [o.e] + rest.events)
  }

  /** Whether a FIFO of at most `cap` elements accepts a sequence of events. */
  predicate FifoAccepts<T(==)>(q: seq<T>, events: seq<Event<T>>, cap: nat)
    decreases |events|
  {
    |events| == 0 || (FifoAllows(q, events[0], cap) && FifoAccepts(FifoAfter(q, events[0]), events[1..], cap))
  }

  function Enqueued<T>(events: seq<Event<T>>): seq<T> {
    if |events| == 0 then []
    else (if events[0].Enq? then [events[0].x] else []) + Enqueued(events[1..])
  }

  function Dequeued<T>(events: seq<Event<T>>): seq<T> {
    if |events| == 0 then []
    else (if events[0].Deq? then [events[0].x] else []) + Dequeued(events[1..])
  }

  ghost predicate Disciplined<T>(acts: seq<Action<T>>) {
    forall i :: 0 <= i < |acts| ==> !acts[i].BlindPop?
  }

  lemma {:induction false} RunKeepsInv<T>(s: State<T>, acts: seq<Action<T>>)
    requires Inv(s) && Disciplined(acts)
    ensures Inv(Run(s, acts).s)
    decreases |acts|
  {
    if acts == [] {
    } else {
      StepRefines(s, acts[0]);
      RunKeepsInv(Step(s, acts[0]).s, acts[1..]);
    }
  }

  lemma {:induction false} RunRefines<T>(s: State<T>, acts: seq<Action<T>>)
    requires Inv(s) && Disciplined(acts)
    ensures FifoAccepts(Abs(s), Run(s, acts).events, s.n - 1)
    decreases |acts|
  {
    assert Shape(s);
    hide Step, Inv, FifoAllows, FifoAfter, Abs;
    if acts == [] {
    } else {
      var o := Step(s, acts[0]);
      StepRefines(s, acts[0]);
      RunRefines(o.s, acts[1..]);
      assert Run(s, acts).events[1..] == Run(o.s, acts[1..]).events;
    }
  }

  /** The history variables record exactly the enqueue and dequeue events. */
  lemma {:induction false} RunHistory<T>(s: State<T>, acts: seq<Action<T>>)
    requires Shape(s)
    ensures var t := Run(s, acts);
            && t.s.pushed == s.pushed + Enqueued(t.events)
            && t.s.popped == s.popped + Dequeued(t.events)
    decreases |acts|
  {
    hide Step;
    if acts == [] {
      assert s.pushed + [] == s.pushed && s.popped + [] == s.popped;
    } else {
      var o, rest := Step(s, acts[0]), Run(Step(s, acts[0]).s, acts[1..]);
      StepHistory(s, acts[0]);
      RunHistory(o.s, acts[1..]);
      HistoryOneMore(o.e, rest.events);
      assert Run(s, acts) == Trace(rest.s, [o.e] + rest.events);
      hide Enqueued, Dequeued, Run;
    }
  }

  lemma HistoryOneMore<T>(e: Event<T>, rest: seq<Event<T>>)
    ensures Enqueued([e] + rest) == (if e.Enq? then [e.x] else []) + Enqueued(rest)
    ensures Dequeued([e] + rest) == (if e.Deq? then [e.x] else []) + Dequeued(rest)
  {
    assert ([e] + rest)[1..] == rest;
  }

  lemma StepHistory<T>(s: State<T>, a: Action<T>)
    requires Shape(s)
    ensures var o := Step(s, a);
            && o.s.pushed == s.pushed + (if o.e.Enq? then [o.e.x] else [])
            && o.s.popped == s.popped + (if o.e.Deq? then [o.e.x] else [])
  {
  }

  /** Every schedule from an empty queue is a run of a FIFO of the requested capacity:
      nothing is lost, duplicated or reordered, and full or empty is never misjudged. */
  lemma EveryScheduleIsFifo<T>(capacity: nat, acts: seq<Action<T>>)
    requires Disciplined(acts)
    ensures var t := Run(Init(capacity), acts);
            var cap := if capacity < 1 then 1 else capacity;
            && FifoAccepts([], t.events, cap)
            && |Abs(t.s)| <= cap
            && Enqueued(t.events) == Dequeued(t.events) + Abs(t.s)
  {
    var s := Init<T>(capacity);
    InitInv<T>(capacity);
    hide Step, Inv, FifoAccepts;
    RunRefines(s, acts);
    RunKeepsInv(s, acts);
    RunHistory(s, acts);
    assert [] + Enqueued(Run(s, acts).events) == Enqueued(Run(s, acts).events);
    assert [] + Dequeued(Run(s, acts).events) == Dequeued(Run(s, acts).events);
    HistoryIsContents(Run(s, acts).s);
  }

  lemma HistoryIsContents<T>(s: State<T>)
    requires Inv(s)
    ensures s.pushed == s.popped + Abs(s) && |Abs(s)| <= s.n - 1
  {
  }

  /** The values whose `emplace` begins, in order. */
  function Started<T>(s: State<T>, acts: seq<Action<T>>): seq<T>
    requires Shape(s)
    decreases |acts|
  {
    if |acts| == 0 then []
    else (if acts[0].Push? && s.prod.PIdle? then [acts[0].x] else []) + Started(Step(s, acts[0]).s, acts[1..])
  }

  /** The value of the `emplace` under way. */
  function UnderWay<T>(s: State<T>): seq<T> {
    match s.prod
    case PSpin(v) => [v]
    case PTry(v) => [v]
    case PBuild(v) => [v]
    case PPublish(v) => [v]
    case _ => []
  }

  lemma HandStep<T>(s: State<T>, a: Action<T>)
    requires Shape(s) && !a.TryPush? && !s.prod.PTry?
    ensures var o := Step(s, a);
            && !o.s.prod.PTry?
            && UnderWay(s) + (if a.Push? && s.prod.PIdle? then [a.x] else [])
            == (if o.e.Enq? then [o.e.x] else []) + UnderWay(o.s)
  {
  }

  lemma Regrouped<T>(hand: seq<T>, first: seq<T>, more: seq<T>, enq: seq<T>, hand1: seq<T>, enqs: seq<T>, last: seq<T>)
    requires hand + first == enq + hand1 && hand1 + more == enqs + last
    ensures hand + (first + more) == (enq + enqs) + last
  {
    assert hand + (first + more) == (hand + first) + more;
    assert (enq + hand1) + more == enq + (hand1 + more);
  }

  lemma {:induction false} StartedArrive<T>(s: State<T>, acts: seq<Action<T>>)
    requires Shape(s) && !s.prod.PTry? && forall i :: 0 <= i < |acts| ==> !acts[i].TryPush?
    ensures var t := Run(s, acts); UnderWay(s) + Started(s, acts) == Enqueued(t.events) + UnderWay(t.s)
    decreases |acts|
  {
    hide Step, UnderWay;
    if |acts| == 0 {
      assert UnderWay(s) + [] == [] + UnderWay(s);
    } else {
      var o, rest := Step(s, acts[0]), Run(Step(s, acts[0]).s, acts[1..]);
      HandStep(s, acts[0]);
      StartedArrive(o.s, acts[1..]);
      HistoryOneMore(o.e, rest.events);
      assert Run(s, acts) == Trace(rest.s, [o.e] + rest.events);
      hide Enqueued, Run;
      Regrouped(UnderWay(s), if acts[0].Push? && s.prod.PIdle? then [acts[0].x] else [], Started(o.s, acts[1..]),
                if o.e.Enq? then [o.e.x] else [], UnderWay(o.s), Enqueued(rest.events), UnderWay(rest.s));
    }
  }

  /** No value is dropped: every `emplace` that began has published its value, in order, but
      for the one still under way. */
  lemma EveryEmplaceArrives<T>(capacity: nat, acts: seq<Action<T>>)
    requires forall i :: 0 <= i < |acts| ==> !acts[i].TryPush?
    ensures var t := Run(Init(capacity), acts);
            Started(Init(capacity), acts) == Enqueued(t.events) + UnderWay(t.s)
  {
    StartedArrive(Init(capacity), acts);
    assert [] + Started(Init<T>(capacity), acts) == Started(Init<T>(capacity), acts);
    hide Run, Started, Step;
  }

  /** In every reachable state the caches are conservative, and a slot about to be
      constructed holds no element that the consumer has yet to release. */
  lemma ReachableStatesAreSafe<T>(capacity: nat, acts: seq<Action<T>>)
    requires Disciplined(acts)
    ensures var s := Run(Init(capacity), acts).s;
            && CachesConservative(s)
            && (s.prod.PBuild? ==> s.slots[s.writeIdx] == None)
            && (s.cons.CHeld? ==> Abs(s) != [] && s.slots[s.readIdx] == Some(Abs(s)[0]))
  {
    InitInv<T>(capacity);
    RunKeepsInv(Init(capacity), acts);
    InvIsSafe(Run(Init(capacity), acts).s);
  }

  lemma InvIsSafe<T>(s: State<T>)
    requires Inv(s)
    ensures s.prod.PBuild? ==> s.slots[s.writeIdx] == None
    ensures s.cons.CHeld? ==> Abs(s) != [] && s.slots[s.readIdx] == Some(Abs(s)[0])
  {
    assert Wrap(|s.pushed|, s.n) == s.writeIdx && Wrap(|s.popped|, s.n) == s.readIdx;
  }

  /** Without the discipline the stale cache lies: one push, then a pop that no `front`
      preceded, and the next `front` hands out a destroyed slot of an empty queue. */
  lemma BlindPopBreaksFront<T>(capacity: nat, x: T)
    ensures var s1 := Step(Init(capacity), Push(x)).s;
            var s2 := Step(Step(s1, PNext).s, PNext).s;
            var s3 := Step(Step(s2, BlindPop).s, CNext).s;
            Abs(s2) == [x] && Abs(s3) == [] && Step(s3, Front).e == Saw(None)
  {
    var s0 := Init<T>(capacity);
    var s1 := Step(s0, Push(x)).s;
    assert s1.prod == PBuild(x);
    var s2 := Step(Step(s1, PNext).s, PNext).s;
    assert s2.slots[0] == Some(x) && s2.pushed == [x];
    var s3 := Step(Step(s2, BlindPop).s, CNext).s;
    assert s3.popped == [x] && s3.slots[1] == None && s3.readIdx == 1;
  }

  /** An emplace waiting for room stops waiting at the first reload that finds any. */
  lemma SpinEndsWithRoom<T>(s: State<T>)
    requires Inv(s) && s.prod.PSpin?
    ensures var t := Step(s, PNext).s;
            (t.prod == PBuild(s.prod.v) <==> |Abs(s)| < s.n - 1) && (t.prod.PSpin? <==> |Abs(s)| == s.n - 1)
  {
    FullTest(|s.pushed|, |s.popped|, s.n);
  }

  /** An undisturbed push with room takes at most three steps, and one more changes nothing. */
  lemma PushedAlone<T>(q: State<T>, x: T)
    requires Inv(q) && q.prod.PIdle? && |Abs(q)| < q.n - 1
    ensures Shape(q)
    ensures var t := Step(Step(Step(Step(q, Push(x)).s, PNext).s, PNext).s, PNext).s;
            t.prod.PIdle? && t.pushed == q.pushed + [x]
  {
    assert Shape(q);
    PushRefines(q, Push(x));
    var t := Step(q, Push(x)).s;
    if t.prod.PSpin? {
      SpinEndsWithRoom(t);
    }
    hide Inv, Gap, Succ, Abs;
  }
}
