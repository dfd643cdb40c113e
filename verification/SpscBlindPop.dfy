/** A pop that no non-null front preceded: when it does no harm, and what it does otherwise. */
module SpscBlindPop {
  import opened Wrappers
  import opened Wrapping
  import opened SpscQueue
  import opened SpscRuns
  import SpscRing

  /** A blind pop run to its end. */
  function Blindly<T>(s: State<T>): State<T>
    requires Shape(s)
  {
    Step(Step(s, BlindPop).s, CNext).s
  }

  /** The state with a fresh cache of the write index. */
  function Repaired<T>(s: State<T>): State<T> {
    s.(writeIdxCache := s.writeIdx, wcAt := |s.pushed|)
  }

  /** Apart from the cache a blind pop of a queue that is not empty is an ordinary one. */
  lemma BlindPopPops<T>(s: State<T>)
    requires Inv(Repaired(s)) && s.cons.CIdle? && Abs(s) != []
    ensures Shape(s)
    ensures var t := Blindly(s);
            && Inv(Repaired(t)) && t.cons.CIdle? && Abs(t) == Abs(s)[1..]
            && t.n == s.n && t.prod == s.prod && t.pushed == s.pushed && |t.popped| == |s.popped| + 1
            && t.writeIdxCache == s.writeIdxCache && t.wcAt == s.wcAt
  {
    assert Shape(Repaired(s));
    var h := Repaired(s).(cons := CHeld);
    HeldOk(s);
    DestroyKeepsInv(h);
    ReleaseKeepsInv(Destroy(h).s);
    EmptyTest(|s.pushed|, |s.popped|, s.n);
    InvIsSafe(h);
    hide Inv;
    assert Repaired(Blindly(s)) == ConsumerStep(Destroy(h).s).s;
    assert Abs(Repaired(Blindly(s))) == Abs(Blindly(s)) && Abs(h) == Abs(s);
  }

  lemma HeldOk<T>(s: State<T>)
    requires Inv(Repaired(s)) && s.cons.CIdle? && Abs(s) != []
    ensures Inv(Repaired(s).(cons := CHeld))
  {
    SlotsFrame(Repaired(s), Repaired(s).(cons := CHeld));
    hide LiveSlots, FreeSlots;
  }

  lemma RepairedOk<T>(s: State<T>)
    requires Inv(s) && s.cons.CIdle?
    ensures Inv(Repaired(s))
  {
    SlotsFrame(s, Repaired(s));
    hide LiveSlots, FreeSlots;
  }

  lemma OnlyTheCache<T>(t: State<T>)
    requires Inv(Repaired(t)) && t.cons.CIdle?
    ensures t.n > 0 && (Inv(t) <==> CachesConservative(t))
  {
    assert Shape(Repaired(t));
    SlotsFrame(Repaired(t), t);
    hide LiveSlots, FreeSlots;
  }

  /** The cache stays conservative over a blind pop, and with it the whole invariant that
      every FIFO result rests on, exactly when the cache was ahead of the read index. */
  lemma BlindPopExact<T>(s: State<T>)
    requires Inv(s) && s.cons.CIdle? && s.writeIdx != s.readIdx
    ensures Shape(s)
    ensures var t := Blindly(s);
            && t.n > 0
            && (CachesConservative(t) <==> s.readIdx != s.writeIdxCache)
            && (Inv(t) <==> s.readIdx != s.writeIdxCache)
            && Abs(s) != [] && Abs(t) == Abs(s)[1..]
  {
    EmptyTest(|s.pushed|, |s.popped|, s.n);
    EmptyTest(s.wcAt, |s.popped|, s.n);
    RepairedOk(s);
    BlindPopPops(s);
    OnlyTheCache(Blindly(s));
    hide Step, LiveSlots, FreeSlots, Wrap;
  }

  /** The cache lags behind the read index, by less than a whole turn of the ring. */
  ghost predicate Lagging<T>(t: State<T>) {
    && Inv(Repaired(t)) && t.cons.CIdle?
    && t.writeIdxCache == Wrap(t.wcAt, t.n)
    && t.wcAt < |t.popped| && |t.pushed| - t.wcAt <= t.n - 1
  }

  lemma StaleBlindPopLags<T>(s: State<T>)
    requires Inv(s) && s.cons.CIdle? && s.writeIdx != s.readIdx && s.readIdx == s.writeIdxCache
    ensures Shape(s) && Lagging(Blindly(s))
  {
    EmptyTest(|s.pushed|, |s.popped|, s.n);
    EmptyTest(s.wcAt, |s.popped|, s.n);
    RepairedOk(s);
    BlindPopPops(s);
    hide Step, LiveSlots, FreeSlots, Wrap;
  }

  /** A `front` that trusts a lagging cache shows the next slot without looking. */
  lemma LaggingFront<T>(t: State<T>)
    requires Lagging(t)
    ensures Shape(t)
    ensures var o := Step(t, Front); o.s == t.(cons := CHeld) && o.e == Saw(t.slots[t.readIdx])
  {
    assert Shape(Repaired(t));
    WrapInjective(t.wcAt, |t.popped|, t.n);
  }

  /** Taking what is left by the book: `front`, then `pop`. */
  function FrontPops<T>(k: nat): seq<Action<T>> {
    if k == 0 then [] else [Front, Pop, CNext] + FrontPops(k - 1)
  }

  lemma {:induction false} FrontPopsDisciplined<T>(k: nat)
    ensures Disciplined(FrontPops<T>(k))
    decreases k
  {
    if k == 0 {
    } else {
      FrontPopsDisciplined<T>(k - 1);
    }
  }

  /** One `front` and `pop` on a lagging queue is once more a blind pop. */
  lemma LaggingRound<T>(t: State<T>)
    requires Lagging(t) && Abs(t) != []
    ensures Shape(t) && Lagging(Blindly(t))
    ensures Step(Step(Step(t, Front).s, Pop).s, CNext).s == Blindly(t)
    ensures Abs(Blindly(t)) == Abs(t)[1..] && Blindly(t).prod == t.prod
  {
    LaggingFront(t);
    BlindPopPops(t);
    EmptyTest(|t.pushed|, |t.popped|, t.n);
    assert t.writeIdx != t.readIdx;
    hide Inv, Wrap;
  }

  /** The first `front` after the rest was taken looks into a slot without an element: it is
      destroyed, or holds a value that the producer has not published. */
  ghost predicate EndsWrong<T>(t: State<T>)
    requires Shape(t)
  {
    var u := Run(t, FrontPops(|Abs(t)|)).s;
    Abs(u) == [] && Step(u, Front).e == Saw(if t.prod.PPublish? then Some(t.prod.v) else None)
  }

  lemma EndsWrongBefore<T>(t: State<T>)
    requires Lagging(t) && Abs(t) != []
    ensures Shape(t) && Lagging(Blindly(t)) && |Abs(Blindly(t))| < |Abs(t)|
    ensures EndsWrong(Blindly(t)) ==> EndsWrong(t)
  {
    LaggingRound(t);
    FrontPopsMore<T>(|Abs(t)|);
    hide Step, Lagging, Run, Abs, Blindly, Shape, FrontPops;
    var left: nat := |Abs(t)| - 1;
    assert |Abs(Blindly(t))| == left;
    ThreeSteps(t, Front, Pop, CNext, FrontPops(left));
    assert Run(t, FrontPops(left + 1)).s == Run(Blindly(t), FrontPops(left)).s;
  }

  lemma FrontPopsMore<T>(k: nat)
    requires k > 0
    ensures FrontPops<T>(k) == [Front, Pop, CNext] + FrontPops(k - 1)
  {
  }

  lemma {:induction false} LaggingEndsWrong<T>(t: State<T>)
    requires Lagging(t)
    ensures Shape(t) && EndsWrong(t)
    decreases |Abs(t)|
  {
    if Abs(t) == [] {
      LaggingFrontWrong(t);
    } else {
      EndsWrongBefore(t);
      hide EndsWrong, Lagging, Blindly, Shape;
      LaggingEndsWrong(Blindly(t));
    }
  }

  lemma LaggingFrontWrong<T>(t: State<T>)
    requires Lagging(t) && Abs(t) == []
    ensures Shape(t) && Run(t, FrontPops(0)).s == t
    ensures Step(t, Front).e == Saw(if t.prod.PPublish? then Some(t.prod.v) else None)
  {
    LaggingFront(t);
    EmptySlot(t);
    hide Step, Inv, Wrap;
  }

  lemma EmptySlot<T>(t: State<T>)
    requires Inv(Repaired(t)) && Abs(t) == []
    ensures Shape(t) && t.slots[t.readIdx] == if t.prod.PPublish? then Some(t.prod.v) else None
  {
    var r := Repaired(t);
    assert Shape(r);
    assert Wrap(|r.pushed|, r.n) == r.readIdx;
  }

  lemma ThreeSteps<T>(t: State<T>, a: Action<T>, b: Action<T>, c: Action<T>, rest: seq<Action<T>>)
    requires Shape(t)
    ensures Run(t, [a, b, c] + rest).s == Run(Step(Step(Step(t, a).s, b).s, c).s, rest).s
  {
    hide Step, Run;
    assert [a, b, c] + rest == [a, b] + ([c] + rest);
    SpscRing.RunSplit(t, [a, b], [c] + rest);
    SpscRing.RunTwo(t, a, b);
    SpscRing.RunSplit(Step(Step(t, a).s, b).s, [c], rest);
    SpscRing.RunOne(Step(Step(t, a).s, b).s, c);
  }

  /** Whatever disciplined schedule follows, `front` answers as the FIFO would. */
  ghost predicate FrontsTrue<T(!new)>(t: State<T>)
    requires Shape(t)
  {
    forall acts: seq<Action<T>> :: Disciplined(acts) ==>
      FifoAllows(Abs(Run(t, acts).s), Step(Run(t, acts).s, Front).e, t.n - 1)
  }

  /** After a blind pop all later fronts are right exactly when the cache was ahead. */
  lemma BlindPopHarmlessExactly<T(!new)>(s: State<T>)
    requires Inv(s) && s.cons.CIdle? && s.writeIdx != s.readIdx
    ensures Shape(s)
    ensures FrontsTrue(Blindly(s)) <==> s.readIdx != s.writeIdxCache
  {
    BlindPopExact(s);
    var t := Blindly(s);
    if s.readIdx != s.writeIdxCache {
      InvFrontsTrue(t);
    } else {
      StaleBlindPopLags(s);
      LaggingFrontsWrong(t);
    }
    hide Step, Inv, Lagging, FrontsTrue, Abs;
  }

  lemma InvFrontsTrue<T(!new)>(t: State<T>)
    requires Inv(t)
    ensures Shape(t) && FrontsTrue(t)
  {
    assert Shape(t);
    forall acts: seq<Action<T>> | Disciplined(acts)
      ensures FifoAllows(Abs(Run(t, acts).s), Step(Run(t, acts).s, Front).e, t.n - 1)
    {
      RunKeepsInv(t, acts);
      StepRefines(Run(t, acts).s, Front);
      hide Inv, Step;
    }
    hide Inv, Step, Run;
  }

  lemma LaggingFrontsWrong<T(!new)>(t: State<T>)
    requires Lagging(t)
    ensures Shape(t) && !FrontsTrue(t)
  {
    LaggingEndsWrong(t);
    FrontPopsDisciplined<T>(|Abs(t)|);
    hide Lagging, Step, Run, Abs, FrontPops;
  }

  // Healing

  /** A stale cache that equals the read index is reloaded: however it came about, that
      `front` answers rightly and the queue is in order again. */
  lemma LappedCacheHeals<T>(t: State<T>)
    requires Inv(Repaired(t)) && t.cons.CIdle? && t.readIdx == t.writeIdxCache
    ensures Shape(t)
    ensures var o := Step(Step(t, Front).s, CNext);
            && Step(t, Front).e == Tau && Inv(o.s) && Abs(o.s) == Abs(t)
            && o.e == (if Abs(t) == [] then Empty else Saw(Some(Abs(t)[0])))
  {
    assert Shape(Repaired(t));
    var r := Repaired(t).(cons := CReload);
    SlotsFrame(Repaired(t), r);
    assert Inv(r);
    RefillRefines(r);
    assert ConsumerStep(t.(cons := CReload)) == ConsumerStep(r);
    assert Abs(r) == Abs(t);
    hide Inv;
  }

  /** A ring for one element after one push and a stale blind pop. */
  function StaleRing<T>(a: T): State<T> {
    State(2, [None, None], 1, 0, 1, 0, PIdle, CIdle, [a], [a], 0, 0)
  }

  lemma StaleRingReached<T>(a: T)
    ensures Blindly(Step(Step(Step(Init<T>(1), Push(a)).s, PNext).s, PNext).s) == StaleRing(a)
    ensures Abs(StaleRing(a)) == [] && Step(StaleRing(a), Front).e == Saw(None)
  {
    var p := Step(Step(Step(Init<T>(1), Push(a)).s, PNext).s, PNext).s;
    assert p.slots == [Some(a), None] && p.pushed == [a] && p.writeIdx == 1;
    assert Blindly(p).slots == [None, None] && Blindly(p).popped == [a];
  }

  /** The shortest healing run: in the stale ring a `front` would be wrong, but the producer
      publishes once more, and when that was taken the cache has been lapped and the next
      `front` rightly finds the queue empty. */
  lemma LappingHeals<T>(a: T, b: T)
    ensures var q := Step(Step(Step(Step(StaleRing(a), Push(b)).s, PNext).s, PNext).s, PNext).s;
            var u := Step(Step(Step(q, Front).s, Pop).s, CNext).s;
            && Abs(q) == [b] && Step(q, Front).e == Saw(Some(b))
            && Abs(u) == [] && Step(Step(u, Front).s, CNext).e == Empty
  {
    var q := Step(Step(Step(Step(StaleRing(a), Push(b)).s, PNext).s, PNext).s, PNext).s;
    assert q == State(2, [None, Some(b)], 0, 1, 1, 0, PIdle, CIdle, [a, b], [a], 1, 0);
    var u := Step(Step(Step(q, Front).s, Pop).s, CNext).s;
    assert u == State(2, [None, None], 0, 1, 0, 0, PIdle, CIdle, [a, b], [a, b], 1, 0);
  }
}
