/** The queue as an object whose methods run one at a time, and each method as a schedule. */
module SpscRing {
  import opened Wrappers
  import opened Wrapping
  import opened SpscQueue
  import opened SpscRuns

  /** The reload of the read index. */
  function Reloaded<T>(s: State<T>): State<T> {
    s.(readIdxCache := s.readIdx, rcAt := |s.popped|)
  }

  /** The value constructed in the current slot, and the slot published. */
  function Built<T>(s: State<T>, v: T, next: nat): State<T>
    requires s.writeIdx < |s.slots|
  {
    s.(slots := s.slots[s.writeIdx := Some(v)], writeIdx := next, pushed := s.pushed + [v])
  }

  lemma TryEmplacedIs<T>(s: State<T>, v: T)
    requires Shape(s)
    ensures var next := Succ(s.writeIdx, s.n);
            && (next != s.readIdxCache ==> TryEmplaced(s, v) == Built(s, v, next))
            && (next == s.readIdxCache && next != s.readIdx ==> TryEmplaced(s, v) == Built(Reloaded(s), v, next))
            && (next == s.readIdxCache && next == s.readIdx ==> TryEmplaced(s, v) == Reloaded(s))
  {
  }

  /** When the cache does not report a full ring there is room. */
  lemma CachedFullIsFull<T>(s: State<T>)
    requires Inv(s)
    ensures Shape(s)
    ensures Succ(s.writeIdx, s.n) != s.readIdxCache ==> |Abs(s)| < s.n - 1
  {
    FullTest(|s.pushed|, s.rcAt, s.n);
  }

  /** Result of the whole of `try_emplace`, including the refresh of a stale cache. */
  function TryEmplaced<T>(s: State<T>, v: T): State<T>
    requires Shape(s)
  {
    var next := Succ(s.writeIdx, s.n);
    var s1 := if next == s.readIdxCache then s.(readIdxCache := s.readIdx, rcAt := |s.popped|) else s;
    if next == s1.readIdxCache then s1
    else s1.(slots := s.slots[s.writeIdx := Some(v)], writeIdx := next, pushed := s.pushed + [v])
  }

  /** Result of the whole of `front`. */
  function Fronted<T>(s: State<T>): State<T>
    requires Shape(s)
  {
    var s1 := if s.readIdx == s.writeIdxCache then s.(writeIdxCache := s.writeIdx, wcAt := |s.pushed|) else s;
    s1.(cons := if s.readIdx == s1.writeIdxCache then CIdle else CHeld)
  }

  /** Result of the whole of `pop` of a live slot. */
  function Popped<T>(s: State<T>): State<T>
    requires Shape(s) && s.slots[s.readIdx].Some?
  {
    s.(slots := s.slots[s.readIdx := None],
       readIdx := Succ(s.readIdx, s.n),
       popped := s.popped + [s.slots[s.readIdx].value],
       cons := CIdle)
  }

  /** The atomic steps that one undisturbed `try_emplace` takes. */
  function TryEmplaceSteps<T>(s: State<T>, v: T): seq<Action<T>>
    requires Shape(s)
  {
    var next := Succ(s.writeIdx, s.n);
    if next != s.readIdxCache then [TryPush(v), PNext, PNext]
    else if next != s.readIdx then [TryPush(v), PNext, PNext, PNext]
    else [TryPush(v), PNext]
  }

  function FrontSteps<T>(s: State<T>): seq<Action<T>> {
    if s.readIdx == s.writeIdxCache then [Front, CNext] else [Front]
  }

  lemma {:induction false} RunSplit<T>(s: State<T>, a: seq<Action<T>>, b: seq<Action<T>>)
    requires Shape(s)
    ensures Run(s, a + b).s == Run(Run(s, a).s, b).s
    decreases |a|
  {
    hide Step;
    if |a| == 0 {
      assert a + b == b;
    } else {
      RunSplit(Step(s, a[0]).s, a[1..], b);
      assert (a + b)[0] == a[0] && (a + b)[1..] == a[1..] + b;
    }
  }

  lemma RunOne<T>(s: State<T>, a: Action<T>)
    requires Shape(s)
    ensures Run(s, [a]).s == Step(s, a).s
  {
    hide Step;
    assert Run(Step(s, a).s, [a][1..]).s == Step(s, a).s;
  }

  lemma RunTwo<T>(s: State<T>, a: Action<T>, b: Action<T>)
    requires Shape(s)
    ensures Run(s, [a, b]).s == Step(Step(s, a).s, b).s
  {
    hide Step;
    assert [a, b] == [a] + [b];
    RunSplit(s, [a], [b]);
    RunOne(s, a);
    RunOne(Step(s, a).s, b);
  }

  /** The states an undisturbed `try_emplace` passes through. */
  lemma TryEmplaceStates<T>(s: State<T>, v: T)
    requires Inv(s) && s.prod.PIdle?
    ensures var s1 := Step(s, TryPush(v)).s;
            var s2 := Step(s1, PNext).s;
            var s3 := Step(s2, PNext).s;
            TryEmplaced(s, v) == match |TryEmplaceSteps(s, v)| case 2 => s2 case 3 => s3 case _ => Step(s3, PNext).s
  {
    hide Inv;
  }

  lemma TryEmplaceIsSchedule<T>(s: State<T>, v: T)
    requires Inv(s) && s.prod.PIdle?
    ensures Run(s, TryEmplaceSteps(s, v)).s == TryEmplaced(s, v)
    ensures Disciplined(TryEmplaceSteps(s, v))
  {
    TryEmplaceStates(s, v);
    hide Step, Run, Inv, TryEmplaced;
    var acts := TryEmplaceSteps(s, v);
    var s1 := Step(s, TryPush(v)).s;
    var s2 := Step(s1, PNext).s;
    RunTwo(s, TryPush(v), PNext);
    if |acts| == 3 {
      RunOne(s2, PNext);
      RunSplit(s, [TryPush(v), PNext], [PNext]);
      assert acts == [TryPush(v), PNext] + [PNext];
    } else if |acts| == 4 {
      RunTwo(s2, PNext, PNext);
      RunSplit(s, [TryPush(v), PNext], [PNext, PNext]);
      assert acts == [TryPush(v), PNext] + [PNext, PNext];
    }
  }

  lemma FrontStates<T>(s: State<T>)
    requires Shape(s) && (s.cons.CIdle? || s.cons.CHeld?)
    ensures Fronted(s) == if |FrontSteps(s)| == 1 then Step(s, Front).s else Step(Step(s, Front).s, CNext).s
  {
  }

  lemma FrontIsSchedule<T>(s: State<T>)
    requires Inv(s) && (s.cons.CIdle? || s.cons.CHeld?)
    ensures Run(s, FrontSteps(s)).s == Fronted(s)
  {
    FrontStates(s);
    hide Run, Inv, Step, Fronted;
    if |FrontSteps(s)| == 1 {
      RunOne(s, Front);
    } else {
      RunTwo(s, Front, CNext);
    }
  }

  lemma PopStates<T>(s: State<T>)
    requires Shape(s) && s.cons.CHeld? && s.slots[s.readIdx].Some?
    ensures Popped(s) == Step(Step(s, Pop).s, CNext).s
  {
  }

  lemma PopIsSchedule<T>(s: State<T>)
    requires Inv(s) && s.cons.CHeld? && s.slots[s.readIdx].Some?
    ensures Run(s, [Pop, CNext]).s == Popped(s)
  {
    PopStates(s);
    hide Run, Inv, Step, Popped;
    RunTwo(s, Pop, CNext);
  }

  lemma TryEmplaceEffect<T>(s: State<T>, v: T)
    requires Inv(s) && s.prod.PIdle?
    ensures var t := TryEmplaced(s, v);
            && Inv(t) && t.prod.PIdle?
            && Abs(t) == (if |Abs(s)| < s.n - 1 then Abs(s) + [v] else Abs(s))
            && (Succ(s.writeIdx, s.n) == t.readIdxCache && t.pushed == s.pushed <==> |Abs(s)| == s.n - 1)
  {
    TryEmplaceIsSchedule(s, v);
    RunKeepsInv(s, TryEmplaceSteps(s, v));
    FullTest(|s.pushed|, s.rcAt, s.n);
    FullTest(|s.pushed|, |s.popped|, s.n);
  }

  lemma ExactFullTest<T>(s: State<T>)
    requires Inv(s)
    ensures Shape(s)
    ensures Succ(s.writeIdx, s.n) == s.readIdx <==> |Abs(s)| == s.n - 1
  {
    FullTest(|s.pushed|, |s.popped|, s.n);
  }

  lemma FrontEffect<T>(s: State<T>)
    requires Inv(s) && (s.cons.CIdle? || s.cons.CHeld?)
    ensures var t := Fronted(s);
            && Inv(t) && Abs(t) == Abs(s)
            && (t.cons.CHeld? <==> Abs(s) != [])
            && (Abs(s) != [] ==> t.slots[t.readIdx] == Some(Abs(s)[0]))
  {
    FrontIsSchedule(s);
    RunKeepsInv(s, FrontSteps(s));
    EmptyTest(|s.pushed|, |s.popped|, s.n);
    EmptyTest(s.wcAt, |s.popped|, s.n);
    InvIsSafe(Fronted(s));
  }

  lemma PopEffect<T>(s: State<T>)
    requires Inv(s) && s.cons.CHeld?
    ensures s.slots[s.readIdx].Some?
    ensures var t := Popped(s); Inv(t) && Abs(s) != [] && Abs(t) == Abs(s)[1..]
  {
    InvIsSafe(s);
    PopIsSchedule(s);
    RunKeepsInv(s, [Pop, CNext]);
  }

  /** The queue object. Its ghost fields are the history variables of the step model. */
  class Ring<T> {
    const capacity: nat
    const slots: array<Option<T>>
    var writeIdx: nat
    var readIdxCache: nat
    var readIdx: nat
    var writeIdxCache: nat
    ghost var pushed: seq<T>
    ghost var popped: seq<T>
    ghost var rcAt: nat
    ghost var wcAt: nat
    ghost var held: bool

    ghost function Snap(): State<T>
      reads this, slots
    {
      State(capacity, slots[..], writeIdx, readIdxCache, readIdx, writeIdxCache,
            PIdle, if held then CHeld else CIdle, pushed, popped, rcAt, wcAt)
    }

    ghost predicate Valid()
      reads this, slots
    {
      Inv(Snap())
    }

    ghost function Contents(): seq<T>
      reads this, slots
    {
      Abs(Snap())
    }

    constructor (requested: nat)
      ensures Valid() && fresh(slots) && Contents() == []
      ensures Snap() == Init(requested)
    {
      var n := requested;
      if n < 1 {
        n := 1;
      }
      n := n + 1;
      capacity := n;
      slots := new Option<T>[n](_ => None);
      writeIdx, readIdxCache, readIdx, writeIdxCache := 0, 0, 0, 0;
      pushed, popped, rcAt, wcAt, held := [], [], 0, 0, false;
      new;
      InitInv<T>(requested);
      assert slots[..] == Init<T>(requested).slots;
    }

    /** Constructs in the free slot and publishes it: the end of both push calls. */
    method Construct(v: T, nextWriteIdx: nat)
      requires writeIdx < slots.Length
      modifies slots, `writeIdx, `pushed
      ensures Snap() == Built(old(Snap()), v, nextWriteIdx)
    {
      slots[writeIdx] := Some(v);
      writeIdx, pushed := nextWriteIdx, pushed + [v];
    }

    /** The waiting loop: it reloads the read index until the ring does not look full. */
    method WaitForRoom(nextWriteIdx: nat)
      requires nextWriteIdx != readIdx
      modifies `readIdxCache, `rcAt
      ensures Snap() == if nextWriteIdx == old(readIdxCache) then Reloaded(old(Snap())) else old(Snap())
    {
      while nextWriteIdx == readIdxCache
        invariant Snap() == old(Snap()) ||
                  (nextWriteIdx == old(readIdxCache) && Snap() == Reloaded(old(Snap())))
        decreases if nextWriteIdx == readIdxCache then 1 else 0
      {
        readIdxCache, rcAt := readIdx, |popped|;
      }
    }

    /** Waits for room; with room there is at most one reload. */
    method Emplace(v: T)
      requires Valid() && |Contents()| < capacity - 1
      modifies this, slots
      ensures Valid() && Contents() == old(Contents()) + [v]
      ensures Snap() == TryEmplaced(old(Snap()), v)
    {
      ghost var s := Snap();
      TryEmplaceEffect(s, v);
      ExactFullTest(s);
      TryEmplacedIs(s, v);
      hide Inv, Abs, TryEmplaced, Built;
      var nextWriteIdx := writeIdx + 1;
      if nextWriteIdx == capacity {
        nextWriteIdx := 0;
      }
      WaitForRoom(nextWriteIdx);
      Construct(v, nextWriteIdx);
    }

    method TryEmplace(v: T) returns (ok: bool)
      requires Valid()
      modifies this, slots
      ensures Valid()
      ensures ok <==> |old(Contents())| < capacity - 1
      ensures Contents() == if ok then old(Contents()) + [v] else old(Contents())
      ensures Snap() == TryEmplaced(old(Snap()), v)
    {
      ghost var s := Snap();
      TryEmplaceEffect(s, v);
      ExactFullTest(s);
      CachedFullIsFull(s);
      TryEmplacedIs(s, v);
      hide Inv, Abs, TryEmplaced, Built;
      var nextWriteIdx := writeIdx + 1;
      if nextWriteIdx == capacity {
        nextWriteIdx := 0;
      }
      if nextWriteIdx == readIdxCache {
        readIdxCache, rcAt := readIdx, |popped|;
        assert Snap() == Reloaded(s);
        if nextWriteIdx == readIdxCache {
          return false;
        }
      }
      Construct(v, nextWriteIdx);
      return true;
    }

    /** The oldest element, or None for the null pointer. */
    method Front() returns (r: Option<T>)
      requires Valid()
      modifies this
      ensures Valid() && Contents() == old(Contents())
      ensures r == if Contents() == [] then None else Some(Contents()[0])
      ensures held <==> r.Some?
      ensures Snap() == Fronted(old(Snap()))
    {
      FrontEffect(Snap());
      ghost var s := Snap();
      if readIdx == writeIdxCache {
        writeIdxCache, wcAt := writeIdx, |pushed|;
        if writeIdxCache == readIdx {
          held := false;
          assert Snap() == Fronted(s);
          return None;
        }
      }
      held := true;
      assert Snap() == Fronted(s);
      r := slots[readIdx];
    }

    /** Releases the element that the last `Front` showed. */
    method Pop()
      requires Valid() && held
      modifies this, slots
      ensures Valid() && |old(Contents())| > 0 && Contents() == old(Contents())[1..]
    {
      PopEffect(Snap());
      ghost var s := Snap();
      ghost var v := slots[readIdx].value;
      slots[readIdx] := None;
      var nextReadIdx := readIdx + 1;
      if nextReadIdx == capacity {
        nextReadIdx := 0;
      }
      readIdx, popped, held := nextReadIdx, popped + [v], false;
      assert Snap() == Popped(s);
    }

    method Size() returns (size: nat)
      requires Valid()
      ensures size == |Contents()|
    {
      GapIsDistance(|pushed|, |popped|, capacity);
      var diff: int := writeIdx - readIdx;
      if diff < 0 {
        diff := diff + capacity;
      }
      size := diff;
    }

    method IsEmpty() returns (empty: bool)
      requires Valid()
      ensures empty <==> Contents() == []
    {
      EmptyTest(|pushed|, |popped|, capacity);
      empty := writeIdx == readIdx;
    }
  }
}
