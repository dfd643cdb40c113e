/**
 The lock-free queue as an interleaving of atomic steps: one step per load or
 store of a shared index, per construction of a slot and per destruction of a
 slot.  An action names who moves next; a sequence of actions is a schedule.
 */
module SpscQueue {
  import opened Wrappers
  import opened Wrapping

  /** Where the producing thread is. `emplace` and `try_emplace` share all but the retry. */
  datatype Producer<+T> =
    | PIdle
    | PSpin(v: T)                // emplace saw a full ring through its cache
    | PTry(v: T)                 // try_emplace saw a full ring through its cache
    | PBuild(v: T)               // room was seen: the slot is constructed next
    | PPublish(v: T)             // the slot is built: `writeIdx_` is stored next
    | PSizeOwn(w: nat)           // size(): `writeIdx_` loaded
    | PSizeOther(r: nat, at: nat) // size(): `readIdx_` loaded when the length was `at`

  /** Where the consuming thread is. `CHeld` means its last `front` was not null. */
  datatype Consumer<+T> =
    | CIdle
    | CReload
    | CHeld
    | CRelease(v: T)
    | CSizeOwn(r: nat, held: bool)            // `held`: the call came between front and pop
    | CSizeOther(w: nat, at: nat, held: bool)

  /** The fields of the queue, the two program counters and four history variables. */
  datatype State<+T> = State(
    n: nat,
    slots: seq<Option<T>>,
    writeIdx: nat,
    readIdxCache: nat,
    readIdx: nat,
    writeIdxCache: nat,
    prod: Producer<T>,
    cons: Consumer<T>,
    pushed: seq<T>,    // every value published so far
    popped: seq<T>,    // every value released so far
    rcAt: nat,         // |popped| when `readIdxCache_` was loaded
    wcAt: nat)         // |pushed| when `writeIdxCache_` was loaded

  datatype Action<+T> =
    | Push(x: T)
    | TryPush(x: T)
    | PSize(ownFirst: bool)
    | PNext
    | Front
    | Pop
    | BlindPop           // a pop with no non-null front before it
    | CSize(ownFirst: bool)
    | CNext

  /** What a step shows to the caller of the queue. */
  datatype Event<+T> =
    | Tau
    | Enq(x: T)
    | Deq(x: T)
    | Full
    | Empty
    | Saw(slot: Option<T>)
    | Sized(size: int, at: nat)

  datatype Outcome<+T> = Outcome(s: State<T>, e: Event<T>)

  predicate Shape<T>(s: State<T>) {
    && s.n >= 2
    && |s.slots| == s.n
    && s.writeIdx < s.n && s.readIdx < s.n
  }

  function Init<T>(capacity: nat): State<T> {
    var n := (if capacity < 1 then 1 else capacity) + 1;
    State(n, seq(n, _ => None), 0, 0, 0, 0, PIdle, CIdle, [], [], 0, 0)
  }

  /** The abstract queue: published and not yet released. */
  function Abs<T>(s: State<T>): seq<T> {
    if |s.popped| <= |s.pushed| then s.pushed[|s.popped|..] else []
  }

  /** One atomic step of the producer past the entry of its current call. */
  function ProducerStep<T>(s: State<T>): (o: Outcome<T>)
    requires Shape(s)
    ensures Shape(o.s) && o.s.n == s.n
  {
    var next := Succ(s.writeIdx, s.n);
    match s.prod
    case PIdle => Outcome(s, Tau)
    case PSpin(v) =>
      var s1 := s.(readIdxCache := s.readIdx, rcAt := |s.popped|);
      if next == s.readIdx then Outcome(s1, Full) else Outcome(s1.(prod := PBuild(v)), Tau)
    case PTry(v) =>
      var s1 := s.(readIdxCache := s.readIdx, rcAt := |s.popped|);
      if next == s.readIdx then Outcome(s1.(prod := PIdle), Full) else Outcome(s1.(prod := PBuild(v)), Tau)
    case PBuild(v) =>
      Outcome(s.(slots := s.slots[s.writeIdx := Some(v)], prod := PPublish(v)), Tau)
    case PPublish(v) =>
      Outcome(s.(writeIdx := next, pushed := s.pushed + [v], prod := PIdle), Enq(v))
    case PSizeOwn(w) =>
      Outcome(s.(prod := PIdle), Sized(Gap(w, s.readIdx, s.n), |Abs(s)|))
    case PSizeOther(r, at) =>
      Outcome(s.(prod := PIdle), Sized(Gap(s.writeIdx, r, s.n), at))
  }

  /** One atomic step of the consumer past the entry of its current call. */
  function ConsumerStep<T>(s: State<T>): (o: Outcome<T>)
    requires Shape(s)
    ensures Shape(o.s) && o.s.n == s.n
  {
    match s.cons
    case CIdle => Outcome(s, Tau)
    case CHeld => Outcome(s, Tau)
    case CReload =>
      var s1 := s.(writeIdxCache := s.writeIdx, wcAt := |s.pushed|);
      if s.writeIdx == s.readIdx then Outcome(s1.(cons := CIdle), Empty)
      else Outcome(s1.(cons := CHeld), Saw(s.slots[s.readIdx]))
    case CRelease(v) =>
      Outcome(s.(readIdx := Succ(s.readIdx, s.n), popped := s.popped + [v], cons := CIdle), Deq(v))
    case CSizeOwn(r, held) =>
      Outcome(s.(cons := if held then CHeld else CIdle), Sized(Gap(s.writeIdx, r, s.n), |Abs(s)|))
    case CSizeOther(w, at, held) =>
      Outcome(s.(cons := if held then CHeld else CIdle), Sized(Gap(w, s.readIdx, s.n), at))
  }

  /** `pop`: destroy the oldest slot; the store to `readIdx_` is the next step. */
  function Destroy<T>(s: State<T>): (o: Outcome<T>)
    requires Shape(s)
    ensures Shape(o.s) && o.s.n == s.n
  {
    if s.slots[s.readIdx].Some? then
      Outcome(s.(slots := s.slots[s.readIdx := None], cons := CRelease(s.slots[s.readIdx].value)), Tau)
    else
      Outcome(s, Tau)
  }

  /** One atomic step. An action its thread cannot take in `s` is skipped. */
  function Step<T>(s: State<T>, a: Action<T>): (o: Outcome<T>)
    requires Shape(s)
    ensures Shape(o.s) && o.s.n == s.n
  {
    var full := Succ(s.writeIdx, s.n) == s.readIdxCache;
    match a
    case Push(x) =>
      if s.prod.PIdle? then Outcome(s.(prod := if full then PSpin(x) else PBuild(x)), Tau)
      else Outcome(s, Tau)
    case TryPush(x) =>
      if s.prod.PIdle? then Outcome(s.(prod := if full then PTry(x) else PBuild(x)), Tau)
      else Outcome(s, Tau)
    case PSize(ownFirst) =>
      if s.prod.PIdle? then
        Outcome(s.(prod := if ownFirst then PSizeOwn(s.writeIdx) else PSizeOther(s.readIdx, |Abs(s)|)), Tau)
      else Outcome(s, Tau)
    case PNext => ProducerStep(s)
    case Front =>
      if s.cons.CIdle? || s.cons.CHeld? then
        if s.readIdx == s.writeIdxCache then Outcome(s.(cons := CReload), Tau)
        else Outcome(s.(cons := CHeld), Saw(s.slots[s.readIdx]))
      else Outcome(s, Tau)
    case Pop =>
      if s.cons.CHeld? then Destroy(s) else Outcome(s, Tau)
    case BlindPop =>
      if s.cons.CIdle? && s.writeIdx != s.readIdx then Destroy(s) else Outcome(s, Tau)
    case CSize(ownFirst) =>
      if s.cons.CIdle? || s.cons.CHeld? then
        var held := s.cons.CHeld?;
        Outcome(s.(cons := if ownFirst then CSizeOwn(s.readIdx, held) else CSizeOther(s.writeIdx, |Abs(s)|, held)), Tau)
      else Outcome(s, Tau)
    case CNext => ConsumerStep(s)
  }

  /** What holds in every state that a schedule without blind pops can reach. */
  ghost predicate Inv<T>(s: State<T>) {
    && Shape(s)
    && s.popped <= s.pushed
    && |s.pushed| - |s.popped| <= s.n - 1
    && s.writeIdx == Wrap(|s.pushed|, s.n)
    && s.readIdx == Wrap(|s.popped|, s.n)
    && CachesConservative(s)
    && ProducerOk(s)
    && ConsumerOk(s)
    && LiveSlots(s)
    && FreeSlots(s)
  }

  /** Each cache stands for a past value of the other side's counter that is safe to use. */
  ghost predicate CachesConservative<T>(s: State<T>)
    requires s.n > 0
  {
    && s.readIdxCache == Wrap(s.rcAt, s.n)
    && s.rcAt <= |s.popped|
    && |s.pushed| - s.rcAt <= s.n - 1
    && s.writeIdxCache == Wrap(s.wcAt, s.n)
    && |s.popped| <= s.wcAt <= |s.pushed|
  }

  ghost predicate ProducerOk<T>(s: State<T>)
    requires s.n > 0
  {
    match s.prod
    case PBuild(_) => |s.pushed| + 1 - s.rcAt <= s.n - 1
    case PPublish(_) => |s.pushed| + 1 - s.rcAt <= s.n - 1
    case PSizeOwn(w) => w == s.writeIdx
    case PSizeOther(r, at) =>
      |s.pushed| - |s.popped| <= at <= |s.pushed| && at <= s.n - 1 && r == Wrap(|s.pushed| - at, s.n)
    case _ => true
  }

  ghost predicate ConsumerOk<T>(s: State<T>)
    requires s.n > 0
  {
    match s.cons
    case CHeld => |s.popped| < s.wcAt
    case CRelease(v) => |s.popped| < s.wcAt && |s.popped| < |s.pushed| && v == s.pushed[|s.popped|]
    case CSizeOwn(r, held) => r == s.readIdx && (held ==> |s.popped| < s.wcAt)
    case CSizeOther(w, at, held) =>
      && (held ==> |s.popped| < s.wcAt)
      && at <= |s.pushed| - |s.popped| && at <= s.n - 1 && w == Wrap(|s.popped| + at, s.n)
    case _ => true
  }

  /** Slots of published elements hold them, except one the consumer is releasing. */
  ghost predicate LiveSlots<T>(s: State<T>)
    requires Shape(s)
  {
    forall k {:trigger Wrap(k, s.n)} :: |s.popped| <= k < |s.pushed| ==>
      Wrap(k, s.n) < s.n &&
      s.slots[Wrap(k, s.n)] == if k == |s.popped| && s.cons.CRelease? then None else Some(s.pushed[k])
  }

  /** All other slots are destroyed, except one the producer has just built. */
  ghost predicate FreeSlots<T>(s: State<T>)
    requires Shape(s)
  {
    forall k {:trigger Wrap(k, s.n)} :: |s.pushed| <= k < |s.popped| + s.n ==>
      Wrap(k, s.n) < s.n &&
      s.slots[Wrap(k, s.n)] == if k == |s.pushed| && s.prod.PPublish? then Some(s.prod.v) else None
  }

  /** The specification: which events a FIFO of at most `cap` elements may show. */
  predicate FifoAllows<T(==)>(q: seq<T>, e: Event<T>, cap: nat) {
    match e
    case Tau => true
    case Enq(_) => |q| < cap
    case Deq(x) => |q| > 0 && q[0] == x
    case Full => |q| == cap
    case Empty => |q| == 0
    case Saw(slot) => |q| > 0 && slot == Some(q[0])
    case Sized(size, at) => size == at
  }

  /** The contents of the FIFO after an event. */
  function FifoAfter<T>(q: seq<T>, e: Event<T>): seq<T> {
    match e
    case Enq(x) => q + [x]
    case Deq(_) => if |q| > 0 then q[1..] else q
    case _ => q
  }

  lemma InitInv<T>(capacity: nat)
    ensures Inv(Init<T>(capacity)) && Abs(Init<T>(capacity)) == []
  {
    var s := Init<T>(capacity);
    assert Wrap(0, s.n) == 0;
    forall k {:trigger Wrap(k, s.n)} | |s.pushed| <= k < |s.popped| + s.n ensures Wrap(k, s.n) < s.n
    {
    }
  }

  /** The cached full test and the exact full test agree with the counters. */
  lemma FullTest(w: nat, r: nat, n: nat)
    requires n >= 2 && r <= w && w - r <= n - 1
    ensures Succ(Wrap(w, n), n) == Wrap(r, n) <==> w - r == n - 1
  {
    WrapStep(w, n);
    if w - r == n - 1 {
      WrapPeriod(r, n);
    } else {
      WrapInjective(r, w + 1, n);
    }
  }

  lemma EmptyTest(w: nat, r: nat, n: nat)
    requires n >= 2 && r <= w && w - r <= n - 1
    ensures Wrap(w, n) == Wrap(r, n) <==> w == r
  {
    if w != r {
      WrapInjective(r, w, n);
    }
  }

  /** Steps that touch no slot and neither counter leave the slots in order. */
  lemma SlotsFrame<T>(s: State<T>, t: State<T>)
    requires Inv(s) && Shape(t)
    requires t.n == s.n && t.slots == s.slots && t.pushed == s.pushed && t.popped == s.popped
    requires t.cons == s.cons || (!t.cons.CRelease? && !s.cons.CRelease?)
    requires t.prod == s.prod || (!t.prod.PPublish? && !s.prod.PPublish?)
    ensures LiveSlots(t) && FreeSlots(t)
  {
    forall k {:trigger Wrap(k, t.n)} | |t.popped| <= k < |t.pushed|
      ensures Wrap(k, t.n) < t.n
      ensures t.slots[Wrap(k, t.n)] == if k == |t.popped| && t.cons.CRelease? then None else Some(t.pushed[k])
    {
    }
    forall k {:trigger Wrap(k, t.n)} | |t.pushed| <= k < |t.popped| + t.n
      ensures Wrap(k, t.n) < t.n
      ensures t.slots[Wrap(k, t.n)] == if k == |t.pushed| && t.prod.PPublish? then Some(t.prod.v) else None
    {
    }
  }

  lemma ProducerRefines<T>(s: State<T>)
    requires Inv(s)
    ensures var o := ProducerStep(s);
            Inv(o.s) && FifoAllows(Abs(s), o.e, s.n - 1) && Abs(o.s) == FifoAfter(Abs(s), o.e)
  {
    match s.prod
    case PIdle =>
    case PSpin(_) => ReloadRefines(s);
    case PTry(_) => ReloadRefines(s);
    case PBuild(_) => BuildKeepsInv(s);
    case PPublish(_) => PublishKeepsInv(s);
    case PSizeOwn(_) => ProducerSizeExact(s);
    case PSizeOther(_, _) => ProducerSizeExact(s);
  }

  /** The reload of the read index: the full test that follows it is exact. */
  lemma ReloadRefines<T>(s: State<T>)
    requires Inv(s) && (s.prod.PSpin? || s.prod.PTry?)
    ensures var o := ProducerStep(s);
            && Inv(o.s) && Abs(o.s) == Abs(s)
            && o.e == (if |Abs(s)| == s.n - 1 then Full else Tau)
  {
    FullTest(|s.pushed|, |s.popped|, s.n);
    SlotsFrame(s, ProducerStep(s).s);
  }

  lemma ProducerSizeExact<T>(s: State<T>)
    requires Inv(s) && (s.prod.PSizeOwn? || s.prod.PSizeOther?)
    ensures var o := ProducerStep(s);
            && Inv(o.s) && Abs(o.s) == Abs(s)
            && o.e.Sized? && o.e.size == o.e.at
            && (s.prod.PSizeOwn? ==> o.e.at == |Abs(s)|)
  {
    ProducerGap(s);
    SlotsFrame(s, ProducerStep(s).s);
    hide Gap, LiveSlots, FreeSlots, Wrap, Succ;
  }

  /** The difference that size() computes from the two indices it has. */
  lemma ProducerGap<T>(s: State<T>)
    requires Inv(s)
    ensures s.prod.PSizeOwn? ==> Gap(s.prod.w, s.readIdx, s.n) == |Abs(s)|
    ensures s.prod.PSizeOther? ==> Gap(s.writeIdx, s.prod.r, s.n) == s.prod.at
  {
    var w, r, n := |s.pushed|, |s.popped|, s.n;
    if s.prod.PSizeOwn? {
      GapIsDistance(w, r, n);
    } else if s.prod.PSizeOther? {
      GapIsDistance(w, w - s.prod.at, n);
    }
    hide Gap, LiveSlots, FreeSlots, CachesConservative, ConsumerOk;
  }

  lemma BuildKeepsInv<T>(s: State<T>)
    requires Inv(s) && s.prod.PBuild?
    ensures Inv(ProducerStep(s).s)
    ensures s.slots[s.writeIdx] == None
  {
    var w, n := |s.pushed|, s.n;
    var t := ProducerStep(s).s;
    forall k {:trigger Wrap(k, n)} | |s.popped| <= k < |s.popped| + n && k != w
      ensures Wrap(k, n) != s.writeIdx
    {
      if k < w { WrapInjective(k, w, n); } else { WrapInjective(w, k, n); }
    }
    assert LiveSlots(t);
    assert FreeSlots(t);
  }

  lemma PublishKeepsInv<T>(s: State<T>)
    requires Inv(s) && s.prod.PPublish?
    ensures var o := ProducerStep(s);
            Inv(o.s) && |Abs(s)| < s.n - 1 && Abs(o.s) == Abs(s) + [s.prod.v]
  {
    var t := ProducerStep(s).s;
    WrapStep(|s.pushed|, s.n);
    assert s.slots[Wrap(|s.pushed|, s.n)] == Some(s.prod.v);
    assert LiveSlots(t);
    assert FreeSlots(t);
  }

  lemma ConsumerRefines<T>(s: State<T>)
    requires Inv(s)
    ensures var o := ConsumerStep(s);
            Inv(o.s) && FifoAllows(Abs(s), o.e, s.n - 1) && Abs(o.s) == FifoAfter(Abs(s), o.e)
  {
    match s.cons
    case CIdle =>
    case CHeld =>
    case CReload => RefillRefines(s);
    case CRelease(_) => ReleaseKeepsInv(s);
    case CSizeOwn(_, _) => ConsumerSizeExact(s);
    case CSizeOther(_, _, _) => ConsumerSizeExact(s);
  }

  /** The reload of the write index: the empty test that follows it is exact. */
  lemma RefillRefines<T>(s: State<T>)
    requires Inv(s) && s.cons.CReload?
    ensures var o := ConsumerStep(s);
            && Inv(o.s) && Abs(o.s) == Abs(s)
            && o.e == (if Abs(s) == [] then Empty else Saw(Some(Abs(s)[0])))
  {
    EmptyTest(|s.pushed|, |s.popped|, s.n);
    SlotsFrame(s, ConsumerStep(s).s);
    assert |s.popped| < |s.pushed| ==> s.slots[Wrap(|s.popped|, s.n)] == Some(s.pushed[|s.popped|]);
  }

  lemma ConsumerSizeExact<T>(s: State<T>)
    requires Inv(s) && (s.cons.CSizeOwn? || s.cons.CSizeOther?)
    ensures var o := ConsumerStep(s);
            && Inv(o.s) && Abs(o.s) == Abs(s)
            && o.e.Sized? && o.e.size == o.e.at
            && (s.cons.CSizeOwn? ==> o.e.at == |Abs(s)|)
  {
    ConsumerGap(s);
    SlotsFrame(s, ConsumerStep(s).s);
    hide Gap, LiveSlots, FreeSlots, Wrap, Succ;
  }

  lemma ConsumerGap<T>(s: State<T>)
    requires Inv(s)
    ensures s.cons.CSizeOwn? ==> Gap(s.writeIdx, s.cons.r, s.n) == |Abs(s)|
    ensures s.cons.CSizeOther? ==> Gap(s.cons.w, s.readIdx, s.n) == s.cons.at
  {
    var w, r, n := |s.pushed|, |s.popped|, s.n;
    if s.cons.CSizeOwn? {
      GapIsDistance(w, r, n);
    } else if s.cons.CSizeOther? {
      GapIsDistance(r + s.cons.at, r, n);
    }
    hide Gap, LiveSlots, FreeSlots, CachesConservative, ProducerOk;
  }

  lemma ReleaseKeepsInv<T>(s: State<T>)
    requires Inv(s) && s.cons.CRelease?
    ensures var o := ConsumerStep(s);
            Inv(o.s) && |Abs(s)| > 0 && Abs(s)[0] == s.cons.v && Abs(o.s) == Abs(s)[1..]
  {
    var r, n := |s.popped|, s.n;
    var t := ConsumerStep(s).s;
    WrapStep(r, n);
    WrapPeriod(r, n);
    assert s.slots[Wrap(r, n)] == None;
    assert LiveSlots(t);
    assert FreeSlots(t);
  }

  lemma DestroyKeepsInv<T>(s: State<T>)
    requires Inv(s) && s.cons.CHeld?
    ensures var o := Destroy(s);
            Inv(o.s) && o.s.cons == CRelease(s.pushed[|s.popped|]) && Abs(o.s) == Abs(s) && o.e == Tau
  {
    var r, n := |s.popped|, s.n;
    var t := Destroy(s).s;
    assert s.slots[Wrap(r, n)] == Some(s.pushed[r]);
    forall k {:trigger Wrap(k, n)} | r < k < r + n
      ensures Wrap(k, n) != s.readIdx
    {
      WrapInjective(r, k, n);
    }
    assert LiveSlots(t);
    assert FreeSlots(t);
  }

  /** Entering emplace or try_emplace: the cached full test errs on the safe side only. */
  lemma PushRefines<T>(s: State<T>, a: Action<T>)
    requires Inv(s) && (a.Push? || a.TryPush?)
    ensures var o := Step(s, a);
            Inv(o.s) && Abs(o.s) == Abs(s) && o.e == Tau
  {
    FullTest(|s.pushed|, s.rcAt, s.n);
    SlotsFrame(s, Step(s, a).s);
  }

  /** Entering front: the cached empty test errs on the safe side only. */
  lemma FrontRefines<T>(s: State<T>)
    requires Inv(s)
    ensures var o := Step(s, Front);
            && Inv(o.s) && Abs(o.s) == Abs(s)
            && (o.e == Tau || (Abs(s) != [] && o.e == Saw(Some(Abs(s)[0]))))
  {
    var w, r := |s.pushed|, |s.popped|;
    EmptyTest(s.wcAt, r, s.n);
    SlotsFrame(s, Step(s, Front).s);
    assert r < w && !s.cons.CRelease? ==> s.slots[Wrap(r, s.n)] == Some(s.pushed[r]);
  }

  lemma ProducerSizeEntry<T>(s: State<T>, ownFirst: bool)
    requires Inv(s)
    ensures var o := Step(s, PSize(ownFirst)); Inv(o.s) && Abs(o.s) == Abs(s) && o.e == Tau
  {
    hide LiveSlots, FreeSlots, Succ;
    SlotsFrame(s, Step(s, PSize(ownFirst)).s);
  }

  lemma ConsumerSizeEntry<T>(s: State<T>, ownFirst: bool)
    requires Inv(s)
    ensures var o := Step(s, CSize(ownFirst)); Inv(o.s) && Abs(o.s) == Abs(s) && o.e == Tau
  {
    hide LiveSlots, FreeSlots, Succ;
    SlotsFrame(s, Step(s, CSize(ownFirst)).s);
  }

  lemma SizeEntryRefines<T>(s: State<T>, a: Action<T>)
    requires Inv(s) && (a.PSize? || a.CSize?)
    ensures var o := Step(s, a);
            Inv(o.s) && Abs(o.s) == Abs(s) && o.e == Tau
  {
    if a.PSize? {
      ProducerSizeEntry(s, a.ownFirst);
    } else {
      ConsumerSizeEntry(s, a.ownFirst);
    }
    hide Inv, Abs, Step;
  }

  /** Every single step keeps the invariant and is a move of the bounded FIFO. */
  lemma StepRefines<T>(s: State<T>, a: Action<T>)
    requires Inv(s) && !a.BlindPop?
    ensures var o := Step(s, a);
            && Inv(o.s) && o.s.n == s.n
            && FifoAllows(Abs(s), o.e, s.n - 1) && Abs(o.s) == FifoAfter(Abs(s), o.e)
  {
    match a
    case PNext => ProducerRefines(s);
    case Pop => if s.cons.CHeld? { DestroyKeepsInv(s); }
    case CNext => ConsumerRefines(s);
    case Front => FrontRefines(s);
    case Push(_) => PushRefines(s, a);
    case TryPush(_) => PushRefines(s, a);
    case _ => SizeEntryRefines(s, a);
  }
}
