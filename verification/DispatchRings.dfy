/** The client broker's loop on its two lock-free rings, one atomic step at a time. */
module DispatchRings {
  import opened Wrappers
  import opened SlotStats
  import opened SpscQueue
  import opened SpscRuns
  import opened Dispatch

  /** Where the broker is: at one of the two looks of the guard, reading a head, calling
      `front` for the message it takes, or in `pop`. */
  datatype Pc = GuardRx | GuardTx | LoadRx | LoadTx(rxTs: nat) | Taking(dir: Direction) | Popping(dir: Direction)

  /** `fault` is set when a head that the broker uses is null or destroyed, `idle` when it
      saw two zero times and goes around without taking anything. */
  datatype System = System(
    rx: State<Msg>,
    tx: State<Msg>,
    pc: Pc,
    processed: seq<Msg>,
    fault: bool,
    idle: bool)

  /** One atomic step of a producing thread, or of the broker. */
  datatype Move =
    | RxPush(m: Msg)
    | RxNext
    | TxPush(m: Msg)
    | TxNext
    | Broker

  const RING_CAPACITY: nat := 128_000

  function Begin(): System {
    System(Init(RING_CAPACITY), Init(RING_CAPACITY), GuardRx, [], false, false)
  }

  /** One atomic step of a call of `front`. */
  function FrontStep(q: State<Msg>): (o: Outcome<Msg>)
    requires Shape(q)
    ensures Shape(o.s)
  {
    if q.cons.CReload? then Step(q, CNext) else Step(q, Front)
  }

  /** One atomic step of a call of `pop`. */
  function PopStep(q: State<Msg>): (o: Outcome<Msg>)
    requires Shape(q)
    ensures Shape(o.s)
  {
    if q.cons.CHeld? then Step(q, Pop) else Step(q, CNext)
  }

  /** The choice once both heads were read. */
  function Chosen(rxTs: nat, txTs: nat): Pc {
    if TakesTx(rxTs, txTs) then Taking(Tx)
    else if TakesRx(rxTs, txTs) then Taking(Rx)
    else GuardRx
  }

  function AfterFront(s: System, e: Event<Msg>): System {
    match s.pc
    case GuardRx => s.(pc := if e.Saw? then LoadRx else if e.Empty? then GuardTx else GuardRx)
    case GuardTx => s.(pc := if e.Saw? then LoadRx else if e.Empty? then GuardRx else GuardTx)
    case LoadRx =>
      if e.Saw? then (if e.slot.Some? then s.(pc := LoadTx(e.slot.value.ts)) else s.(fault := true))
      else if e.Empty? then s.(pc := LoadTx(0))
      else s
    case LoadTx(rxTs) =>
      if e.Saw? && e.slot.None? then s.(fault := true)
      else if e.Saw? || e.Empty? then
        var txTs := if e.Saw? then e.slot.value.ts else 0;
        s.(pc := Chosen(rxTs, txTs), idle := s.idle || Idles(rxTs, txTs))
      else s
    case Taking(dir) =>
      if e.Saw? && e.slot.Some? then s.(pc := Popping(dir), processed := s.processed + [e.slot.value])
      else if e.Tau? then s
      else s.(fault := true)
    case Popping(_) => s
  }

  /** The queue that the broker's next step works on. */
  function Side(pc: Pc): Direction {
    match pc
    case GuardRx => Rx
    case LoadRx => Rx
    case GuardTx => Tx
    case LoadTx(_) => Tx
    case Taking(dir) => dir
    case Popping(dir) => dir
  }

  function Queue(s: System, dir: Direction): State<Msg> {
    if dir.Rx? then s.rx else s.tx
  }

  function WithQueue(s: System, dir: Direction, q: State<Msg>): System {
    if dir.Rx? then s.(rx := q) else s.(tx := q)
  }

  function BrokerStep(s: System): (t: System)
    requires Shape(s.rx) && Shape(s.tx)
    ensures Shape(t.rx) && Shape(t.tx)
  {
    var dir := Side(s.pc);
    if s.pc.Popping? then
      var o := PopStep(Queue(s, dir));
      WithQueue(s, dir, o.s).(pc := if o.e.Deq? then GuardRx else s.pc)
    else
      var o := FrontStep(Queue(s, dir));
      AfterFront(WithQueue(s, dir, o.s), o.e)
  }

  function Take(s: System, m: Move): (t: System)
    requires Shape(s.rx) && Shape(s.tx)
    ensures Shape(t.rx) && Shape(t.tx)
  {
    match m
    case RxPush(x) => s.(rx := Step(s.rx, Push(x)).s)
    case RxNext => s.(rx := Step(s.rx, PNext).s)
    case TxPush(x) => s.(tx := Step(s.tx, Push(x)).s)
    case TxNext => s.(tx := Step(s.tx, PNext).s)
    case Broker => BrokerStep(s)
  }

  function Travel(s: System, moves: seq<Move>): (t: System)
    requires Shape(s.rx) && Shape(s.tx)
    ensures Shape(t.rx) && Shape(t.tx)
    decreases |moves|
  {
    if |moves| == 0 then s else Travel(Take(s, moves[0]), moves[1..])
  }

  predicate ProperMove(m: Move) {
    && (m.RxPush? ==> m.m.dir.Rx? && m.m.ts > 0)
    && (m.TxPush? ==> m.m.dir.Tx? && m.m.ts > 0)
  }

  // What holds in every reachable state

  predicate Looks(pc: Pc, dir: Direction) {
    Side(pc) == dir && !pc.Popping?
  }

  function Pending(q: State<Msg>): seq<Msg> {
    if q.prod.PIdle? || q.prod.PSizeOwn? || q.prod.PSizeOther? then [] else [q.prod.v]
  }

  /** The message that was processed and is still in the ring. */
  function InHand(q: State<Msg>, dir: Direction, pc: Pc): seq<Msg> {
    if pc == Popping(dir) && |Abs(q)| > 0 then [Abs(q)[0]] else []
  }

  ghost predicate QueueOk(q: State<Msg>, dir: Direction, pc: Pc, processed: seq<Msg>) {
    && Inv(q)
    && Proper(q.pushed, dir) && Proper(Pending(q), dir)
    && !q.cons.CSizeOwn? && !q.cons.CSizeOther?
    && (q.cons.CReload? ==> Looks(pc, dir))
    && (q.cons.CRelease? ==> pc == Popping(dir))
    && (pc == Popping(dir) ==> q.cons.CHeld? || q.cons.CRelease?)
    && Of(processed, dir) == q.popped + InHand(q, dir, pc)
  }

  /** What the broker has seen stays true until it acts on it. */
  ghost predicate SeenOk(s: System) {
    match s.pc
    case LoadRx => Abs(s.rx) != [] || Abs(s.tx) != []
    case LoadTx(rxTs) => if rxTs != 0 then Abs(s.rx) != [] && Abs(s.rx)[0].ts == rxTs else Abs(s.tx) != []
    case Taking(dir) => Abs(Queue(s, dir)) != []
    case _ => true
  }

  ghost predicate SystemOk(s: System) {
    && QueueOk(s.rx, Rx, s.pc, s.processed) && QueueOk(s.tx, Tx, s.pc, s.processed)
    && SeenOk(s) && !s.fault && !s.idle
  }

  lemma BeginOk()
    ensures SystemOk(Begin())
  {
    InitInv<Msg>(RING_CAPACITY);
    hide Inv;
    assert Init<Msg>(RING_CAPACITY).pushed == [];
  }

  /** A producer's step leaves the consumer alone and only adds at the end. */
  lemma ProducerStepOk(q: State<Msg>, a: Action<Msg>, dir: Direction, pc: Pc, processed: seq<Msg>)
    requires QueueOk(q, dir, pc, processed) && (a.PNext? || a.Push?)
    requires a.Push? ==> a.x.dir == dir && a.x.ts > 0
    ensures Shape(q)
    ensures var t := Step(q, a).s; QueueOk(t, dir, pc, processed) && Abs(q) <= Abs(t)
  {
    assert Shape(q);
    StepRefines(q, a);
    ProducerFrame(q, a, dir);
    HeadStays(Abs(q), Abs(Step(q, a).s));
    HeldNotEmpty(q);
    hide Inv, Step, Abs, Pending;
  }

  /** What a producer's step changes: at most it publishes what it was about to publish. */
  lemma ProducerChange(q: State<Msg>, a: Action<Msg>)
    requires Shape(q) && (a.PNext? || a.Push?)
    ensures var t := Step(q, a).s;
            && t.cons == q.cons && t.popped == q.popped
            && (t.pushed == q.pushed || (t.pushed == q.pushed + Pending(q) && Pending(t) == []))
            && (Pending(t) == Pending(q) || Pending(t) == [] || (a.Push? && Pending(t) == [a.x]))
  {
  }

  lemma ProducerFrame(q: State<Msg>, a: Action<Msg>, dir: Direction)
    requires Inv(q) && (a.PNext? || a.Push?)
    requires Proper(q.pushed, dir) && Proper(Pending(q), dir)
    requires a.Push? ==> a.x.dir == dir && a.x.ts > 0
    ensures Shape(q)
    ensures var t := Step(q, a).s;
            && t.cons == q.cons && t.popped == q.popped
            && Proper(t.pushed, dir) && Proper(Pending(t), dir)
            && Abs(q) <= Abs(t)
  {
    assert Shape(q) && q.popped <= q.pushed;
    ProducerChange(q, a);
    hide Inv, Step, Pending;
    assert q.pushed <= q.pushed + Pending(q);
    ContentsGrow(q, Step(q, a).s);
    hide Abs;
  }

  lemma ContentsGrow(q: State<Msg>, t: State<Msg>)
    requires q.popped <= q.pushed && t.popped == q.popped && q.pushed <= t.pushed
    ensures Abs(q) <= Abs(t)
  {
  }

  lemma HeadStays(a: seq<Msg>, b: seq<Msg>)
    ensures a <= b && |a| > 0 ==> |b| > 0 && b[0] == a[0]
  {
  }

  lemma HeldNotEmpty(q: State<Msg>)
    requires Inv(q)
    ensures q.cons.CHeld? || q.cons.CRelease? ==> |Abs(q)| > 0
  {
  }

  /** One step of `front` by the broker: it shows the head, or that there is none, or has
      to look at the other side's index first. */
  lemma FrontStepOk(q: State<Msg>)
    requires Inv(q) && (q.cons.CIdle? || q.cons.CHeld? || q.cons.CReload?)
    ensures Shape(q)
    ensures var o := FrontStep(q);
            && Inv(o.s) && Abs(o.s) == Abs(q)
            && o.s.pushed == q.pushed && o.s.popped == q.popped && o.s.prod == q.prod
            && (o.e == Tau ==> o.s.cons.CReload?)
            && (o.e.Saw? ==> o.s.cons.CHeld? && Abs(q) != [] && o.e.slot == Some(Abs(q)[0]))
            && (o.e == Empty ==> o.s.cons.CIdle? && Abs(q) == [])
            && (o.e == Tau || o.e.Saw? || o.e == Empty)
  {
    assert Shape(q);
    FrontStepChange(q);
    if q.cons.CReload? {
      RefillRefines(q);
      hide Inv, Abs, Step;
    } else {
      FrontRefines(q);
      hide Inv, Abs, Step;
    }
  }

  lemma FrontStepChange(q: State<Msg>)
    requires Shape(q) && (q.cons.CIdle? || q.cons.CHeld? || q.cons.CReload?)
    ensures var o := FrontStep(q);
            && o.s.pushed == q.pushed && o.s.popped == q.popped && o.s.prod == q.prod
            && (o.e == Tau ==> o.s.cons.CReload?)
            && (o.e.Saw? ==> o.s.cons.CHeld?)
            && (o.e == Empty ==> o.s.cons.CIdle?)
            && (q.cons.CReload? ==> o == ConsumerStep(q))
            && (o.e == Tau || o.e.Saw? || o.e == Empty)
  {
  }

  /** One step of `pop` by the broker. */
  lemma PopStepOk(q: State<Msg>)
    requires Inv(q) && (q.cons.CHeld? || q.cons.CRelease?)
    ensures Shape(q) && |Abs(q)| > 0
    ensures var o := PopStep(q);
            && Inv(o.s) && o.s.pushed == q.pushed && o.s.prod == q.prod
            && (q.cons.CHeld? ==> o.e == Tau && o.s.cons.CRelease? && o.s.popped == q.popped && Abs(o.s) == Abs(q))
            && (q.cons.CRelease? ==> o.e.Deq? && o.s.cons.CIdle? && o.s.popped == q.popped + [Abs(q)[0]])
  {
    assert Shape(q);
    HeldNotEmpty(q);
    if q.cons.CHeld? {
      DestroyKeepsInv(q);
    } else {
      ReleaseKeepsInv(q);
    }
    hide Inv, Abs;
  }

  /** The other queue, when the broker moves on elsewhere. */
  lemma OtherSide(q: State<Msg>, dir: Direction, pc: Pc, next: Pc, processed: seq<Msg>, after: seq<Msg>)
    requires QueueOk(q, dir, pc, processed) && Side(pc) != dir
    requires next != Popping(dir) && Of(after, dir) == Of(processed, dir)
    ensures QueueOk(q, dir, next, after)
  {
    hide Inv, Of, Proper;
  }

  /** The queue that `front` was called on, when nothing was processed. */
  lemma LookedAt(q: State<Msg>, t: State<Msg>, dir: Direction, pc: Pc, next: Pc, processed: seq<Msg>)
    requires QueueOk(q, dir, pc, processed) && Looks(pc, dir) && next != Popping(dir)
    requires Inv(t) && t.pushed == q.pushed && t.popped == q.popped && t.prod == q.prod
    requires t.cons.CIdle? || t.cons.CHeld? || (t.cons.CReload? && Looks(next, dir))
    ensures QueueOk(t, dir, next, processed)
  {
    hide Inv, Of, Proper;
  }

  /** The queue whose head was processed. */
  lemma Processed(q: State<Msg>, t: State<Msg>, dir: Direction, processed: seq<Msg>)
    requires QueueOk(q, dir, Taking(dir), processed) && Abs(q) != []
    requires Inv(t) && t.pushed == q.pushed && t.popped == q.popped && t.prod == q.prod && t.cons.CHeld?
    requires Abs(t) == Abs(q) && Abs(q)[0].dir == dir
    ensures QueueOk(t, dir, Popping(dir), processed + [Abs(q)[0]])
  {
    OfOneMore(processed, Abs(q)[0], dir);
    hide Inv, Of, Proper, Abs;
    assert q.popped + [] == q.popped;
  }

  lemma HeadProper(q: State<Msg>, dir: Direction)
    requires Inv(q) && Proper(q.pushed, dir) && Abs(q) != []
    ensures Abs(q)[0].dir == dir && Abs(q)[0].ts > 0
  {
    assert Abs(q)[0] == q.pushed[|q.popped|];
  }

  /** Both queues after a step of `front` that processed nothing. */
  lemma FrontKeepsQueues(s: System, t: System, dir: Direction)
    requires QueueOk(s.rx, Rx, s.pc, s.processed) && QueueOk(s.tx, Tx, s.pc, s.processed)
    requires Looks(s.pc, dir) && !t.pc.Popping? && t.processed == s.processed
    requires Queue(t, if dir.Rx? then Tx else Rx) == Queue(s, if dir.Rx? then Tx else Rx)
    requires var q, r := Queue(s, dir), Queue(t, dir);
             && Inv(r) && r.pushed == q.pushed && r.popped == q.popped && r.prod == q.prod
             && (r.cons.CIdle? || r.cons.CHeld? || (r.cons.CReload? && Looks(t.pc, dir)))
    ensures QueueOk(t.rx, Rx, t.pc, t.processed) && QueueOk(t.tx, Tx, t.pc, t.processed)
  {
    LookedAt(Queue(s, dir), Queue(t, dir), dir, s.pc, t.pc, s.processed);
    var other := if dir.Rx? then Tx else Rx;
    OtherSide(Queue(s, other), other, s.pc, t.pc, s.processed, s.processed);
    hide QueueOk, Inv;
  }

  /** What a call of `front` needs from the invariant of its queue. */
  ghost predicate QueueFront(q: State<Msg>, dir: Direction) {
    Inv(q) && Proper(q.pushed, dir) && (q.cons.CIdle? || q.cons.CHeld? || q.cons.CReload?)
  }

  /** A look of the guard, or the read of the received head, on the queue it is made on. */
  lemma LookSeen(s: System, o: Outcome<Msg>)
    requires (s.pc.GuardRx? || s.pc.GuardTx? || s.pc.LoadRx?) && SeenOk(s) && !s.fault && !s.idle
    requires var q := Queue(s, Side(s.pc));
             && (o.e.Saw? ==> Abs(q) != [] && o.e.slot == Some(Abs(q)[0]) && Abs(q)[0].ts > 0)
             && (o.e == Empty ==> Abs(q) == [])
             && (o.e == Tau || o.e.Saw? || o.e == Empty) && Abs(o.s) == Abs(q)
    ensures var t := AfterFront(WithQueue(s, Side(s.pc), o.s), o.e);
            && SeenOk(t) && !t.fault && !t.idle
            && t.processed == s.processed && !t.pc.Popping? && (o.e == Tau ==> t.pc == s.pc)
            && t.rx == WithQueue(s, Side(s.pc), o.s).rx && t.tx == WithQueue(s, Side(s.pc), o.s).tx
  {
    hide Abs;
  }

  lemma LookOk(s: System)
    requires SystemOk(s) && (s.pc.GuardRx? || s.pc.GuardTx? || s.pc.LoadRx?)
    ensures Shape(s.rx) && Shape(s.tx) && SystemOk(BrokerStep(s))
  {
    var dir := Side(s.pc);
    var q := Queue(s, dir);
    assert Shape(s.rx) && Shape(s.tx) && QueueFront(q, dir);
    hide Inv, Of, Proper, Abs, QueueOk, SeenOk, FrontStep, AfterFront, Shape;
    var o := FrontStep(q);
    FrontStepOk(q);
    if Abs(q) != [] {
      HeadProper(q, dir);
    }
    LookSeen(s, o);
    var t := AfterFront(WithQueue(s, dir, o.s), o.e);
    assert BrokerStep(s) == t;
    hide BrokerStep;
    FrontKeepsQueues(s, t, dir);
  }

  /** With some positive time there is a choice, and it falls on a queue with a head. */
  lemma ChosenOk(rxTs: nat, txTs: nat)
    requires rxTs != 0 || txTs != 0
    ensures !Idles(rxTs, txTs)
    ensures Chosen(rxTs, txTs) == Taking(Tx) || Chosen(rxTs, txTs) == Taking(Rx)
    ensures Chosen(rxTs, txTs) == Taking(Tx) ==> txTs > rxTs
    ensures Chosen(rxTs, txTs) == Taking(Rx) ==> rxTs >= txTs && rxTs != 0
  {
    ExactlyOneTaken(rxTs, txTs);
  }

  /** After the sent head was read there is a choice, of a queue that has a head. */
  lemma LoadTxSeen(s: System, o: Outcome<Msg>)
    requires s.pc.LoadTx? && SeenOk(s) && !s.fault && !s.idle
    requires o.e.Saw? ==> Abs(s.tx) != [] && o.e.slot == Some(Abs(s.tx)[0]) && Abs(s.tx)[0].ts > 0
    requires o.e == Empty ==> Abs(s.tx) == []
    requires (o.e == Tau || o.e.Saw? || o.e == Empty) && Abs(o.s) == Abs(s.tx)
    ensures var t := AfterFront(s.(tx := o.s), o.e);
            && SeenOk(t) && !t.fault && !t.idle
            && t.rx == s.rx && t.tx == o.s && t.processed == s.processed
            && (if o.e == Tau then t.pc == s.pc else t.pc.Taking?)
  {
    hide Abs, Chosen, Idles;
    if o.e.Saw? {
      ChosenOk(s.pc.rxTs, o.e.slot.value.ts);
    } else if o.e == Empty {
      ChosenOk(s.pc.rxTs, 0);
    }
  }

  lemma LoadTxQueues(s: System, q: State<Msg>, next: Pc)
    requires QueueOk(s.rx, Rx, s.pc, s.processed) && QueueOk(s.tx, Tx, s.pc, s.processed) && s.pc.LoadTx?
    requires Inv(q) && q.pushed == s.tx.pushed && q.popped == s.tx.popped && q.prod == s.tx.prod
    requires if q.cons.CReload? then next == s.pc else next.Taking? && (q.cons.CIdle? || q.cons.CHeld?)
    ensures QueueOk(s.rx, Rx, next, s.processed) && QueueOk(q, Tx, next, s.processed)
  {
    LookedAt(s.tx, q, Tx, s.pc, next, s.processed);
    OtherSide(s.rx, Rx, s.pc, next, s.processed, s.processed);
    hide QueueOk, Inv;
  }

  lemma LoadTxStep(s: System)
    requires Shape(s.rx) && Shape(s.tx) && s.pc.LoadTx?
    ensures var o := FrontStep(s.tx); BrokerStep(s) == AfterFront(s.(tx := o.s), o.e)
  {
    hide FrontStep, AfterFront;
  }

  lemma LoadTxOk(s: System)
    requires SystemOk(s) && s.pc.LoadTx?
    ensures Shape(s.rx) && Shape(s.tx) && SystemOk(BrokerStep(s))
  {
    assert Shape(s.rx) && Shape(s.tx) && QueueFront(s.tx, Tx);
    hide Inv, Of, Proper, Abs, QueueOk, SeenOk, FrontStep, AfterFront, BrokerStep, Shape;
    var o := FrontStep(s.tx);
    FrontStepOk(s.tx);
    if Abs(s.tx) != [] {
      HeadProper(s.tx, Tx);
    }
    LoadTxSeen(s, o);
    LoadTxStep(s);
    LoadTxQueues(s, o.s, AfterFront(s.(tx := o.s), o.e).pc);
  }

  function Other(dir: Direction): Direction {
    if dir.Rx? then Tx else Rx
  }

  lemma BothSides(t: System, dir: Direction)
    requires QueueOk(Queue(t, dir), dir, t.pc, t.processed)
    requires QueueOk(Queue(t, Other(dir)), Other(dir), t.pc, t.processed)
    ensures QueueOk(t.rx, Rx, t.pc, t.processed) && QueueOk(t.tx, Tx, t.pc, t.processed)
  {
    hide QueueOk;
  }

  lemma TakingOk(s: System)
    requires SystemOk(s) && s.pc.Taking?
    ensures Shape(s.rx) && Shape(s.tx) && SystemOk(BrokerStep(s))
  {
    assert Shape(s.rx) && Shape(s.tx);
    var dir := s.pc.dir;
    var q, t := Queue(s, dir), BrokerStep(s);
    var other := Queue(s, Other(dir));
    FrontStepOk(q);
    HeadProper(q, dir);
    hide Inv, Of, Proper, Abs, FrontStep;
    if FrontStep(q).e.Saw? {
      assert t == WithQueue(s, dir, FrontStep(q).s).(pc := Popping(dir), processed := s.processed + [Abs(q)[0]]);
      assert Queue(t, dir) == FrontStep(q).s && Queue(t, Other(dir)) == other;
      Processed(q, FrontStep(q).s, dir, s.processed);
      OfOneMore(s.processed, Abs(q)[0], Other(dir));
      OtherSide(other, Other(dir), s.pc, t.pc, s.processed, t.processed);
      hide QueueOk, BrokerStep, Queue, WithQueue;
      BothSides(t, dir);
    } else {
      hide QueueOk;
      FrontKeepsQueues(s, t, dir);
    }
  }

  /** The queue that is popped, one step on. */
  lemma PoppedSide(q: State<Msg>, dir: Direction, processed: seq<Msg>)
    requires QueueOk(q, dir, Popping(dir), processed)
    ensures Shape(q)
    ensures var o := PopStep(q); QueueOk(o.s, dir, if o.e.Deq? then GuardRx else Popping(dir), processed)
  {
    PopStepOk(q);
    hide Inv, Of, Proper, Abs, PopStep;
    assert q.popped + [Abs(q)[0]] + [] == q.popped + [Abs(q)[0]];
  }

  lemma PoppingOk(s: System)
    requires SystemOk(s) && s.pc.Popping?
    ensures Shape(s.rx) && Shape(s.tx) && SystemOk(BrokerStep(s))
  {
    assert Shape(s.rx) && Shape(s.tx);
    hide QueueOk, Inv, Of, Proper, Abs, PopStep, SeenOk;
    var dir, t := s.pc.dir, BrokerStep(s);
    var q, other := Queue(s, dir), Queue(s, Other(dir));
    PoppedSide(q, dir, s.processed);
    assert Queue(t, dir) == PopStep(q).s && Queue(t, Other(dir)) == other;
    assert t.pc == (if PopStep(q).e.Deq? then GuardRx else s.pc) && t.processed == s.processed;
    OtherSide(other, Other(dir), s.pc, t.pc, s.processed, s.processed);
    NothingSeen(t);
    assert !t.fault && !t.idle;
    hide BrokerStep, Queue, WithQueue;
    BothSides(t, dir);
  }

  lemma NothingSeen(s: System)
    requires s.pc.GuardRx? || s.pc.Popping?
    ensures SeenOk(s)
  {
  }

  /** What was seen stays true when messages arrive. */
  lemma SeenGrows(s: System, t: System)
    requires SeenOk(s) && t.pc == s.pc && Abs(s.rx) <= Abs(t.rx) && Abs(s.tx) <= Abs(t.tx)
    ensures SeenOk(t)
  {
    HeadStays(Abs(s.rx), Abs(t.rx));
    HeadStays(Abs(s.tx), Abs(t.tx));
    hide Abs;
  }

  lemma RxMoveOk(s: System, a: Action<Msg>)
    requires SystemOk(s) && (a.PNext? || (a.Push? && a.x.dir.Rx? && a.x.ts > 0))
    ensures Shape(s.rx) && SystemOk(s.(rx := Step(s.rx, a).s))
  {
    ProducerStepOk(s.rx, a, Rx, s.pc, s.processed);
    hide QueueOk, SeenOk, Abs, Step, Inv;
    SeenGrows(s, s.(rx := Step(s.rx, a).s));
  }

  lemma TxMoveOk(s: System, a: Action<Msg>)
    requires SystemOk(s) && (a.PNext? || (a.Push? && a.x.dir.Tx? && a.x.ts > 0))
    ensures Shape(s.tx) && SystemOk(s.(tx := Step(s.tx, a).s))
  {
    ProducerStepOk(s.tx, a, Tx, s.pc, s.processed);
    hide QueueOk, SeenOk, Abs, Step, Inv;
    SeenGrows(s, s.(tx := Step(s.tx, a).s));
  }

  lemma ProducerMoveOk(s: System, m: Move)
    requires SystemOk(s) && ProperMove(m) && !m.Broker?
    ensures Shape(s.rx) && Shape(s.tx) && SystemOk(Take(s, m))
  {
    assert Shape(s.rx) && Shape(s.tx);
    match m {
      case RxPush(x) => RxMoveOk(s, Push(x));
      case RxNext => RxMoveOk(s, PNext);
      case TxPush(x) => TxMoveOk(s, Push(x));
      case TxNext => TxMoveOk(s, PNext);
    }
    hide SystemOk, Step;
  }

  lemma TakeOk(s: System, m: Move)
    requires SystemOk(s) && ProperMove(m)
    ensures Shape(s.rx) && Shape(s.tx) && SystemOk(Take(s, m))
  {
    if !m.Broker? {
      ProducerMoveOk(s, m);
    } else {
      match s.pc {
        case GuardRx => LookOk(s);
        case GuardTx => LookOk(s);
        case LoadRx => LookOk(s);
        case LoadTx(_) => LoadTxOk(s);
        case Taking(_) => TakingOk(s);
        case Popping(_) => PoppingOk(s);
      }
    }
    hide SystemOk, BrokerStep;
  }

  lemma {:induction false} TravelOk(s: System, moves: seq<Move>)
    requires SystemOk(s) && forall i :: 0 <= i < |moves| ==> ProperMove(moves[i])
    ensures Shape(s.rx) && Shape(s.tx) && SystemOk(Travel(s, moves))
    decreases |moves|
  {
    assert Shape(s.rx) && Shape(s.tx);
    hide SystemOk, Take, ProperMove;
    if |moves| == 0 {
    } else {
      TakeOk(s, moves[0]);
      TravelOk(Take(s, moves[0]), moves[1..]);
    }
  }

  /** On every interleaving of both producers with the broker, step by step: no head that the
      broker uses is null or destroyed, it never goes around without taking a message, and in
      each direction what it has processed is a beginning of what was pushed, each message
      once and in order: what was popped, and the one in its hand. */
  lemma DispatchIsExact(moves: seq<Move>)
    requires forall i :: 0 <= i < |moves| ==> ProperMove(moves[i])
    ensures var s := Travel(Begin(), moves);
            && !s.fault && !s.idle
            && Of(s.processed, Rx) <= s.rx.pushed && Of(s.processed, Tx) <= s.tx.pushed
            && |s.rx.popped| <= |Of(s.processed, Rx)| <= |s.rx.popped| + 1
            && |s.tx.popped| <= |Of(s.processed, Tx)| <= |s.tx.popped| + 1
            && s.rx.pushed == s.rx.popped + Abs(s.rx) && s.tx.pushed == s.tx.popped + Abs(s.tx)
  {
    BeginOk();
    TravelOk(Begin(), moves);
    var s := Travel(Begin(), moves);
    HandOk(s.rx, Rx, s.pc, s.processed);
    HandOk(s.tx, Tx, s.pc, s.processed);
    hide Travel, QueueOk, Begin, Abs, Of, Inv;
  }

  lemma HandOk(q: State<Msg>, dir: Direction, pc: Pc, processed: seq<Msg>)
    requires QueueOk(q, dir, pc, processed)
    ensures Of(processed, dir) <= q.pushed && q.pushed == q.popped + Abs(q)
    ensures |q.popped| <= |Of(processed, dir)| <= |q.popped| + 1
  {
    HistoryIsContents(q);
    hide Inv, Of, Proper, Abs;
  }
}
