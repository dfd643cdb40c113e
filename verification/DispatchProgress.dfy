/** What the client broker takes, and that it gets on: alone it processes all that waits. */
module DispatchProgress {
  import opened Wrappers
  import opened SlotStats
  import opened SpscQueue
  import opened SpscRuns
  import opened Dispatch
  import opened DispatchRings

  /** The choice falls on the later of the two heads: on the sent one exactly when there is
      one and the received head, if it was seen, is older. */
  lemma LaterHeadIsTaken(s: System)
    requires SystemOk(s) && s.pc.LoadTx?
    ensures Shape(s.rx) && Shape(s.tx)
    ensures s.pc.rxTs != 0 ==> Abs(s.rx) != [] && Abs(s.rx)[0].ts == s.pc.rxTs
    ensures var t := BrokerStep(s);
            && (t.pc == s.pc || t.pc == Taking(Tx) || t.pc == Taking(Rx))
            && (t.pc == Taking(Tx) ==> Abs(s.tx) != [] && Abs(s.tx)[0].ts > s.pc.rxTs)
            && (t.pc == Taking(Rx) ==> s.pc.rxTs != 0 && (Abs(s.tx) == [] || s.pc.rxTs >= Abs(s.tx)[0].ts))
  {
    assert Shape(s.rx) && Shape(s.tx) && QueueFront(s.tx, Tx);
    hide Inv, Of, Proper, Abs, QueueOk, FrontStep, BrokerStep, Shape, Chosen, Idles;
    var o := FrontStep(s.tx);
    FrontStepOk(s.tx);
    LoadTxStep(s);
    if o.e.Saw? {
      HeadProper(s.tx, Tx);
      ChosenOk(s.pc.rxTs, Abs(s.tx)[0].ts);
    } else if o.e == Empty {
      ChosenOk(s.pc.rxTs, 0);
    }
  }

  /** The message that the broker takes is the head of the queue it chose. */
  lemma ChosenHeadIsProcessed(s: System)
    requires SystemOk(s) && s.pc.Taking?
    ensures Shape(s.rx) && Shape(s.tx) && Abs(Queue(s, s.pc.dir)) != []
    ensures var t := BrokerStep(s);
            && (t.pc == s.pc ==> t.processed == s.processed)
            && (t.pc != s.pc ==> t.pc == Popping(s.pc.dir) && t.processed == s.processed + [Abs(Queue(s, s.pc.dir))[0]])
  {
    hide SystemOk, Inv, Abs, FrontStep, Shape, Queue, WithQueue;
    var q := Queue(s, s.pc.dir);
    ChosenQueue(s);
    FrontStepOk(q);
    BrokerLooks(s);
  }

  lemma ChosenQueue(s: System)
    requires SystemOk(s) && s.pc.Taking?
    ensures var q := Queue(s, s.pc.dir);
            && Shape(s.rx) && Shape(s.tx) && Inv(q) && Abs(q) != []
            && (q.cons.CIdle? || q.cons.CHeld? || q.cons.CReload?)
  {
    hide Abs, Of, Proper;
  }

  lemma BrokerLooks(s: System)
    requires Shape(s.rx) && Shape(s.tx) && s.pc.Taking?
    ensures var o := FrontStep(Queue(s, s.pc.dir));
            var w := WithQueue(s, s.pc.dir, o.s);
            && BrokerStep(s) == AfterFront(w, o.e) && w.pc == s.pc && w.processed == s.processed
  {
    hide FrontStep, AfterFront;
  }

  /** Whenever the broker's call of `front` shows something, it is the living head of that
      queue; and once a queue was chosen its head is there. */
  lemma HeadsAreLive(moves: seq<Move>)
    requires forall i :: 0 <= i < |moves| ==> ProperMove(moves[i])
    ensures var s := Travel(Begin(), moves);
            var q := Queue(s, Side(s.pc));
            !s.pc.Popping? ==>
              var e := FrontStep(q).e;
              && (e.Saw? ==> Abs(q) != [] && e.slot == Some(Abs(q)[0]))
              && (e == Empty ==> Abs(q) == [] && !s.pc.Taking?)
              && (e == Tau || e.Saw? || e == Empty)
  {
    BeginOk();
    TravelOk(Begin(), moves);
    var s := Travel(Begin(), moves);
    if !s.pc.Popping? {
      FrontOfReached(s);
    }
    hide Travel, Begin, SystemOk, FrontStep, Abs, Queue;
  }

  lemma FrontOfReached(s: System)
    requires SystemOk(s) && !s.pc.Popping?
    ensures Shape(s.rx) && Shape(s.tx)
    ensures var q := Queue(s, Side(s.pc));
            var e := FrontStep(q).e;
            && (e.Saw? ==> Abs(q) != [] && e.slot == Some(Abs(q)[0]))
            && (e == Empty ==> Abs(q) == [] && !s.pc.Taking?)
            && (e == Tau || e.Saw? || e == Empty)
  {
    var q := Queue(s, Side(s.pc));
    assert Shape(s.rx) && Shape(s.tx) && QueueFront(q, Side(s.pc));
    hide Inv, Of, Proper, Abs, QueueOk, FrontStep, Shape;
    FrontStepOk(q);
  }

  lemma FourMoves(s: System, a: Move, b: Move, c: Move, d: Move)
    requires Shape(s.rx) && Shape(s.tx)
    ensures Travel(s, [a, b, c, d]) == Take(Take(Take(Take(s, a), b), c), d)
  {
    hide Take;
    assert [a, b, c, d][1..] == [b, c, d] && [b, c, d][1..] == [c, d] && [c, d][1..] == [d] && [d][1..] == [];
    assert Travel(Take(Take(Take(s, a), b), c), [d]) == Take(Take(Take(Take(s, a), b), c), d);
    assert Travel(Take(Take(s, a), b), [c, d]) == Travel(Take(Take(Take(s, a), b), c), [d]);
    assert Travel(Take(s, a), [b, c, d]) == Travel(Take(Take(s, a), b), [c, d]);
  }

  lemma RxGetsOn(s: System, m: Msg)
    requires Shape(s.tx) && Inv(s.rx) && s.rx.prod.PIdle? && |Abs(s.rx)| < s.rx.n - 1
    ensures Shape(s.rx) && Travel(s, [RxPush(m), RxNext, RxNext, RxNext]).rx.pushed == s.rx.pushed + [m]
  {
    hide Inv, Abs, Step, Shape, Travel;
    PushedAlone(s.rx, m);
    FourMoves(s, RxPush(m), RxNext, RxNext, RxNext);
  }

  lemma TxGetsOn(s: System, m: Msg)
    requires Shape(s.rx) && Inv(s.tx) && s.tx.prod.PIdle? && |Abs(s.tx)| < s.tx.n - 1
    ensures Shape(s.tx) && Travel(s, [TxPush(m), TxNext, TxNext, TxNext]).tx.pushed == s.tx.pushed + [m]
  {
    hide Inv, Abs, Step, Shape, Travel;
    PushedAlone(s.tx, m);
    FourMoves(s, TxPush(m), TxNext, TxNext, TxNext);
  }

  /** A producing thread left alone with room in its ring publishes its message. */
  lemma ProducersGetOn(s: System, m: Msg)
    requires SystemOk(s)
    ensures Shape(s.rx) && Shape(s.tx)
    ensures s.rx.prod.PIdle? && |Abs(s.rx)| < s.rx.n - 1 ==>
              Travel(s, [RxPush(m), RxNext, RxNext, RxNext]).rx.pushed == s.rx.pushed + [m]
    ensures s.tx.prod.PIdle? && |Abs(s.tx)| < s.tx.n - 1 ==>
              Travel(s, [TxPush(m), TxNext, TxNext, TxNext]).tx.pushed == s.tx.pushed + [m]
  {
    assert Shape(s.rx) && Shape(s.tx) && Inv(s.rx) && Inv(s.tx);
    hide SystemOk, Inv, Abs, Shape, Travel, Take;
    if s.rx.prod.PIdle? && |Abs(s.rx)| < s.rx.n - 1 {
      RxGetsOn(s, m);
    }
    if s.tx.prod.PIdle? && |Abs(s.tx)| < s.tx.n - 1 {
      TxGetsOn(s, m);
    }
  }

  // Progress

  function Reloads(q: State<Msg>): nat {
    if q.cons.CReload? then 1 else 0
  }

  /** How far the broker is from the next message, if one waits. */
  function Rank(s: System): nat {
    match s.pc
    case Popping(dir) => if Queue(s, dir).cons.CHeld? then 15 else 14
    case GuardRx => 10 - Reloads(s.rx)
    case GuardTx => (if Abs(s.tx) == [] then 12 else 8) - Reloads(s.tx)
    case LoadRx => 6 - Reloads(s.rx)
    case LoadTx(_) => 4 - Reloads(s.tx)
    case Taking(dir) => 2 - Reloads(Queue(s, dir))
  }

  /** Messages in the rings that have not been processed. */
  function Waiting(s: System): int {
    |Abs(s.rx)| + |Abs(s.tx)| - if s.pc.Popping? then 1 else 0
  }

  lemma ReloadAnswers(q: State<Msg>)
    requires Shape(q) && q.cons.CReload?
    ensures FrontStep(q).e != Tau
  {
  }

  lemma FrontStepRank(q: State<Msg>)
    requires Inv(q) && (q.cons.CIdle? || q.cons.CHeld? || q.cons.CReload?)
    ensures Shape(q)
    ensures var o := FrontStep(q);
            && Abs(o.s) == Abs(q)
            && (o.e == Tau ==> Reloads(o.s) == 1 && Reloads(q) == 0)
            && (o.e == Tau || (o.e.Saw? && o.e.slot.Some? && Abs(q) != []) || (o.e == Empty && Abs(q) == []))
  {
    assert Shape(q);
    FrontStepOk(q);
    if q.cons.CReload? {
      ReloadAnswers(q);
    }
    hide Inv, Abs, FrontStep;
  }

  /** What `front` showed moves the broker on. */
  lemma FrontGetsOn(s: System, o: Outcome<Msg>)
    requires !s.pc.Popping? && Waiting(s) > 0
    requires s.pc.LoadTx? && o.e == Empty ==> s.pc.rxTs != 0
    requires s.pc.Taking? ==> o.e != Empty
    requires var q := Queue(s, Side(s.pc));
             && Abs(o.s) == Abs(q)
             && (o.e == Tau ==> Reloads(o.s) == 1 && Reloads(q) == 0)
             && (o.e == Tau || (o.e.Saw? && o.e.slot.Some? && Abs(q) != []) || (o.e == Empty && Abs(q) == []))
    requires s.pc.LoadTx? && o.e.Saw? ==> o.e.slot.value.ts > 0
    ensures var t := AfterFront(WithQueue(s, Side(s.pc), o.s), o.e);
            if t.processed == s.processed then Waiting(t) == Waiting(s) && Rank(t) < Rank(s)
            else s.pc.Taking? && |t.processed| == |s.processed| + 1 && Waiting(t) == Waiting(s) - 1
  {
    hide Abs, Chosen, Idles;
    if s.pc.LoadTx? && o.e != Tau {
      ChosenOk(s.pc.rxTs, if o.e.Saw? then o.e.slot.value.ts else 0);
    }
  }

  lemma LookGetsOn(s: System)
    requires SystemOk(s) && Waiting(s) > 0 && !s.pc.Popping?
    ensures Shape(s.rx) && Shape(s.tx)
    ensures var t := BrokerStep(s);
            if t.processed == s.processed then Waiting(t) == Waiting(s) && Rank(t) < Rank(s)
            else s.pc.Taking? && |t.processed| == |s.processed| + 1 && Waiting(t) == Waiting(s) - 1
  {
    assert Shape(s.rx) && Shape(s.tx);
    var q := Queue(s, Side(s.pc));
    assert QueueFront(q, Side(s.pc)) && SeenOk(s);
    hide SystemOk, Inv, Proper, Abs, FrontStep, AfterFront, Shape, Waiting, Rank, Reloads;
    FrontStepRank(q);
    FrontStepOk(q);
    if Abs(q) != [] {
      HeadProper(q, Side(s.pc));
    }
    FrontGetsOn(s, FrontStep(q));
  }

  lemma PopShortens(q: State<Msg>)
    requires Inv(q) && q.cons.CRelease?
    ensures Shape(q)
    ensures var o := PopStep(q); o.e.Deq? && |Abs(o.s)| == |Abs(q)| - 1 && o.s.cons.CIdle?
  {
    assert Shape(q);
    HeldNotEmpty(q);
  }

  /** One step of `pop` moves the broker on. */
  lemma PopMovesOn(s: System, o: Outcome<Msg>)
    requires s.pc.Popping?
    requires var q := Queue(s, s.pc.dir);
             if q.cons.CHeld? then o.e == Tau && o.s.cons.CRelease? && Abs(o.s) == Abs(q)
             else o.e.Deq? && |Abs(o.s)| == |Abs(q)| - 1 && o.s.cons.CIdle?
    ensures var t := WithQueue(s, s.pc.dir, o.s).(pc := if o.e.Deq? then GuardRx else s.pc);
            Waiting(t) == Waiting(s) && Rank(t) < Rank(s)
  {
    hide Abs;
  }

  lemma PopGetsOn(s: System)
    requires SystemOk(s) && s.pc.Popping?
    ensures Shape(s.rx) && Shape(s.tx)
    ensures var t := BrokerStep(s); t.processed == s.processed && Waiting(t) == Waiting(s) && Rank(t) < Rank(s)
  {
    hide SystemOk, Inv, Abs, PopStep, Shape, Waiting, Rank, Queue, WithQueue;
    var q := Queue(s, s.pc.dir);
    PoppedQueue(s);
    PopStepOk(q);
    if q.cons.CRelease? {
      PopShortens(q);
    }
    PopMovesOn(s, PopStep(q));
    BrokerPops(s);
  }

  lemma PoppedQueue(s: System)
    requires SystemOk(s) && s.pc.Popping?
    ensures var q := Queue(s, s.pc.dir);
            Shape(s.rx) && Shape(s.tx) && Inv(q) && (q.cons.CHeld? || q.cons.CRelease?)
  {
    hide Abs, Of, Proper;
  }

  lemma BrokerPops(s: System)
    requires Shape(s.rx) && Shape(s.tx) && s.pc.Popping?
    ensures var o := PopStep(Queue(s, s.pc.dir));
            && BrokerStep(s) == WithQueue(s, s.pc.dir, o.s).(pc := if o.e.Deq? then GuardRx else s.pc)
            && WithQueue(s, s.pc.dir, o.s).processed == s.processed
  {
    hide PopStep;
  }

  // The broker alone

  /** A bound on the steps until nothing waits. */
  function Work(s: System): nat {
    if Waiting(s) <= 0 then 0 else 16 * Waiting(s) + Rank(s)
  }

  lemma WorkShrinks(s: System, t: System)
    requires Waiting(s) > 0
    requires if t.processed == s.processed then Waiting(t) == Waiting(s) && Rank(t) < Rank(s)
             else s.pc.Taking? && Waiting(t) == Waiting(s) - 1
    ensures Work(t) < Work(s)
  {
    hide Waiting;
  }

  lemma StepShrinksWork(s: System)
    requires SystemOk(s) && Waiting(s) > 0
    ensures Shape(s.rx) && Shape(s.tx) && Work(BrokerStep(s)) < Work(s)
  {
    assert Shape(s.rx) && Shape(s.tx);
    hide SystemOk, BrokerStep, Waiting, Rank, Work, Shape;
    if s.pc.Popping? {
      PopGetsOn(s);
    } else {
      LookGetsOn(s);
    }
    WorkShrinks(s, BrokerStep(s));
  }

  lemma FrontChangesNoQueue(s: System, e: Event<Msg>)
    ensures AfterFront(s, e).rx == s.rx && AfterFront(s, e).tx == s.tx
  {
    hide Chosen, Idles;
  }

  lemma BrokerPushesNothing(s: System)
    requires SystemOk(s)
    ensures Shape(s.rx) && Shape(s.tx)
    ensures var t := BrokerStep(s); t.rx.pushed == s.rx.pushed && t.tx.pushed == s.tx.pushed
  {
    var q := Queue(s, Side(s.pc));
    assert Shape(s.rx) && Shape(s.tx);
    if s.pc.Popping? {
      PopStepOk(q);
    } else {
      assert QueueFront(q, Side(s.pc));
      FrontStepOk(q);
      var o := FrontStep(q);
      FrontChangesNoQueue(WithQueue(s, Side(s.pc), o.s), o.e);
    }
    hide SystemOk, Inv, Abs, PopStep, FrontStep, AfterFront, Shape;
  }

  function Alone(n: nat): seq<Move> {
    seq(n, _ => Broker)
  }

  lemma AllInHand(q: State<Msg>, dir: Direction, pc: Pc, processed: seq<Msg>)
    requires QueueOk(q, dir, pc, processed) && |Abs(q)| <= |InHand(q, dir, pc)|
    ensures Of(processed, dir) == q.pushed
  {
    HistoryIsContents(q);
    hide Inv, Of, Proper, Abs;
    assert InHand(q, dir, pc) == Abs(q);
  }

  /** When no message waits, each one that was pushed has been processed. */
  lemma NothingWaits(s: System)
    requires SystemOk(s) && Waiting(s) <= 0
    ensures Of(s.processed, Rx) == s.rx.pushed && Of(s.processed, Tx) == s.tx.pushed
  {
    if s.pc.Popping? {
      HeldNotEmpty(Queue(s, s.pc.dir));
    }
    hide Inv, Of, Proper, Abs;
    assert |Abs(s.rx)| <= |InHand(s.rx, Rx, s.pc)| && |Abs(s.tx)| <= |InHand(s.tx, Tx, s.pc)|;
    hide QueueOk, InHand;
    AllInHand(s.rx, Rx, s.pc, s.processed);
    AllInHand(s.tx, Tx, s.pc, s.processed);
  }

  ghost predicate CaughtUp(s: System, n: nat)
    requires Shape(s.rx) && Shape(s.tx)
  {
    var t := Travel(s, Alone(n));
    && n <= Work(s)
    && Of(t.processed, Rx) == s.rx.pushed && Of(t.processed, Tx) == s.tx.pushed
  }

  lemma CaughtUpBefore(s: System, n: nat)
    requires Shape(s.rx) && Shape(s.tx)
    requires var t := BrokerStep(s);
             Work(t) < Work(s) && CaughtUp(t, n) && t.rx.pushed == s.rx.pushed && t.tx.pushed == s.tx.pushed
    ensures CaughtUp(s, n + 1)
  {
    hide BrokerStep, Work, Of, Shape;
    assert Alone(n + 1)[1..] == Alone(n);
    assert Travel(s, Alone(n + 1)) == Travel(Take(s, Broker), Alone(n));
  }

  lemma CaughtUpNow(s: System)
    requires SystemOk(s) && Waiting(s) <= 0
    ensures Shape(s.rx) && Shape(s.tx) && CaughtUp(s, 0)
  {
    NothingWaits(s);
    assert Shape(s.rx) && Shape(s.tx);
    hide SystemOk, Shape, Of;
    assert |Alone(0)| == 0;
    assert Travel(s, Alone(0)) == s;
  }

  lemma CaughtUpLater(s: System)
    requires SystemOk(s) && Waiting(s) > 0
    ensures Shape(s.rx) && Shape(s.tx)
    ensures var t := BrokerStep(s);
            && SystemOk(t) && Shape(t.rx) && Shape(t.tx) && Work(t) < Work(s)
            && forall n: nat :: CaughtUp(t, n) ==> CaughtUp(s, n + 1)
  {
    StepShrinksWork(s);
    BrokerPushesNothing(s);
    TakeOk(s, Broker);
    assert Take(s, Broker) == BrokerStep(s);
    hide SystemOk, Shape, BrokerStep, Work, Waiting, CaughtUp;
    forall n: nat | CaughtUp(BrokerStep(s), n)
      ensures CaughtUp(s, n + 1)
    {
      CaughtUpBefore(s, n);
    }
  }

  /** From every state the system can reach, and if nobody pushes meanwhile, a bounded number
      of atomic steps of the broker processes every message that was pushed. */
  lemma {:induction false} BrokerCatchesUp(s: System)
    requires SystemOk(s)
    ensures Shape(s.rx) && Shape(s.tx)
    ensures exists n: nat :: CaughtUp(s, n)
    decreases Work(s)
  {
    hide SystemOk, Shape, BrokerStep, Work, Waiting, CaughtUp;
    if Waiting(s) <= 0 {
      CaughtUpNow(s);
    } else {
      CaughtUpLater(s);
      BrokerCatchesUp(BrokerStep(s));
      var n: nat :| CaughtUp(BrokerStep(s), n);
      assert CaughtUp(s, n + 1);
    }
  }

  /** So on no interleaving the broker can hang or go around for ever while a message waits. */
  lemma NoMessageIsStuck(moves: seq<Move>)
    requires forall i :: 0 <= i < |moves| ==> ProperMove(moves[i])
    ensures exists n: nat :: CaughtUp(Travel(Begin(), moves), n)
  {
    BeginOk();
    TravelOk(Begin(), moves);
    BrokerCatchesUp(Travel(Begin(), moves));
    hide Travel, Begin, SystemOk, CaughtUp;
  }
}
