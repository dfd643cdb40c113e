/** The packet factory and the sender around the packet buffer, under every interleaving. */
module PacketFactory {
  import opened Wrapping
  import opened SpscQueue
  import opened SpscRuns

  /** The ring with what its two threads remember between calls: how much of the plan the
      factory has handed to the ring, whether it may make the next packet without looking,
      and whether the sender was told that there is one. */
  datatype System<+T> = System(ring: State<T>, made: nat, credit: bool, told: bool)

  /** One atomic move of either thread. */
  datatype Move =
    | Make                     // prepNextPacket starts to push the next packet
    | Skip                     // prepNextPacket moves on without a packet
    | Measure(ownFirst: bool)  // the factory enters size()
    | Factory                  // the factory's next atomic step inside the ring
    | Ask(ownFirst: bool)      // the sender enters empty()
    | Read                     // the sender enters front()
    | Drop                     // the sender enters pop()
    | Sender                   // the sender's next atomic step inside the ring

  datatype Moved<+T> = Moved(s: System<T>, e: Event<T>)

  const BUFFER_CAPACITY: nat := 128_000

  datatype NetType = Default | NbIot | Edge | HiLat | LowBw

  /** How many packets may be buffered for a kind of network. */
  function BufferDepth(net: NetType): nat {
    match net
    case Default => 96_000
    case NbIot => 200
    case Edge => 1_000
    case HiLat => 10_000
    case LowBw => 5_000
  }

  /** The factory makes its first packet without measuring the buffer. */
  function Begin<T>(capacity: nat): System<T> {
    System(Init(capacity), 0, true, false)
  }

  /** One move; a move its thread cannot make now is skipped. */
  function Take<T>(s: System<T>, plan: seq<T>, max: nat, m: Move): (r: Moved<T>)
    requires Shape(s.ring)
    ensures Shape(r.s.ring) && r.s.ring.n == s.ring.n
  {
    match m
    case Make =>
      if s.ring.prod.PIdle? && s.credit && s.made < |plan| then
        Moved(s.(ring := Step(s.ring, Push(plan[s.made])).s, made := s.made + 1, credit := false), Tau)
      else Moved(s, Tau)
    case Skip => Moved(s.(credit := false), Tau)
    case Measure(ownFirst) =>
      if s.credit then Moved(s, Tau)
      else Moved(s.(ring := Step(s.ring, PSize(ownFirst)).s), Tau)
    case Factory =>
      var o := Step(s.ring, PNext);
      Moved(s.(ring := o.s, credit := s.credit || (o.e.Sized? && o.e.size < max)), o.e)
    case Ask(ownFirst) =>
      if s.told then Moved(s, Tau)
      else Moved(s.(ring := Step(s.ring, CSize(ownFirst)).s), Tau)
    case Read =>
      if s.told then
        var o := Step(s.ring, Front);
        Moved(s.(ring := o.s), o.e)
      else Moved(s, Tau)
    case Drop =>
      if s.told then Moved(s.(ring := Step(s.ring, Pop).s), Tau) else Moved(s, Tau)
    case Sender =>
      var o := Step(s.ring, CNext);
      Moved(s.(ring := o.s, told := if o.e.Sized? then o.e.size > 0 else s.told && !o.e.Deq?), o.e)
  }

  datatype Course<+T> = Course(s: System<T>, events: seq<Event<T>>)

  function Travel<T>(s: System<T>, plan: seq<T>, max: nat, moves: seq<Move>): (c: Course<T>)
    requires Shape(s.ring)
    ensures Shape(c.s.ring) && |c.events| == |moves|
    decreases |moves|
  {
    if moves == [] then Course(s, [])
    else
      var r := Take(s, plan, max, moves[0]);
      var rest := Travel(r.s, plan, max, moves[1..]);
      Course(rest.s, [r.e] + rest.events)
  }

  /** What the factory has taken from the plan but not yet published. */
  function Pending<T>(q: State<T>): seq<T> {
    match q.prod
    case PSpin(v) => [v]
    case PBuild(v) => [v]
    case PPublish(v) => [v]
    case _ => []
  }

  ghost predicate SystemOk<T>(s: System<T>, plan: seq<T>, max: nat) {
    Inv(s.ring) && FactoryOk(s, plan, max) && SenderOk(s)
  }

  ghost predicate FactoryOk<T>(s: System<T>, plan: seq<T>, max: nat) {
    && max <= s.ring.n - 1
    && s.made <= |plan|
    && s.ring.pushed + Pending(s.ring) == plan[..s.made]
    && |Abs(s.ring)| + |Pending(s.ring)| <= max
    && !s.ring.prod.PTry?
    && (s.credit ==> s.ring.prod.PIdle? && |Abs(s.ring)| < max)
  }

  ghost predicate SenderOk<T>(s: System<T>) {
    && (s.told ==> Abs(s.ring) != [] && !s.ring.cons.CSizeOwn? && !s.ring.cons.CSizeOther?)
    && (s.ring.cons.CReload? || s.ring.cons.CHeld? || s.ring.cons.CRelease? ==> s.told)
    && (s.ring.cons.CSizeOwn? || s.ring.cons.CSizeOther? ==> !s.ring.cons.held)
  }

  /** No push found the ring full and no read found it empty. */
  ghost predicate NeverStuck<T>(events: seq<Event<T>>) {
    forall i :: 0 <= i < |events| ==> !events[i].Full? && !events[i].Empty?
  }

  lemma NeverStuckNone<T>()
    ensures NeverStuck<T>([])
  {
  }

  lemma NeverStuckFirst<T>(e: Event<T>, rest: seq<Event<T>>)
    requires !e.Full? && !e.Empty? && NeverStuck(rest)
    ensures NeverStuck([e] + rest)
  {
  }

  lemma BeginOk<T>(capacity: nat, plan: seq<T>, max: nat)
    requires 1 <= max <= capacity
    ensures SystemOk(Begin<T>(capacity), plan, max)
  {
    InitInv<T>(capacity);
    hide Inv;
  }

  lemma PlanGrows<T>(plan: seq<T>, k: nat)
    requires k < |plan|
    ensures plan[..k] + [plan[k]] == plan[..k + 1]
  {
  }

  lemma MakeOk<T>(s: System<T>, plan: seq<T>, max: nat)
    requires SystemOk(s, plan, max) && s.ring.prod.PIdle? && s.credit && s.made < |plan|
    ensures Shape(s.ring) && SystemOk(Take(s, plan, max, Make).s, plan, max)
  {
    PlanGrows(plan, s.made);
    PushRefines(s.ring, Push(plan[s.made]));
    assert Shape(s.ring);
    hide Inv, Abs;
    assert s.ring.pushed + [] == s.ring.pushed;
  }

  /** What the producer's own step can change. */
  lemma ProducerControl<T>(q: State<T>)
    requires Shape(q) && !q.prod.PTry?
    ensures var o := Step(q, PNext);
            && o.s.cons == q.cons && o.s.popped == q.popped && !o.s.prod.PTry?
            && o.s.pushed + Pending(o.s) == q.pushed + Pending(q)
            && (o.e.Sized? ==> o.s.prod.PIdle?)
            && (o.e.Full? ==> |Pending(q)| == 1)
            && (q.prod.PIdle? ==> o.s == q && o.e == Tau)
            && !o.e.Empty?
  {
    assert q.pushed + [] == q.pushed;
  }

  lemma FactoryStep<T>(s: System<T>, plan: seq<T>, max: nat)
    requires SystemOk(s, plan, max)
    ensures Shape(s.ring)
    ensures var r := Take(s, plan, max, Factory);
            SystemOk(r.s, plan, max) && !r.e.Full? && !r.e.Empty?
  {
    assert Shape(s.ring);
    var o := Step(s.ring, PNext);
    StepRefines(s.ring, PNext);
    ProducerControl(s.ring);
    MeasuredRoom(s.ring);
    HistoryIsContents(s.ring);
    HistoryIsContents(o.s);
    hide Inv, Abs, Step, Pending, FifoAfter;
    assert |o.s.pushed + Pending(o.s)| == |s.ring.pushed + Pending(s.ring)|;
  }

  /** The factory alone adds to the ring, so room that it measured does not go away. */
  lemma MeasuredRoom<T>(q: State<T>)
    requires Inv(q)
    ensures var o := Step(q, PNext); o.e.Sized? ==> |Abs(o.s)| <= o.e.size
  {
    if q.prod.PSizeOwn? || q.prod.PSizeOther? {
      ProducerSizeExact(q);
      if q.prod.PSizeOther? {
        SizeAtLeastContents(q);
      }
      hide Inv, Abs;
    } else {
      hide Inv, Abs;
    }
  }

  lemma SizeAtLeastContents<T>(q: State<T>)
    requires Inv(q) && q.prod.PSizeOther?
    ensures q.prod.at >= |Abs(q)|
  {
  }

  /** The sender alone removes from the ring, so a packet that it was told of stays. */
  lemma PromisedPacket<T>(q: State<T>)
    requires Inv(q)
    ensures var o := Step(q, CNext); o.e.Sized? && o.e.size > 0 ==> Abs(o.s) != []
  {
    if q.cons.CSizeOwn? || q.cons.CSizeOther? {
      ConsumerSizeExact(q);
      if q.cons.CSizeOther? {
        SizeAtMostContents(q);
      }
      hide Inv, Abs;
    } else {
      hide Inv, Abs;
    }
  }

  lemma SizeAtMostContents<T>(q: State<T>)
    requires Inv(q) && q.cons.CSizeOther?
    ensures q.cons.at <= |Abs(q)|
  {
  }

  /** What the consumer's own step can change. */
  lemma ConsumerControl<T>(q: State<T>)
    requires Shape(q)
    ensures var o := Step(q, CNext);
            && o.s.prod == q.prod && o.s.pushed == q.pushed
            && (o.e.Sized? ==> q.cons.CSizeOwn? || q.cons.CSizeOther?)
            && (o.e.Sized? ==> o.s.cons == if q.cons.held then CHeld else CIdle)
            && (o.e.Deq? || o.e.Empty? ==> o.s.cons.CIdle?)
            && (!o.e.Sized? && !o.e.Deq? && !o.e.Empty? ==>
                  q.cons == o.s.cons || (q.cons.CReload? && o.s.cons.CHeld?))
            && (o.e.Deq? ==> q.cons.CRelease?)
            && (o.e.Empty? ==> q.cons.CReload?)
            && !o.e.Full? && !o.e.Enq?
  {
  }

  /** The sender's steps leave the factory's side alone, and only make room. */
  lemma FactoryUntouched<T>(s: System<T>, t: System<T>, plan: seq<T>, max: nat)
    requires FactoryOk(s, plan, max)
    requires t.ring.prod == s.ring.prod && t.ring.pushed == s.ring.pushed && t.ring.n == s.ring.n
    requires t.made == s.made && t.credit == s.credit && |Abs(t.ring)| <= |Abs(s.ring)|
    ensures FactoryOk(t, plan, max)
  {
    hide Abs;
  }

  lemma SenderStep<T>(s: System<T>, plan: seq<T>, max: nat)
    requires SystemOk(s, plan, max)
    ensures Shape(s.ring)
    ensures var r := Take(s, plan, max, Sender);
            SystemOk(r.s, plan, max) && !r.e.Full? && !r.e.Empty?
  {
    assert Shape(s.ring);
    StepRefines(s.ring, CNext);
    ConsumerControl(s.ring);
    PromisedPacket(s.ring);
    hide Inv, Abs, Step, Shape, FactoryOk;
    FactoryUntouched(s, Take(s, plan, max, Sender).s, plan, max);
  }

  lemma MeasureOk<T>(s: System<T>, plan: seq<T>, max: nat, ownFirst: bool)
    requires SystemOk(s, plan, max)
    ensures Shape(s.ring)
    ensures var r := Take(s, plan, max, Measure(ownFirst)); SystemOk(r.s, plan, max) && r.e == Tau
  {
    assert Shape(s.ring);
    SizeEntryRefines(s.ring, PSize(ownFirst));
    hide Inv, Abs;
  }

  lemma AskOk<T>(s: System<T>, plan: seq<T>, max: nat, ownFirst: bool)
    requires SystemOk(s, plan, max)
    ensures Shape(s.ring)
    ensures var r := Take(s, plan, max, Ask(ownFirst)); SystemOk(r.s, plan, max) && r.e == Tau
  {
    assert Shape(s.ring);
    SizeEntryRefines(s.ring, CSize(ownFirst));
    hide Inv, Abs;
  }

  lemma ReadOk<T>(s: System<T>, plan: seq<T>, max: nat)
    requires SystemOk(s, plan, max)
    ensures Shape(s.ring)
    ensures var r := Take(s, plan, max, Read);
            SystemOk(r.s, plan, max) && !r.e.Full? && !r.e.Empty?
  {
    assert Shape(s.ring);
    FrontRefines(s.ring);
    hide Inv, Abs;
  }

  lemma DropOk<T>(s: System<T>, plan: seq<T>, max: nat)
    requires SystemOk(s, plan, max)
    ensures Shape(s.ring)
    ensures var r := Take(s, plan, max, Drop); SystemOk(r.s, plan, max) && r.e == Tau
  {
    assert Shape(s.ring);
    if s.ring.cons.CHeld? {
      DestroyKeepsInv(s.ring);
    }
    hide Inv, Abs;
  }

  lemma TakeOk<T>(s: System<T>, plan: seq<T>, max: nat, m: Move)
    requires SystemOk(s, plan, max)
    ensures Shape(s.ring)
    ensures var r := Take(s, plan, max, m);
            SystemOk(r.s, plan, max) && !r.e.Full? && !r.e.Empty?
  {
    assert Shape(s.ring);
    match m {
      case Make =>
        if s.ring.prod.PIdle? && s.credit && s.made < |plan| {
          MakeOk(s, plan, max);
        }
      case Factory => FactoryStep(s, plan, max);
      case Sender => SenderStep(s, plan, max);
      case Measure(ownFirst) => MeasureOk(s, plan, max, ownFirst);
      case Ask(ownFirst) => AskOk(s, plan, max, ownFirst);
      case Read => ReadOk(s, plan, max);
      case Drop => DropOk(s, plan, max);
      case Skip =>
    }
  }

  lemma {:induction false} TravelOk<T>(s: System<T>, plan: seq<T>, max: nat, moves: seq<Move>)
    requires SystemOk(s, plan, max)
    ensures Shape(s.ring)
    ensures var c := Travel(s, plan, max, moves);
            SystemOk(c.s, plan, max) && NeverStuck(c.events)
    decreases |moves|
  {
    assert Shape(s.ring);
    hide SystemOk, Take, NeverStuck, Shape;
    if moves == [] {
      NeverStuckNone<T>();
    } else {
      TakeOk(s, plan, max, moves[0]);
      TravelOk(Take(s, plan, max, moves[0]).s, plan, max, moves[1..]);
      var r := Take(s, plan, max, moves[0]);
      NeverStuckFirst(r.e, Travel(r.s, plan, max, moves[1..]).events);
    }
  }

  lemma OkMeans<T>(s: System<T>, plan: seq<T>, max: nat)
    requires SystemOk(s, plan, max)
    ensures s.ring.pushed <= plan && s.ring.popped <= s.ring.pushed
    ensures s.ring.pushed == s.ring.popped + Abs(s.ring) && |Abs(s.ring)| <= max
  {
    assert s.ring.pushed <= s.ring.pushed + Pending(s.ring);
    HistoryIsContents(s.ring);
  }

  /** What either thread was told holds until it acts on it, whatever the other does: the
      factory may push while fewer packets are buffered than allowed, and the sender reads
      while there is one. */
  lemma PromisesHold<T>(net: NetType, plan: seq<T>, moves: seq<Move>)
    ensures var s := Travel(Begin(BUFFER_CAPACITY), plan, BufferDepth(net), moves).s;
            && (s.credit ==> s.ring.prod.PIdle? && |Abs(s.ring)| < BufferDepth(net))
            && (s.told ==> Abs(s.ring) != [])
  {
    var max := BufferDepth(net);
    BeginOk(BUFFER_CAPACITY, plan, max);
    TravelOk(Begin(BUFFER_CAPACITY), plan, max, moves);
    hide Travel, Inv, Abs, Pending, BufferDepth, Begin;
  }

  // What the two threads decide

  lemma ProducerShown<T>(q: State<T>)
    requires Inv(q)
    ensures var o := Step(q, PNext);
            o.e.Sized? ==>
              && (q.prod.PSizeOwn? || q.prod.PSizeOther?)
              && o.e.size == if q.prod.PSizeOther? then q.prod.at else |Abs(q)|
  {
    if q.prod.PSizeOwn? || q.prod.PSizeOther? {
      ProducerSizeExact(q);
    }
    hide Inv, Abs, Gap, Succ;
  }

  lemma ConsumerShown<T>(q: State<T>)
    requires Inv(q)
    ensures var o := Step(q, CNext);
            o.e.Sized? ==>
              && (q.cons.CSizeOwn? || q.cons.CSizeOther?)
              && o.e.size == if q.cons.CSizeOther? then q.cons.at else |Abs(q)|
  {
    if q.cons.CSizeOwn? || q.cons.CSizeOther? {
      ConsumerSizeExact(q);
    }
    hide Inv, Abs, Gap, Succ;
  }

  /** Measuring decides exactly: in every state the two can reach the factory may go on when
      the size it is shown is below the depth, the sender is told of a packet when the size it
      is shown is above zero, and that size is the true length at one moment of the call. */
  lemma MeasuresDecide<T>(s: System<T>, plan: seq<T>, max: nat)
    requires SystemOk(s, plan, max)
    ensures Shape(s.ring)
    ensures var r := Take(s, plan, max, Factory);
            r.e.Sized? ==>
              && (r.s.credit <==> r.e.size < max)
              && r.e.size == if s.ring.prod.PSizeOther? then s.ring.prod.at else |Abs(s.ring)|
    ensures var r := Take(s, plan, max, Sender);
            r.e.Sized? ==>
              && (r.s.told <==> r.e.size > 0)
              && r.e.size == if s.ring.cons.CSizeOther? then s.ring.cons.at else |Abs(s.ring)|
  {
    assert Shape(s.ring);
    ProducerShown(s.ring);
    ConsumerShown(s.ring);
    hide Inv, Abs, Step, Shape, SenderOk;
  }

  // Each thread left alone gets on

  lemma MeasureChange<T>(q: State<T>, ownFirst: bool)
    requires Shape(q) && q.prod.PIdle?
    ensures var t := Step(q, PSize(ownFirst)).s;
            var o := Step(t, PNext);
            && o == ProducerStep(t) && o.s == q && (t.prod.PSizeOwn? || t.prod.PSizeOther?)
            && (t.prod.PSizeOther? ==> o.e.Sized? && o.e.at == |Abs(q)|)
  {
    hide Abs, Gap, Succ;
  }

  lemma MeasuredAlone<T>(q: State<T>, ownFirst: bool)
    requires Inv(q) && q.prod.PIdle?
    ensures Shape(q)
    ensures var o := Step(Step(q, PSize(ownFirst)).s, PNext); o.e == Sized(|Abs(q)|, |Abs(q)|) && o.s == q
  {
    assert Shape(q);
    hide Inv, Abs, Step, ProducerStep, Shape;
    SizeEntryRefines(q, PSize(ownFirst));
    MeasureChange(q, ownFirst);
    ProducerSizeExact(Step(q, PSize(ownFirst)).s);
  }

  /** Alone, and with room, the factory measures, may go on, and publishes the next packet. */
  lemma FactoryRound<T>(s: System<T>, plan: seq<T>, max: nat, ownFirst: bool)
    requires SystemOk(s, plan, max) && s.ring.prod.PIdle? && !s.credit
    requires s.made < |plan| && |Abs(s.ring)| < max
    ensures Shape(s.ring)
    ensures var t := Travel(s, plan, max, [Measure(ownFirst), Factory, Make, Factory, Factory, Factory]).s;
            t.ring.pushed == s.ring.pushed + [plan[s.made]] && t.made == s.made + 1 && t.ring.prod.PIdle?
  {
    assert Shape(s.ring);
    MeasuredAlone(s.ring, ownFirst);
    PushedAlone(s.ring, plan[s.made]);
    hide Inv, Abs, Step, Shape;
    SixMoves(s, plan, max, Measure(ownFirst), Factory, Make, Factory, Factory, Factory);
  }

  lemma SixMoves<T>(s: System<T>, plan: seq<T>, max: nat, a: Move, b: Move, c: Move, d: Move, e: Move, f: Move)
    requires Shape(s.ring)
    ensures var s1 := Take(s, plan, max, a).s;
            var s2 := Take(s1, plan, max, b).s;
            var s3 := Take(s2, plan, max, c).s;
            var s4 := Take(s3, plan, max, d).s;
            var s5 := Take(s4, plan, max, e).s;
            Travel(s, plan, max, [a, b, c, d, e, f]).s == Take(s5, plan, max, f).s
  {
    hide Take;
    var moves := [a, b, c, d, e, f];
    var s1 := Take(s, plan, max, a).s;
    var s2 := Take(s1, plan, max, b).s;
    var s3 := Take(s2, plan, max, c).s;
    var s4 := Take(s3, plan, max, d).s;
    var s5 := Take(s4, plan, max, e).s;
    assert moves[1..] == [b, c, d, e, f] && [b, c, d, e, f][1..] == [c, d, e, f] && [c, d, e, f][1..] == [d, e, f];
    assert [d, e, f][1..] == [e, f] && [e, f][1..] == [f] && [f][1..] == [];
    assert Travel(s5, plan, max, [f]).s == Take(s5, plan, max, f).s;
    assert Travel(s4, plan, max, [e, f]).s == Travel(s5, plan, max, [f]).s;
    assert Travel(s3, plan, max, [d, e, f]).s == Travel(s4, plan, max, [e, f]).s;
    assert Travel(s2, plan, max, [c, d, e, f]).s == Travel(s3, plan, max, [d, e, f]).s;
    assert Travel(s1, plan, max, [b, c, d, e, f]).s == Travel(s2, plan, max, [c, d, e, f]).s;
  }

  lemma AskChange<T>(q: State<T>, ownFirst: bool)
    requires Shape(q) && q.cons.CIdle?
    ensures var t := Step(q, CSize(ownFirst)).s;
            var o := Step(t, CNext);
            && o == ConsumerStep(t) && o.s == q && (t.cons.CSizeOwn? || t.cons.CSizeOther?)
            && (t.cons.CSizeOther? ==> o.e.Sized? && o.e.at == |Abs(q)|)
  {
    hide Abs, Gap, Succ;
  }

  lemma AskedAlone<T>(q: State<T>, ownFirst: bool)
    requires Inv(q) && q.cons.CIdle?
    ensures Shape(q)
    ensures var o := Step(Step(q, CSize(ownFirst)).s, CNext); o.e == Sized(|Abs(q)|, |Abs(q)|) && o.s == q
  {
    assert Shape(q);
    hide Inv, Abs, Step, ConsumerStep, Shape;
    SizeEntryRefines(q, CSize(ownFirst));
    AskChange(q, ownFirst);
    ConsumerSizeExact(Step(q, CSize(ownFirst)).s);
  }

  lemma FrontChange<T>(q: State<T>)
    requires Shape(q) && q.cons.CIdle?
    ensures var o := Step(q, Front);
            && o.s == q.(cons := o.s.cons) && (o.s.cons.CReload? || o.s.cons.CHeld?)
            && (o.s.cons.CHeld? ==> Step(o.s, CNext).s == o.s)
            && (o.s.cons.CReload? ==> Step(o.s, CNext) == ConsumerStep(o.s))
  {
  }

  lemma FrontAlone<T>(q: State<T>)
    requires Inv(q) && q.cons.CIdle? && Abs(q) != []
    ensures Shape(q)
    ensures var t := Step(Step(q, Front).s, CNext).s;
            Inv(t) && t.cons.CHeld? && Abs(t) == Abs(q) && t.popped == q.popped
  {
    assert Shape(q);
    hide Inv, Shape, Step, ConsumerStep;
    FrontChange(q);
    FrontRefines(q);
    var u := Step(q, Front).s;
    assert Abs(u) == Abs(q);
    hide Abs;
    if u.cons.CReload? {
      RefillRefines(u);
      RefillChange(u);
    }
  }

  lemma RefillChange<T>(q: State<T>)
    requires Shape(q) && q.cons.CReload?
    ensures var o := ConsumerStep(q); o.s.popped == q.popped && (o.e.Saw? ==> o.s.cons.CHeld?) && !o.e.Deq?
  {
  }

  lemma PopChange<T>(q: State<T>)
    requires Shape(q) && q.cons.CHeld?
    ensures Step(q, Pop) == Destroy(q) && Destroy(q).s.popped == q.popped
  {
  }

  lemma ReleaseChange<T>(q: State<T>)
    requires Shape(q) && q.cons.CRelease?
    ensures var o := Step(q, CNext);
            o == ConsumerStep(q) && o.s.cons.CIdle? && o.e.Deq? && o.s.popped == q.popped + [q.cons.v]
  {
  }

  lemma PopAlone<T>(q: State<T>)
    requires Inv(q) && q.cons.CHeld? && Abs(q) != []
    ensures Shape(q)
    ensures var o := Step(Step(q, Pop).s, CNext);
            o.s.cons.CIdle? && o.e.Deq? && o.s.popped == q.popped + [Abs(q)[0]]
  {
    assert Shape(q);
    hide Inv, Abs, Destroy, Shape, Step, ConsumerStep;
    PopChange(q);
    DestroyKeepsInv(q);
    var t := Destroy(q).s;
    ReleaseKeepsInv(t);
    ReleaseChange(t);
  }

  /** An undisturbed front and pop of a queue with an element. */
  lemma PoppedAlone<T>(q: State<T>)
    requires Inv(q) && q.cons.CIdle? && Abs(q) != []
    ensures Shape(q)
    ensures var t := Step(Step(q, Front).s, CNext).s;
            var o := Step(Step(t, Pop).s, CNext);
            t.cons.CHeld? && o.s.cons.CIdle? && o.e.Deq? && o.s.popped == q.popped + [Abs(q)[0]]
  {
    assert Shape(q);
    hide Inv, Abs, Step, Shape;
    FrontAlone(q);
    PopAlone(Step(Step(q, Front).s, CNext).s);
  }

  /** Alone, and with a packet buffered, the sender is told, reads it, and takes it out. */
  lemma SenderRound<T>(s: System<T>, plan: seq<T>, max: nat, ownFirst: bool)
    requires SystemOk(s, plan, max) && s.ring.cons.CIdle? && !s.told && Abs(s.ring) != []
    ensures Shape(s.ring)
    ensures var t := Travel(s, plan, max, [Ask(ownFirst), Sender, Read, Sender, Drop, Sender]).s;
            t.ring.popped == s.ring.popped + [Abs(s.ring)[0]] && !t.told && t.ring.cons.CIdle?
  {
    assert Shape(s.ring);
    AskedAlone(s.ring, ownFirst);
    PoppedAlone(s.ring);
    hide Inv, Abs, Step, Shape;
    SixMoves(s, plan, max, Ask(ownFirst), Sender, Read, Sender, Drop, Sender);
  }

  /** For every kind of network and every interleaving: the buffer stays within its depth,
      no push ever finds the ring full, no read that was announced finds it empty, and the
      sender receives the plan from its beginning, in order. */
  lemma BufferNeverOverflows<T>(net: NetType, plan: seq<T>, moves: seq<Move>)
    ensures var c := Travel(Begin(BUFFER_CAPACITY), plan, BufferDepth(net), moves);
            && |Abs(c.s.ring)| <= BufferDepth(net)
            && NeverStuck(c.events)
            && c.s.ring.pushed <= plan
            && c.s.ring.pushed == c.s.ring.popped + Abs(c.s.ring)
  {
    var max := BufferDepth(net);
    BeginOk(BUFFER_CAPACITY, plan, max);
    hide SystemOk;
    TravelOk(Begin(BUFFER_CAPACITY), plan, max, moves);
    OkMeans(Travel(Begin(BUFFER_CAPACITY), plan, max, moves).s, plan, max);
  }
}
