/** What each printed slot record says, from the events of its slot alone. */
module SlotReports {
  import opened SlotStats
  import opened JitterEstimate
  import opened ClientStats

  // The reference

  function Added(xs: seq<real>): real {
    if |xs| == 0 then 0.0 else Added(xs[..|xs| - 1]) + xs[|xs| - 1]
  }

  /** The sum of the jitter estimates after each of the samples. */
  function AddedJitter(xs: seq<real>): real {
    if |xs| == 0 then 0.0 else AddedJitter(xs[..|xs| - 1]) + Estimated(xs).value
  }

  function Ticks(es: seq<Event>): nat {
    if |es| == 0 then 0 else Ticks(es[..|es| - 1]) + if es[|es| - 1].Tick? then 1 else 0
  }

  /** How many events there were up to the last tick. */
  function SlotStart(es: seq<Event>): (n: nat)
    ensures n <= |es|
  {
    if |es| == 0 then 0 else if es[|es| - 1].Tick? then |es| else SlotStart(es[..|es| - 1])
  }

  /** The client estimates jitter from round-trip times, the server from delays. `first` is
      what the delay sum of a connection's first slot starts from. */
  datatype Side = Client | Server(first: real)

  function Times(side: Side, ps: seq<Packet>): seq<real> {
    if side.Client? then Rtts(ps) else Delays(ps)
  }

  /** All that has counted so far: the arrivals that set a new highest number, their bytes
      and times, and the other arrivals, repeated or late. */
  function Counting(side: Side, es: seq<Event>): Content {
    var ps := Records(es);
    Content(|ps|, Size(ps), Highest(es), if side.Client? then Added(Rtts(ps)) else 0.0, Added(Delays(ps)),
            AddedJitter(Times(side, ps)), Arrivals(es) - |ps| - Repeats(es), Repeats(es))
  }

  function Minus(a: Content, b: Content): Content {
    Content(a.pkts - b.pkts, a.bytes - b.bytes, a.span - b.span, a.rtt - b.rtt, a.delay - b.delay,
            a.jitter - b.jitter, a.ooo - b.ooo, a.dup - b.dup)
  }

  /** What has counted since the last tick. */
  function InSlot(side: Side, es: seq<Event>): Content {
    var c := Minus(Counting(side, es), Counting(side, es[..SlotStart(es)]));
    if side.Server? && Ticks(es) == 0 then c.(delay := side.first + c.delay) else c
  }

  /** Packets and bytes that were sent. */
  datatype Load = Load(pkts: int, bytes: int)

  function SentInSlot(es: seq<Event>): Load {
    var now, before := Outgoing(es), Outgoing(es[..SlotStart(es)]);
    Load(|now| - |before|, Size(now) - Size(before))
  }

  // One event more

  /** What an arrival adds: a new highest number counts with its times, any other arrival is
      a repetition of the highest number or late. */
  function Gain(side: Side, h: seq<Event>, p: Packet): Content {
    var high := Highest(h);
    if p.num > high then
      Content(1, p.size, p.num - high, if side.Client? then p.rtt else 0.0, p.delay,
              Estimated(Times(side, Records(h) + [p])).value, 0, 0)
    else Content(0, 0, 0, 0.0, 0.0, 0.0, if p.num < high then 1 else 0, if p.num == high then 1 else 0)
  }

  function More(a: Content, b: Content): Content {
    Content(a.pkts + b.pkts, a.bytes + b.bytes, a.span + b.span, a.rtt + b.rtt, a.delay + b.delay,
            a.jitter + b.jitter, a.ooo + b.ooo, a.dup + b.dup)
  }

  lemma TimesOneMore(side: Side, ps: seq<Packet>, p: Packet)
    ensures Added(Rtts(ps + [p])) == Added(Rtts(ps)) + p.rtt
    ensures Added(Delays(ps + [p])) == Added(Delays(ps)) + p.delay
    ensures AddedJitter(Times(side, ps + [p])) == AddedJitter(Times(side, ps)) + Estimated(Times(side, ps + [p])).value
  {
    var rs, ds := Rtts(ps + [p]), Delays(ps + [p]);
    assert rs[..|ps|] == Rtts(ps) && ds[..|ps|] == Delays(ps);
    hide Estimated;
  }

  lemma CountingOneMore(side: Side, h: seq<Event>, p: Packet)
    ensures Counting(side, h + [Received(p)]) == More(Counting(side, h), Gain(side, h, p))
  {
    OneMoreArrival(h, p);
    hide Estimated, Added, AddedJitter, Times, Size, Arrivals, Repeats, Highest, Records, Outgoing, Incoming;
    if p.num > Highest(h) {
      SizeOneMore(Records(h), p);
      TimesOneMore(side, Records(h), p);
    }
  }

  lemma CountingIdle(side: Side, h: seq<Event>, e: Event)
    requires !e.Received?
    ensures Counting(side, h + [e]) == Counting(side, h)
    ensures Highest(h + [e]) == Highest(h) && Records(h + [e]) == Records(h)
  {
    assert (h + [e])[..|h|] == h;
    hide Size, Added, AddedJitter, Times;
  }

  /** An event that is no tick leaves the beginning of the slot where it is. */
  lemma SameSlot(h: seq<Event>, e: Event)
    requires !e.Tick?
    ensures var es := h + [e];
            && Ticks(es) == Ticks(h) && SlotStart(es) == SlotStart(h)
            && es[..SlotStart(es)] == h[..SlotStart(h)]
            && LastSent(es) == if e.Sent? then e.p.num else LastSent(h)
  {
    assert (h + [e])[..|h|] == h;
  }

  lemma NewSlot(h: seq<Event>)
    ensures var es := h + [Tick];
            Ticks(es) == Ticks(h) + 1 && SlotStart(es) == |es| && LastSent(es) == LastSent(h)
  {
    assert (h + [Tick])[..|h|] == h;
  }

  lemma NothingLeft(c: Content)
    ensures Minus(c, c) == Content(0, 0, 0, 0.0, 0.0, 0.0, 0, 0)
  {
  }

  lemma MoreLess(a: Content, b: Content, gain: Content)
    ensures Minus(More(a, gain), b) == More(Minus(a, b), gain)
  {
  }

  // The open slots of the client

  /** The open slots hold what has counted, and what was sent, since the last tick. */
  ghost predicate SlotsExact(s: Stats, es: seq<Event>) {
    && TxSlotOk(s.tx) && Held(s.rx) == InSlot(Client, es)
    && s.rx.lastSeen == Highest(es)
    && s.tx.lastSeen == LastSent(es)
    && Load(s.tx.pkts, s.tx.bytes) == SentInSlot(es)
    && s.tx.num == s.rx.num == Ticks(es)
    && s.jitter == Estimated(Rtts(Records(es)))
  }

  lemma InSlotReceived(side: Side, h: seq<Event>, p: Packet)
    ensures var es := h + [Received(p)];
            InSlot(side, es) == More(InSlot(side, h), Gain(side, h, p)) && SentInSlot(es) == SentInSlot(h)
  {
    hide Counting, Minus, Gain, Size, SlotStart, Ticks, LastSent, Arrivals, Repeats, Highest, Records, Outgoing;
    hide Incoming;
    OneMoreArrival(h, p);
    CountingOneMore(side, h, p);
    SameSlot(h, Received(p));
    MoreLess(Counting(side, h), Counting(side, h[..SlotStart(h)]), Gain(side, h, p));
  }

  lemma InSlotSent(side: Side, h: seq<Event>, p: Packet)
    ensures var es, before := h + [Sent(p)], SentInSlot(h);
            InSlot(side, es) == InSlot(side, h) && SentInSlot(es) == Load(before.pkts + 1, before.bytes + p.size)
  {
    var es := h + [Sent(p)];
    CountingIdle(side, h, Sent(p));
    SameSlot(h, Sent(p));
    assert es[..|h|] == h;
    assert Outgoing(es) == Outgoing(h) + [p];
    SizeOneMore(Outgoing(h), p);
    hide Counting, Minus, Size, SlotStart, Ticks, LastSent, Highest, Records, Outgoing;
  }

  lemma InSlotTick(side: Side, h: seq<Event>)
    ensures var es := h + [Tick];
            InSlot(side, es) == Content(0, 0, 0, 0.0, 0.0, 0.0, 0, 0) && SentInSlot(es) == Load(0, 0)
  {
    var es := h + [Tick];
    NewSlot(h);
    assert es[..|es|] == es;
    NothingLeft(Counting(side, es));
    hide Counting, Minus, Size, SlotStart, Ticks, LastSent, Highest, Records, Outgoing;
  }

  lemma HeldAfterReceived(s: Stats, h: seq<Event>, p: Packet)
    requires s.rx.lastSeen == Highest(h) && s.jitter == Estimated(Rtts(Records(h)))
    ensures var r := OnReceived(Sampled, s, p);
            && Held(r.rx) == More(Held(s.rx), Gain(Client, h, p))
            && r.rx.num == s.rx.num && r.tx == s.tx
            && r.rx.lastSeen == Highest(h + [Received(p)])
            && r.jitter == Estimated(Rtts(Records(h + [Received(p)])))
  {
    OneMoreArrival(h, p);
    EstimateOneMore(Records(h), p);
    hide Estimated, Smoothed, Arrivals, Repeats, Highest, Records, Outgoing, Incoming;
  }

  lemma SlotsAfterReceived(s: Stats, h: seq<Event>, p: Packet)
    requires SlotsExact(s, h)
    ensures SlotsExact(OnReceived(Sampled, s, p), h + [Received(p)])
  {
    HeldAfterReceived(s, h, p);
    InSlotReceived(Client, h, p);
    SameSlot(h, Received(p));
    hide InSlot, SentInSlot, More, Gain, Held, OnReceived, SlotStart, Ticks, LastSent, Highest, Estimated, Records;
  }

  lemma SlotsAfterSent(s: Stats, h: seq<Event>, p: Packet)
    requires SlotsExact(s, h)
    ensures SlotsExact(OnSent(Sampled, s, p), h + [Sent(p)])
  {
    hide InSlot, SentInSlot, Counting, SlotStart, Ticks, LastSent, Highest, Estimated, Records, Rtts, Held;
    InSlotSent(Client, h, p);
    SameSlot(h, Sent(p));
    CountingIdle(Client, h, Sent(p));
  }

  lemma SlotsAfterTick(s: Stats, h: seq<Event>)
    requires SlotsExact(s, h)
    ensures SlotsExact(s.(tx := Reopened(Tx, s.tx), rx := Reopened(Rx, s.rx)), h + [Tick])
  {
    InSlotTick(Client, h);
    NewSlot(h);
    CountingIdle(Client, h, Tick);
    hide InSlot, SentInSlot, Counting, SlotStart, Ticks, LastSent, Highest, Estimated, Records;
  }

  lemma InSlotNothing(side: Side, es: seq<Event>)
    requires |es| == 0
    ensures InSlot(side, es) == Content(0, 0, 0, 0.0, if side.Server? then side.first else 0.0, 0.0, 0, 0)
    ensures SentInSlot(es) == Load(0, 0)
  {
    assert es[..SlotStart(es)] == es;
    NothingLeft(Counting(side, es));
    hide Counting, Minus, Size;
  }

  lemma NoSlots(es: seq<Event>)
    requires |es| == 0
    ensures SlotsExact(NoStats(), es)
  {
    InSlotNothing(Client, es);
    hide InSlot, SentInSlot;
    assert |Records(es)| == 0;
    assert |Rtts(Records(es))| == 0;
    assert Estimated(Rtts(Records(es))) == Jitter(0.0, 0.0);
  }

  lemma {:induction false} OpenSlots(cfg: Config, es: seq<Event>)
    requires cfg.mode.Sampled?
    ensures SlotsExact(After(cfg, es).stats, es)
    decreases |es|
  {
    hide SlotsExact, OnReceived, OnSent, Reopened, Closing;
    if |es| == 0 {
      NoSlots(es);
    } else {
      var h, e := es[..|es| - 1], es[|es| - 1];
      assert es == h + [e];
      OpenSlots(cfg, h);
      var s := After(cfg, h).stats;
      match e {
        case Received(p) => SlotsAfterReceived(s, h, p);
        case Sent(p) => SlotsAfterSent(s, h, p);
        case Tick => SlotsAfterTick(s, h);
      }
    }
  }

  // The printed records

  /** The record of a direction in which packets were sent. */
  predicate TellsSent(t: Record, number: nat, sent: Load) {
    t == Record(Tx, number, t.pkts, t.bytes, 0, 0.0, 0.0, 0.0, 0.0, 0, 0) && Load(t.pkts, t.bytes) == sent
  }

  /** The server divides the mean delay and jitter by 10^6. */
  function Unit(side: Side): real {
    if side.Client? then 1.0 else 1_000_000.0
  }

  /** The two records of the tick that follows the events `es`. */
  ghost predicate TickReport(side: Side, t: Record, r: Record, es: seq<Event>) {
    var c := InSlot(side, es);
    && TellsSent(t, Ticks(es) + 1, SentInSlot(es))
    && r.num == Ticks(es) + 1
    && (if c.pkts > 0 then Tells(r, c, Unit(side)) else Blank(r, Rx, LastSent(es) > Highest(es)))
  }

  lemma TickTells(s: Stats, es: seq<Event>)
    requires RxSlotOk(s.rx) && SlotsExact(s, es)
    ensures TickReport(Client, Closing(Tx, s.tx, s.tx), Closing(Rx, s.rx, Reopened(Tx, s.tx)), es)
  {
    hide InSlot, SentInSlot, Ticks, LastSent, Highest, Estimated, Records;
    if s.rx.pkts > 0 {
      RecordTells(s.rx, s.rx.num + 1);
      assert RxRecord(s.rx, s.rx.num + 1).num == s.rx.num + 1;
      hide RxRecord, Tells;
    }
  }

  /** Two records for each tick, in order. */
  ghost predicate TicksReported(side: Side, rs: seq<Record>, es: seq<Event>) {
    && |rs| == 2 * Ticks(es)
    && forall i :: 0 <= i < |es| && es[i].Tick? ==> ReportedAt(side, rs, es, i)
  }

  ghost predicate ReportedAt(side: Side, rs: seq<Record>, es: seq<Event>, i: nat)
    requires i < |es|
  {
    var k := 2 * Ticks(es[..i]);
    k + 1 < |rs| && TickReport(side, rs[k], rs[k + 1], es[..i])
  }

  lemma ReportsKept(side: Side, rs: seq<Record>, more: seq<Record>, h: seq<Event>, e: Event, i: nat)
    requires i < |h| && ReportedAt(side, rs, h, i)
    ensures ReportedAt(side, rs + more, h + [e], i)
  {
    hide TickReport, Ticks;
    assert (h + [e])[..i] == h[..i];
  }

  lemma NewReport(side: Side, rs: seq<Record>, t: Record, r: Record, h: seq<Event>)
    requires |rs| == 2 * Ticks(h) && TickReport(side, t, r, h)
    ensures ReportedAt(side, rs + [t, r], h + [Tick], |h|)
  {
    hide TickReport, Ticks;
    assert (h + [Tick])[..|h|] == h;
    var all := rs + [t, r];
    assert all[|rs|] == t && all[|rs| + 1] == r;
  }

  lemma ReportStep(side: Side, rs: seq<Record>, more: seq<Record>, h: seq<Event>, e: Event)
    requires TicksReported(side, rs, h)
    requires if e.Tick? then |more| == 2 && TickReport(side, more[0], more[1], h) else more == []
    ensures TicksReported(side, rs + more, h + [e])
  {
    hide TickReport, Ticks, ReportedAt, SlotStart, LastSent;
    var es := h + [e];
    if e.Tick? {
      NewSlot(h);
    } else {
      SameSlot(h, e);
    }
    forall i | 0 <= i < |es| && es[i].Tick?
      ensures ReportedAt(side, rs + more, es, i)
    {
      if i < |h| {
        assert h[i].Tick?;
        ReportsKept(side, rs, more, h, e, i);
      } else {
        NewReport(side, rs, more[0], more[1], h);
        assert [more[0], more[1]] == more;
      }
    }
  }

  /** The records that one event prints. */
  lemma FeedPrints(cfg: Config, l: Ledger, e: Event)
    requires cfg.mode.Sampled? && !cfg.silent && RxSlotOk(l.stats.rx)
    ensures var s := l.stats;
            Feed(cfg, l, e).records == l.records +
              if e.Tick? then [Closing(Tx, s.tx, s.tx), Closing(Rx, s.rx, Reopened(Tx, s.tx))] else []
  {
    hide Closing, Reopened, OnReceived, OnSent;
  }

  lemma {:induction false} ClientTicks(cfg: Config, es: seq<Event>)
    requires cfg.mode.Sampled? && !cfg.silent
    ensures TicksReported(Client, After(cfg, es).records, es)
    decreases |es|
  {
    if |es| == 0 {
    } else {
      hide TicksReported, TickReport, SlotsExact, Closing, Reopened, Feed;
      var h, e := es[..|es| - 1], es[|es| - 1];
      assert es == h + [e];
      ClientTicks(cfg, h);
      var l := After(cfg, h);
      FeedPrints(cfg, l, e);
      if e.Tick? {
        var s := l.stats;
        OpenSlots(cfg, h);
        TickTells(s, h);
        ReportStep(Client, l.records, [Closing(Tx, s.tx, s.tx), Closing(Rx, s.rx, Reopened(Tx, s.tx))], h, e);
      } else {
        ReportStep(Client, l.records, [], h, e);
      }
    }
  }

  /** The last records, after the events `es`: the sent slot if it has packets; the received
      one if it has, or otherwise as lost if the sent slot has. */
  ghost predicate FinalReport(fs: seq<Record>, es: seq<Event>) {
    var c, sent := InSlot(Client, es), SentInSlot(es);
    && |fs| == (if sent.pkts > 0 then 1 else 0) + (if c.pkts > 0 || sent.pkts > 0 then 1 else 0)
    && (sent.pkts > 0 ==> TellsSent(fs[0], Ticks(es) + 1, sent))
    && (c.pkts > 0 || sent.pkts > 0 ==>
          var r := fs[|fs| - 1];
          r.num == Ticks(es) + 1 && if c.pkts > 0 then Tells(r, c, 1.0) else Blank(r, Rx, true))
  }

  lemma FinalTells(cfg: Config, l: Ledger, es: seq<Event>)
    requires !cfg.silent && RxSlotOk(l.stats.rx) && SlotsExact(l.stats, es)
    ensures |l.records| <= |OnClose(cfg, l).records| && OnClose(cfg, l).records[..|l.records|] == l.records
    ensures FinalReport(OnClose(cfg, l).records[|l.records|..], es)
  {
    var s := l.stats;
    hide InSlot, SentInSlot, Ticks, LastSent, Highest, Estimated, Records;
    if s.rx.pkts > 0 {
      RecordTells(s.rx, s.rx.num + 1);
      hide RxRecord, Tells;
    }
  }

  /** The report of a run, record by record, from the events alone: two records at each tick
      and the final ones. Each says what was sent, or what has counted, since the tick before
      it: packets, bytes, the numbers missed in its span, the mean times, and the late and
      the repeated arrivals. A slot without packets says nothing but whether all is lost. */
  lemma ClientReport(cfg: Config, es: seq<Event>)
    requires cfg.mode.Sampled? && !cfg.silent
    ensures var rs, n := OnClose(cfg, After(cfg, es)).records, 2 * Ticks(es);
            n <= |rs| && TicksReported(Client, rs[..n], es) && FinalReport(rs[n..], es)
  {
    ClientTicks(cfg, es);
    OpenSlots(cfg, es);
    FinalTells(cfg, After(cfg, es), es);
    hide After, OnClose, FinalReport, ReportedAt, SlotsExact;
  }

  /** In silent mode nothing is printed. */
  lemma {:induction false} SilentPrintsNothing(cfg: Config, es: seq<Event>)
    requires cfg.mode.Sampled? && cfg.silent
    ensures OnClose(cfg, After(cfg, es)).records == []
    decreases |es|
  {
    if |es| == 0 {
    } else {
      SilentPrintsNothing(cfg, es[..|es| - 1]);
      hide OnReceived, OnSent, Reopened, Closing;
    }
  }

  // Late and repeated arrivals in the printed slots

  /** The late and repeated arrivals that the records name. */
  function Named(rs: seq<Record>): nat {
    if |rs| == 0 then 0 else Named(rs[..|rs| - 1]) + rs[|rs| - 1].ooo + rs[|rs| - 1].dup
  }

  lemma {:induction false} NamedMore(rs: seq<Record>, more: seq<Record>)
    ensures Named(rs + more) == Named(rs) + Named(more)
    decreases |more|
  {
    if |more| == 0 {
      assert rs + more == rs;
    } else {
      NamedMore(rs, more[..|more| - 1]);
      assert (rs + more)[..|rs + more| - 1] == rs + more[..|more| - 1];
    }
  }

  lemma NamedTwo(t: Record, r: Record)
    ensures Named([t, r]) == t.ooo + t.dup + r.ooo + r.dup
  {
    var rs := [t, r];
    assert rs[..1] == [t] && [t][..0] == [];
    assert Named([t]) == t.ooo + t.dup;
  }

  /** What the record of a slot that holds `c` does not name: without packets it prints zeros. */
  function Unnamed(c: Content): int {
    if c.pkts == 0 then c.ooo + c.dup else 0
  }

  /** The same for all closed slots. */
  function ClosedUnnamed(es: seq<Event>): int {
    if |es| == 0 then 0
    else
      var h := es[..|es| - 1];
      ClosedUnnamed(h) + if es[|es| - 1].Tick? then Unnamed(InSlot(Client, h)) else 0
  }

  ghost predicate NamedOrNot(l: Ledger, unnamed: int) {
    Named(l.records) + unnamed + l.stats.rx.ooo + l.stats.rx.dup == l.stats.ooo + l.stats.dup
  }

  lemma NamedStep(cfg: Config, l: Ledger, h: seq<Event>, e: Event, unnamed: int)
    requires cfg.mode.Sampled? && !cfg.silent && RxSlotOk(l.stats.rx) && SlotsExact(l.stats, h)
    requires NamedOrNot(l, unnamed)
    ensures NamedOrNot(Feed(cfg, l, e), unnamed + if e.Tick? then Unnamed(InSlot(Client, h)) else 0)
  {
    hide InSlot, SentInSlot, Ticks, LastSent, Highest, Estimated, Records, Smoothed, Loss, Named;
    FeedPrints(cfg, l, e);
    var s := l.stats;
    if e.Tick? {
      assert Unnamed(InSlot(Client, h)) == Unnamed(Held(s.rx));
      var t, r := Closing(Tx, s.tx, s.tx), Closing(Rx, s.rx, Reopened(Tx, s.tx));
      NamedMore(l.records, [t, r]);
      NamedTwo(t, r);
    } else {
      assert l.records + [] == l.records;
    }
  }

  lemma {:induction false} NamedSoFar(cfg: Config, es: seq<Event>)
    requires cfg.mode.Sampled? && !cfg.silent
    ensures NamedOrNot(After(cfg, es), ClosedUnnamed(es))
    decreases |es|
  {
    if |es| == 0 {
    } else {
      hide NamedOrNot, SlotsExact, Feed, Unnamed;
      var h, e := es[..|es| - 1], es[|es| - 1];
      assert es == h + [e];
      NamedSoFar(cfg, h);
      OpenSlots(cfg, h);
      NamedStep(cfg, After(cfg, h), h, e, ClosedUnnamed(h));
    }
  }

  /** A slot with late or repeated arrivals has a packet too. */
  ghost predicate SpeaksFor(es: seq<Event>) {
    var c := InSlot(Client, es);
    c.pkts > 0 || (c.ooo == 0 && c.dup == 0)
  }

  ghost predicate ClosedSpeak(es: seq<Event>) {
    forall i :: 0 <= i < |es| && es[i].Tick? ==> SpeaksFor(es[..i])
  }

  lemma ClosedSpeakStep(h: seq<Event>, e: Event)
    ensures ClosedSpeak(h + [e]) <==> ClosedSpeak(h) && (e.Tick? ==> SpeaksFor(h))
  {
    hide SpeaksFor;
    var es := h + [e];
    assert es[..|h|] == h && es[|h|] == e;
    forall i | 0 <= i < |h|
      ensures es[..i] == h[..i] && es[i] == h[i]
    {
    }
    if ClosedSpeak(es) {
      forall i | 0 <= i < |h| && h[i].Tick?
        ensures SpeaksFor(h[..i])
      {
        assert es[i].Tick? && es[..i] == h[..i];
      }
    }
  }

  lemma UnnamedNat(cfg: Config, es: seq<Event>)
    requires cfg.mode.Sampled?
    ensures Unnamed(InSlot(Client, es)) >= 0
    ensures Unnamed(InSlot(Client, es)) == 0 <==> SpeaksFor(es)
  {
    OpenSlots(cfg, es);
    assert Held(After(cfg, es).stats.rx) == InSlot(Client, es);
    hide InSlot, SlotsExact, After;
  }

  lemma {:induction false} AllNamed(cfg: Config, es: seq<Event>)
    requires cfg.mode.Sampled?
    ensures ClosedUnnamed(es) >= 0
    ensures ClosedUnnamed(es) == 0 <==> ClosedSpeak(es)
    decreases |es|
  {
    if |es| == 0 {
    } else {
      hide InSlot, SpeaksFor, Unnamed;
      var h, e := es[..|es| - 1], es[|es| - 1];
      assert es == h + [e];
      AllNamed(cfg, h);
      UnnamedNat(cfg, h);
      ClosedSpeakStep(h, e);
      hide ClosedSpeak;
    }
  }

  lemma FinalsName(cfg: Config, l: Ledger)
    requires !cfg.silent && RxSlotOk(l.stats.rx)
    ensures var s := l.stats;
            Named(OnClose(cfg, l).records) == Named(l.records) + if s.rx.pkts > 0 then s.rx.ooo + s.rx.dup else 0
  {
    var s := l.stats;
    var t, r := TxRecord(s.tx, s.tx.num + 1), if s.rx.pkts > 0 then RxRecord(s.rx, s.rx.num + 1)
                                              else EmptyRecord(Rx, s.rx.num + 1, 1.0);
    var more := if s.tx.pkts > 0 then [t, r] else if s.rx.pkts > 0 then [r] else [];
    assert OnClose(cfg, l).records == l.records + more;
    hide Loss;
    NamedMore(l.records, more);
    NamedTwo(t, r);
    assert [r][..0] == [];
  }

  /** The printed records name all late and repeated arrivals of the run exactly when each
      slot that had such an arrival also had a packet: an empty slot prints zeros. */
  lemma LateOnesNamed(cfg: Config, es: seq<Event>)
    requires cfg.mode.Sampled? && !cfg.silent
    ensures var s, rs := After(cfg, es).stats, OnClose(cfg, After(cfg, es)).records;
            && Named(rs) <= s.ooo + s.dup
            && (Named(rs) == s.ooo + s.dup <==> ClosedSpeak(es) && SpeaksFor(es))
  {
    var l := After(cfg, es);
    NamedSoFar(cfg, es);
    AllNamed(cfg, es);
    UnnamedNat(cfg, es);
    OpenSlots(cfg, es);
    assert Held(l.stats.rx) == InSlot(Client, es);
    FinalsName(cfg, l);
    hide After, OnClose, Named, ClosedUnnamed, ClosedSpeak, SpeaksFor, SlotsExact, InSlot;
  }
}
