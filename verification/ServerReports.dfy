/** What each slot record of a server connection says, from the events of its slot alone. */
module ServerReports {
  import opened SlotStats
  import opened JitterEstimate
  import opened ClientStats
  import opened SlotReports
  import opened ServerStats

  /** The side of a connection whose first slot starts from what `b` has left over. */
  function SideOf(b: ConnStats): Side {
    Server(b.rx.delaySum)
  }

  /** The open slots hold what has counted, and what was sent, since the last tick. */
  ghost predicate ConnSlotsExact(side: Side, s: ConnStats, es: seq<Event>) {
    && TxSlotOk(s.tx) && Held(s.rx) == InSlot(side, es)
    && s.rx.lastSeen == Highest(es)
    && s.tx.lastSeen == LastSent(es)
    && Load(s.tx.pkts, s.tx.bytes) == SentInSlot(es)
    && s.tx.num == s.rx.num == Ticks(es)
    && s.jitter == Estimated(Delays(Records(es)))
  }

  lemma ConnHeldAfterReceived(v: View, side: Side, s: ConnStats, h: seq<Event>, p: Packet)
    requires Filters(v) && side.Server?
    requires s.rx.lastSeen == Highest(h) && s.jitter == Estimated(Delays(Records(h)))
    ensures var r := ConnReceived(v, s, p);
            && Held(r.rx) == More(Held(s.rx), Gain(side, h, p))
            && r.rx.num == s.rx.num && r.tx == s.tx
            && r.rx.lastSeen == Highest(h + [Received(p)])
            && r.jitter == Estimated(Delays(Records(h + [Received(p)])))
  {
    OneMoreArrival(h, p);
    DelayOneMore(Records(h), p);
    hide Estimated, Smoothed, Arrivals, Repeats, Highest, Records, Outgoing, Incoming;
  }

  lemma SlotsAfterReceived(v: View, side: Side, s: ConnStats, h: seq<Event>, p: Packet)
    requires Filters(v) && side.Server? && ConnSlotsExact(side, s, h)
    ensures ConnSlotsExact(side, ConnReceived(v, s, p), h + [Received(p)])
  {
    hide InSlot, SentInSlot, More, Gain, Held, ConnReceived, SlotStart, Ticks, LastSent, Highest, Estimated, Records;
    hide Delays;
    ConnHeldAfterReceived(v, side, s, h, p);
    InSlotReceived(side, h, p);
    SameSlot(h, Received(p));
  }

  lemma SlotsAfterSent(v: View, side: Side, s: ConnStats, h: seq<Event>, p: Packet)
    requires Filters(v) && side.Server? && ConnSlotsExact(side, s, h)
    ensures ConnSlotsExact(side, ConnSent(v, s, p), h + [Sent(p)])
  {
    hide InSlot, SentInSlot, Counting, SlotStart, Ticks, LastSent, Highest, Estimated, Records, Delays, Held;
    InSlotSent(side, h, p);
    SameSlot(h, Sent(p));
    CountingIdle(side, h, Sent(p));
  }

  lemma SlotsAfterTick(side: Side, s: ConnStats, h: seq<Event>)
    requires side.Server? && ConnSlotsExact(side, s, h)
    ensures ConnSlotsExact(side, s.(tx := Reopened(Tx, s.tx), rx := Reopened(Rx, s.rx)), h + [Tick])
  {
    hide InSlot, SentInSlot, Counting, SlotStart, Ticks, LastSent, Highest, Estimated, Records, Delays;
    InSlotTick(side, h);
    NewSlot(h);
    CountingIdle(side, h, Tick);
  }

  lemma FirstSlots(b: ConnStats, es: seq<Event>)
    requires Untouched(b) && |es| == 0
    ensures ConnSlotsExact(SideOf(b), b, es)
  {
    InSlotNothing(SideOf(b), es);
    hide InSlot, SentInSlot;
    assert |Records(es)| == 0;
    assert |Delays(Records(es))| == 0;
    assert Estimated(Delays(Records(es))) == Jitter(0.0, 0.0);
  }

  lemma {:induction false} ConnOpenSlots(v: View, b: ConnStats, es: seq<Event>)
    requires Filters(v) && Prints(v) && Untouched(b)
    ensures ConnSlotsExact(SideOf(b), ConnAfter(v, b, es).stats, es)
    decreases |es|
  {
    hide ConnSlotsExact, ConnReceived, ConnSent, Reopened, Closing, Scaled;
    if |es| == 0 {
      FirstSlots(b, es);
    } else {
      var h, e := es[..|es| - 1], es[|es| - 1];
      assert es == h + [e];
      ConnOpenSlots(v, b, h);
      var s := ConnAfter(v, b, h).stats;
      match e {
        case Received(p) => SlotsAfterReceived(v, SideOf(b), s, h, p);
        case Sent(p) => SlotsAfterSent(v, SideOf(b), s, h, p);
        case Tick => SlotsAfterTick(SideOf(b), s, h);
      }
    }
  }

  lemma NoTimes(side: Side, es: seq<Event>)
    requires side.Server?
    ensures InSlot(side, es).rtt == 0.0
  {
    hide Size, Added, AddedJitter, Ticks, SlotStart, Records, Highest, Arrivals, Repeats;
  }

  lemma ConnTickTells(side: Side, s: ConnStats, es: seq<Event>)
    requires side.Server? && RxSlotOk(s.rx) && ConnSlotsExact(side, s, es)
    ensures TickReport(side, Closing(Tx, s.tx, s.tx), Scaled(Closing(Rx, s.rx, Reopened(Tx, s.tx))), es)
  {
    NoTimes(side, es);
    hide InSlot, SentInSlot, Ticks, LastSent, Highest, Estimated, Records, Delays;
    if s.rx.pkts > 0 {
      SlotTells(s.rx);
      hide RxRecord, Tells, Scaled;
    }
  }

  lemma SlotTells(s: Slot)
    requires RxSlotOk(s) && s.pkts > 0
    ensures var r := Scaled(RxRecord(s, s.num + 1));
            Tells(r, Held(s).(rtt := 0.0), 1_000_000.0) && r.num == s.num + 1
  {
    RecordTells(s, s.num + 1);
    ScaledTells(RxRecord(s, s.num + 1), Held(s));
    assert Scaled(RxRecord(s, s.num + 1)).num == s.num + 1;
    hide Tells, Held, RxRecord, Scaled;
  }

  /** The records that one event prints. */
  lemma ConnFeedPrints(v: View, l: ConnLedger, e: Event)
    requires Filters(v) && Prints(v) && RxSlotOk(l.stats.rx)
    ensures var s := l.stats;
            ConnFeed(v, l, e).records == l.records +
              if e.Tick? then [Closing(Tx, s.tx, s.tx), Scaled(Closing(Rx, s.rx, Reopened(Tx, s.tx)))] else []
  {
    hide Closing, Reopened, Scaled, ConnReceived, ConnSent;
  }

  lemma {:induction false} ServerTicks(v: View, b: ConnStats, es: seq<Event>)
    requires Filters(v) && Prints(v) && Untouched(b)
    ensures TicksReported(SideOf(b), ConnAfter(v, b, es).records, es)
    decreases |es|
  {
    if |es| == 0 {
    } else {
      hide TicksReported, TickReport, ConnSlotsExact, Closing, Reopened, Scaled, ConnFeed;
      var h, e := es[..|es| - 1], es[|es| - 1];
      assert es == h + [e];
      ServerTicks(v, b, h);
      var l := ConnAfter(v, b, h);
      ConnFeedPrints(v, l, e);
      if e.Tick? {
        var s := l.stats;
        ConnOpenSlots(v, b, h);
        ConnTickTells(SideOf(b), s, h);
        var r := Scaled(Closing(Rx, s.rx, Reopened(Tx, s.tx)));
        ReportStep(SideOf(b), l.records, [Closing(Tx, s.tx, s.tx), r], h, e);
      } else {
        ReportStep(SideOf(b), l.records, [], h, e);
      }
    }
  }

  /** The last records, after the events `es`: the received slot if it has packets; the sent
      one if it has, or otherwise an empty one if the received slot has. */
  ghost predicate ConnFinalReport(side: Side, fs: seq<Record>, es: seq<Event>) {
    var c, sent := InSlot(side, es), SentInSlot(es);
    && |fs| == (if sent.pkts > 0 || c.pkts > 0 then 1 else 0) + (if c.pkts > 0 then 1 else 0)
    && (sent.pkts > 0 || c.pkts > 0 ==>
          && fs[0].num == Ticks(es) + 1
          && if sent.pkts > 0 then TellsSent(fs[0], Ticks(es) + 1, sent) else Blank(fs[0], Tx, false))
    && (c.pkts > 0 ==> fs[1].num == Ticks(es) + 1 && Tells(fs[1], c, Unit(side)))
  }

  /** The records that closing a connection prints. */
  function ConnFinals(s: ConnStats): seq<Record>
    requires RxSlotOk(s.rx)
  {
    var t := if s.tx.pkts > 0 then TxRecord(s.tx, s.tx.num + 1) else EmptyRecord(Tx, s.tx.num + 1, 0.0);
    if s.rx.pkts > 0 then [t, Scaled(RxRecord(s.rx, s.rx.num + 1))] else if s.tx.pkts > 0 then [t] else []
  }

  lemma ClosedPrints(v: View, l: ConnLedger)
    requires Prints(v) && RxSlotOk(l.stats.rx)
    ensures ConnClosed(v, l).records == l.records + ConnFinals(l.stats)
  {
    hide TxRecord, RxRecord, Scaled, EmptyRecord;
  }

  lemma ConnFinalTells(side: Side, s: ConnStats, es: seq<Event>)
    requires side.Server? && RxSlotOk(s.rx) && ConnSlotsExact(side, s, es)
    ensures ConnFinalReport(side, ConnFinals(s), es)
  {
    NoTimes(side, es);
    hide InSlot, SentInSlot, Ticks, LastSent, Highest, Estimated, Records, Delays;
    if s.rx.pkts > 0 {
      SlotTells(s.rx);
      hide RxRecord, Tells, Scaled;
    }
  }

  /** The report of a connection with an open output file, record by record, from the events
      alone. As on the client each record says what was sent, or what has counted, since the
      tick before it; but the mean delay and jitter come out a million times too small, and
      the delay of the first slot starts from whatever was left in the field. */
  lemma ConnReport(v: View, b: ConnStats, es: seq<Event>)
    requires Filters(v) && Prints(v) && Untouched(b)
    ensures var rs, n := ConnClosed(v, ConnAfter(v, b, es)).records, 2 * Ticks(es);
            && n <= |rs|
            && TicksReported(SideOf(b), rs[..n], es)
            && ConnFinalReport(SideOf(b), rs[n..], es)
  {
    ServerTicks(v, b, es);
    ConnOpenSlots(v, b, es);
    ConnFinalTells(SideOf(b), ConnAfter(v, b, es).stats, es);
    ClosedPrints(v, ConnAfter(v, b, es));
    hide ConnAfter, ConnClosed, ConnFinalReport, ReportedAt, ConnSlotsExact, ConnFinals;
  }

  lemma {:induction false} SilentSlotsStayEmpty(v: View, b: ConnStats, es: seq<Event>)
    requires v.silent && RxSlotOk(b.rx) && b.rx.pkts == 0 && b.tx.pkts == 0
    ensures var l := ConnAfter(v, b, es); l.records == [] && l.stats.rx.pkts == 0 && l.stats.tx.pkts == 0
    decreases |es|
  {
    if |es| == 0 {
    } else {
      SilentSlotsStayEmpty(v, b, es[..|es| - 1]);
      hide Closing, Scaled;
    }
  }

  /** A silent server prints no slot, also where the connection has an open output file. */
  lemma SilentServerPrintsNothing(v: View, b: ConnStats, es: seq<Event>)
    requires v.silent && Untouched(b)
    ensures ConnClosed(v, ConnAfter(v, b, es)).records == []
  {
    SilentSlotsStayEmpty(v, b, es);
    hide ConnAfter, RxRecord, TxRecord, Scaled;
  }
}
