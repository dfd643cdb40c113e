/** The per-connection counters of the server, fed by its main queue. */
module ServerStats {
  import opened SlotStats
  import opened JitterEstimate
  import opened ClientStats

  /** The accounting fields of a connection. */
  datatype ConnStats = ConnStats(
    tx: Slot,
    rx: Slot,
    pktTx: nat,
    bytesTx: nat,
    pktRx: nat,
    bytesRx: nat,
    dup: nat,
    ooo: nat,
    jitter: Jitter)

  /** What the server leaves to chance when it creates a connection. */
  datatype Leftover = Leftover(dup: nat, ooo: nat, txDelay: real, rxDelay: real)

  datatype ConnLedger = ConnLedger(stats: ConnStats, records: seq<Record>)

  function NewConn(u: Leftover): ConnStats {
    ConnStats(EmptySlot().(delaySum := u.txDelay), EmptySlot().(delaySum := u.rxDelay),
              0, 0, 0, 0, u.dup, u.ooo, Jitter(0.0, 0.0))
  }

  /** What decides about slots and printing: the server's silent option, whether the
      connection has JSON output with a slot length, and whether its output file is open. */
  datatype View = View(silent: bool, slotted: bool, file: bool)

  predicate Filters(v: View) {
    !v.silent && v.slotted
  }

  predicate Prints(v: View) {
    v.slotted && v.file
  }

  /** A received packet. It counts for the connection before the filter of the slot looks
      at it, if there is a slot. */
  function ConnReceived(v: View, s: ConnStats, p: Packet): ConnStats {
    var s1 := s.(pktRx := s.pktRx + 1, bytesRx := s.bytesRx + p.size);
    if !Filters(v) then s1
    else if s.rx.lastSeen == p.num then s1.(dup := s.dup + 1, rx := s.rx.(dup := s.rx.dup + 1))
    else if s.rx.lastSeen > p.num then s1.(ooo := s.ooo + 1, rx := s.rx.(ooo := s.rx.ooo + 1))
    else
      var j := Smoothed(s.jitter, p.delay);
      s1.(jitter := j,
          rx := Counted(s.rx, p).(delaySum := s.rx.delaySum + p.delay, jitterSum := s.rx.jitterSum + j.value))
  }

  function ConnSent(v: View, s: ConnStats, p: Packet): ConnStats {
    s.(pktTx := s.pktTx + 1, bytesTx := s.bytesTx + p.size, tx := if Filters(v) then Counted(s.tx, p) else s.tx)
  }

  /** What the server prints of a record: the mean delay and jitter, which are milliseconds
      already, divided by 10^6 once more. It prints no round-trip time. */
  function Scaled(r: Record): Record {
    r.(rtt := 0.0, delay := r.delay / 1_000_000.0, jitter := r.jitter / 1_000_000.0)
  }

  lemma Unscaled(x: real)
    ensures 1_000_000.0 * (x / 1_000_000.0) == x
  {
  }

  lemma ScaledTells(r: Record, c: Content)
    requires Tells(r, c, 1.0)
    ensures Tells(Scaled(r), c.(rtt := 0.0), 1_000_000.0)
  {
    Unscaled(r.delay);
    Unscaled(r.jitter);
  }

  /** A tick closes both slots of a connection whose output file is open, and no others. */
  function ConnTick(v: View, l: ConnLedger): ConnLedger
    requires RxSlotOk(l.stats.rx)
  {
    if !Prints(v) then l
    else
      var s := l.stats;
      var s1 := s.(tx := Reopened(Tx, s.tx), rx := Reopened(Rx, s.rx));
      ConnLedger(s1, if v.silent then l.records
                     else l.records + [Closing(Tx, s.tx, s.tx)] + [Scaled(Closing(Rx, s.rx, s1.tx))])
  }

  function ConnFeed(v: View, l: ConnLedger, e: Event): (r: ConnLedger)
    requires RxSlotOk(l.stats.rx)
    ensures RxSlotOk(r.stats.rx)
  {
    match e
    case Sent(p) => l.(stats := ConnSent(v, l.stats, p))
    case Received(p) => l.(stats := ConnReceived(v, l.stats, p))
    case Tick => ConnTick(v, l)
  }

  /** Slots as a connection has them until the first packet is counted into one. */
  predicate Untouched(s: ConnStats) {
    && s.rx == EmptySlot().(delaySum := s.rx.delaySum)
    && s.tx == EmptySlot().(delaySum := s.tx.delaySum)
    && s.jitter == Jitter(0.0, 0.0)
  }

  /** The ledger of a connection after any messages and ticks from `b` on. As on the client,
      an open received slot with packets always has a positive span. */
  function ConnAfter(v: View, b: ConnStats, es: seq<Event>): (l: ConnLedger)
    requires RxSlotOk(b.rx)
    ensures RxSlotOk(l.stats.rx)
  {
    if |es| == 0 then ConnLedger(b, [])
    else ConnFeed(v, ConnAfter(v, b, es[..|es| - 1]), es[|es| - 1])
  }

  /** The last record of one direction; here an empty slot gets one when packets were
      received, not sent. */
  function ConnFlushed(dir: Direction, l: ConnLedger): ConnLedger
    requires RxSlotOk(l.stats.rx)
  {
    var s := l.stats;
    var slot := if dir.Tx? then s.tx else s.rx;
    var numbered := if dir.Tx? then s.(tx := slot.(num := slot.num + 1)) else s.(rx := slot.(num := slot.num + 1));
    if slot.pkts > 0 then
      var r := if dir.Rx? then Scaled(RxRecord(slot, slot.num + 1)) else TxRecord(slot, slot.num + 1);
      ConnLedger(numbered, l.records + [r])
    else if s.rx.pkts > 0 then
      ConnLedger(numbered, l.records + [EmptyRecord(dir, slot.num + 1, if dir.Rx? then 1.0 else 0.0)])
    else l
  }

  /** The end of a connection: nothing is printed without an open output file. */
  function ConnClosed(v: View, l: ConnLedger): ConnLedger
    requires RxSlotOk(l.stats.rx)
  {
    if Prints(v) then ConnFlushed(Rx, ConnFlushed(Tx, l)) else l
  }

  /** What a connection's counters are, said from its arrivals alone. */
  ghost predicate ConnExact(b: ConnStats, s: ConnStats, es: seq<Event>) {
    && s.rx.lastSeen == Highest(es)
    && s.pktRx - b.pktRx == Arrivals(es) == |Records(es)| + (s.dup - b.dup) + (s.ooo - b.ooo)
    && s.dup == b.dup + Repeats(es)
    && s.bytesRx - b.bytesRx == Size(Incoming(es))
    && s.pktTx - b.pktTx == |Outgoing(es)| && s.bytesTx - b.bytesTx == Size(Outgoing(es))
    && s.jitter == Estimated(Delays(Records(es)))
  }

  /** The totals count every packet from `b` on, whether the server is silent, has slots for
      the connection, or prints them. Without the filter nothing is late or repeated. */
  ghost predicate CountsAll(v: View, b: ConnStats, s: ConnStats, es: seq<Event>) {
    && s.pktRx - b.pktRx == Arrivals(es) && s.bytesRx - b.bytesRx == Size(Incoming(es))
    && s.pktTx - b.pktTx == |Outgoing(es)| && s.bytesTx - b.bytesTx == Size(Outgoing(es))
    && (!Filters(v) ==> s.dup == b.dup && s.ooo == b.ooo && s.jitter == b.jitter)
  }

  lemma {:induction false} TotalsCountAll(v: View, b: ConnStats, es: seq<Event>)
    requires RxSlotOk(b.rx)
    ensures CountsAll(v, b, ConnAfter(v, b, es).stats, es)
    decreases |es|
  {
    if |es| == 0 {
    } else {
      var h, e := es[..|es| - 1], es[|es| - 1];
      TotalsCountAll(v, b, h);
      match e {
        case Received(p) => SizeOneMore(Incoming(h), p);
        case Sent(p) => SizeOneMore(Outgoing(h), p);
        case Tick =>
      }
      hide Size, Smoothed, Closing, Scaled;
    }
  }

  lemma ConnExactReceived(v: View, b: ConnStats, s: ConnStats, h: seq<Event>, p: Packet)
    requires Filters(v) && ConnExact(b, s, h)
    ensures ConnExact(b, ConnReceived(v, s, p), h + [Received(p)])
  {
    OneMoreArrival(h, p);
    SizeOneMore(Incoming(h), p);
    hide Estimated, Smoothed, Size, Arrivals, Repeats, Highest, Records, Outgoing, Incoming;
    if p.num > Highest(h) {
      DelayOneMore(Records(h), p);
    }
  }

  lemma DelayOneMore(ps: seq<Packet>, p: Packet)
    ensures Estimated(Delays(ps + [p])) == Smoothed(Estimated(Delays(ps)), p.delay)
  {
    var ds := Delays(ps + [p]);
    assert ds[..|ds| - 1] == Delays(ps);
  }

  lemma ConnExactOther(v: View, b: ConnStats, l: ConnLedger, h: seq<Event>, e: Event)
    requires Filters(v) && ConnExact(b, l.stats, h) && !e.Received? && RxSlotOk(l.stats.rx)
    ensures ConnExact(b, ConnFeed(v, l, e).stats, h + [e])
  {
    var es := h + [e];
    assert es[..|es| - 1] == h;
    if e.Sent? {
      SizeOneMore(Outgoing(h), e.p);
    }
    hide Estimated, Size;
  }

  lemma {:induction false} ConnIsExact(v: View, b: ConnStats, es: seq<Event>)
    requires Filters(v) && Untouched(b)
    ensures ConnExact(b, ConnAfter(v, b, es).stats, es)
    decreases |es|
  {
    if |es| == 0 {
    } else {
      var h, e := es[..|es| - 1], es[|es| - 1];
      assert es == h + [e];
      ConnIsExact(v, b, h);
      if e.Received? {
        ConnExactReceived(v, b, ConnAfter(v, b, h).stats, h, e.p);
      } else {
        ConnExactOther(v, b, ConnAfter(v, b, h), h, e);
      }
      hide ConnExact;
    }
  }

  // Conservation over the slots

  /** `bytes` is what the packets that count have carried. */
  ghost predicate ConnBalanced(b: ConnStats, l: ConnLedger, bytes: nat) {
    var s := l.stats;
    && RxSlotOk(s.rx) && TxSlotOk(s.tx)
    && ConnCounts(b, s, bytes)
    && Books(l.records, TxClosed(b, s), RxClosed(b, s, bytes), s.tx.num, s.rx.num)
  }

  predicate ConnCounts(b: ConnStats, s: ConnStats, bytes: nat) {
    && b.pktTx + s.tx.pkts <= s.pktTx && b.bytesTx + s.tx.bytes <= s.bytesTx
    && b.dup <= s.dup && b.ooo <= s.ooo
    && s.pktRx >= b.pktRx + s.rx.pkts + (s.dup - b.dup) + (s.ooo - b.ooo)
    && s.rx.bytes <= bytes
  }

  /** What the printed records of sent and of received slots must add up to. */
  function TxClosed(b: ConnStats, s: ConnStats): Total
    requires b.pktTx + s.tx.pkts <= s.pktTx && b.bytesTx + s.tx.bytes <= s.bytesTx
  {
    Total(s.pktTx - b.pktTx - s.tx.pkts, s.bytesTx - b.bytesTx - s.tx.bytes, 0)
  }

  function RxClosed(b: ConnStats, s: ConnStats, bytes: nat): Total
    requires ConnCounts(b, s, bytes)
  {
    Total(s.pktRx - b.pktRx - s.rx.pkts - (s.dup - b.dup) - (s.ooo - b.ooo), bytes - s.rx.bytes, s.rx.firstSeq)
  }

  lemma ClosedAfterTick(b: ConnStats, s: ConnStats, bytes: nat)
    requires RxSlotOk(s.rx) && ConnCounts(b, s, bytes)
    ensures var t := s.(tx := Reopened(Tx, s.tx), rx := Reopened(Rx, s.rx));
            && ConnCounts(b, t, bytes)
            && TxClosed(b, t) == Plus(TxClosed(b, s), Total(s.tx.pkts, s.tx.bytes, 0))
            && RxClosed(b, t, bytes)
            == Plus(RxClosed(b, s, bytes), Total(s.rx.pkts, s.rx.bytes, s.rx.lastSeen - s.rx.firstSeq))
  {
  }

  lemma ConnTickBalanced(v: View, b: ConnStats, l: ConnLedger, bytes: nat)
    requires Filters(v) && Prints(v) && ConnBalanced(b, l, bytes)
    ensures ConnBalanced(b, ConnTick(v, l), bytes)
  {
    var s := l.stats;
    ClosedAfterTick(b, s, bytes);
    var t, r := Closing(Tx, s.tx, s.tx), Closing(Rx, s.rx, Reopened(Tx, s.tx));
    TickBooks(l.records, t, Scaled(r), s.tx, s.rx, TxClosed(b, s), RxClosed(b, s, bytes));
    hide Closing, Books, TxClosed, RxClosed, Plus, ConnCounts;
  }

  lemma ConnReceivedBalanced(v: View, b: ConnStats, l: ConnLedger, p: Packet, bytes: nat)
    requires Filters(v) && Prints(v) && ConnBalanced(b, l, bytes)
    ensures ConnBalanced(b, l.(stats := ConnReceived(v, l.stats, p)),
                         if p.num > l.stats.rx.lastSeen then bytes + p.size else bytes)
  {
    hide Books, Smoothed;
  }

  lemma ConnSentBalanced(v: View, b: ConnStats, l: ConnLedger, p: Packet, bytes: nat)
    requires Filters(v) && Prints(v) && ConnBalanced(b, l, bytes)
    ensures ConnBalanced(b, l.(stats := ConnSent(v, l.stats, p)), bytes)
  {
    hide Books;
    assert RxClosed(b, ConnSent(v, l.stats, p), bytes) == RxClosed(b, l.stats, bytes);
    assert TxClosed(b, ConnSent(v, l.stats, p)) == TxClosed(b, l.stats);
  }

  /** The bytes that an event adds to those of the packets that count. */
  function Gained(lastSeen: nat, e: Event): nat {
    if e.Received? && e.p.num > lastSeen then e.p.size else 0
  }

  lemma ConnFeedBalanced(v: View, b: ConnStats, l: ConnLedger, e: Event, bytes: nat)
    requires Filters(v) && Prints(v) && ConnBalanced(b, l, bytes)
    ensures ConnBalanced(b, ConnFeed(v, l, e), bytes + Gained(l.stats.rx.lastSeen, e))
  {
    assert RxSlotOk(l.stats.rx);
    match e {
      case Received(p) => ConnReceivedBalanced(v, b, l, p, bytes);
      case Sent(p) => ConnSentBalanced(v, b, l, p, bytes);
      case Tick => ConnTickBalanced(v, b, l, bytes);
    }
    hide ConnBalanced, ConnTick, ConnReceived, ConnSent;
  }

  lemma BytesOneMore(h: seq<Event>, e: Event)
    ensures Size(Records(h + [e])) == Size(Records(h)) + Gained(Highest(h), e)
  {
    if e.Received? {
      OneMoreArrival(h, e.p);
      SizeOneMore(Records(h), e.p);
    } else {
      assert (h + [e])[..|h|] == h;
    }
    hide Size, Highest;
  }

  /** With an open output file every packet that arrived is in a printed slot, in the open
      slot, or counted as a duplicate or as out of order; the received slots carry the bytes
      of the packets that count, and every reply is in a slot. */
  lemma {:induction false} ConnBalances(v: View, b: ConnStats, es: seq<Event>)
    requires Filters(v) && Prints(v) && Untouched(b)
    ensures ConnBalanced(b, ConnAfter(v, b, es), Size(Records(es)))
    decreases |es|
  {
    hide ConnBalanced, ConnFeed, Size, Records, Highest;
    if |es| == 0 {
      BaseBalanced(b);
      assert es == [];
    } else {
      var h, e := es[..|es| - 1], es[|es| - 1];
      assert es == h + [e];
      ConnBalances(v, b, h);
      HighestIsLastSeen(v, b, h);
      BytesOneMore(h, e);
      ConnFeedBalanced(v, b, ConnAfter(v, b, h), e, Size(Records(h)));
    }
  }

  lemma HighestIsLastSeen(v: View, b: ConnStats, es: seq<Event>)
    requires Filters(v) && Untouched(b)
    ensures ConnAfter(v, b, es).stats.rx.lastSeen == Highest(es)
  {
    ConnFacts(v, b, es);
    hide ConnAfter, Highest, Records, Arrivals, Outgoing, Size;
  }

  lemma BaseBalanced(b: ConnStats)
    requires Untouched(b)
    ensures ConnBalanced(b, ConnLedger(b, []), Size(Records([])))
  {
    NoRecords();
    hide Books;
  }

  lemma ConnFlushTxSettles(b: ConnStats, l: ConnLedger, bytes: nat)
    requires ConnBalanced(b, l, bytes)
    ensures var s, r := l.stats, ConnFlushed(Tx, l);
            && r.stats == s.(tx := s.tx.(num := r.stats.tx.num))
            && Books(r.records, Total(s.pktTx - b.pktTx, s.bytesTx - b.bytesTx, 0), RxClosed(b, s, bytes),
                     r.stats.tx.num, s.rx.num)
  {
    hide Books, RxClosed;
    var s := l.stats;
    if s.tx.pkts > 0 {
      OneMoreRecord(l.records, TxRecord(s.tx, s.tx.num + 1), TxClosed(b, s), RxClosed(b, s, bytes), s.tx.num, s.rx.num);
    } else if s.rx.pkts > 0 {
      var r := EmptyRecord(Tx, s.tx.num + 1, 0.0);
      OneMoreRecord(l.records, r, TxClosed(b, s), RxClosed(b, s, bytes), s.tx.num, s.rx.num);
    }
  }

  lemma ConnFlushRxSettles(l: ConnLedger, tx: Total, rx: Total)
    requires RxSlotOk(l.stats.rx) && rx.span == l.stats.rx.firstSeq
    requires Books(l.records, tx, rx, l.stats.tx.num, l.stats.rx.num)
    ensures var s, r := l.stats, ConnFlushed(Rx, l);
            && r.stats == s.(rx := s.rx.(num := r.stats.rx.num))
            && Books(r.records, tx, Total(rx.pkts + s.rx.pkts, rx.bytes + s.rx.bytes, s.rx.lastSeen),
                     s.tx.num, r.stats.rx.num)
  {
    hide Books;
    var s := l.stats;
    if s.rx.pkts > 0 {
      ClosingCounts(Rx, s.rx, s.tx);
      hide RxRecord;
      OneMoreRecord(l.records, Scaled(RxRecord(s.rx, s.rx.num + 1)), tx, rx, s.tx.num, s.rx.num);
    }
  }

  /** Closing prints what was open and changes no counter. */
  lemma ConnCloseSettles(v: View, b: ConnStats, l: ConnLedger, bytes: nat)
    requires Prints(v) && ConnBalanced(b, l, bytes)
    ensures var s, r := l.stats, ConnClosed(v, l);
            && r.stats == s.(tx := s.tx.(num := r.stats.tx.num), rx := s.rx.(num := r.stats.rx.num))
            && b.pktTx <= s.pktTx && b.bytesTx <= s.bytesTx
            && s.pktRx >= b.pktRx + (s.dup - b.dup) + (s.ooo - b.ooo)
            && Books(r.records, Total(s.pktTx - b.pktTx, s.bytesTx - b.bytesTx, 0),
                     Total(s.pktRx - b.pktRx - (s.dup - b.dup) - (s.ooo - b.ooo), bytes, s.rx.lastSeen),
                     r.stats.tx.num, r.stats.rx.num)
  {
    ConnFlushTxSettles(b, l, bytes);
    hide Books, ConnFlushed;
    var tx := Total(l.stats.pktTx - b.pktTx, l.stats.bytesTx - b.bytesTx, 0);
    ConnFlushRxSettles(ConnFlushed(Tx, l), tx, RxClosed(b, l.stats, bytes));
  }

  /** The report of a connection whose output file is open: its received slots hold exactly
      the packets that set a new highest number and their bytes, their spans add up to that
      number, the sent slots hold every reply, and what the received slots do not hold was
      counted as duplicate or out of order. All from `b` on. */
  lemma ServerReportAgrees(v: View, b: ConnStats, es: seq<Event>)
    requires Filters(v) && Prints(v) && Untouched(b)
    ensures var r := ConnClosed(v, ConnAfter(v, b, es));
            var s, tx, rx := r.stats, Sum(r.records, Tx), Sum(r.records, Rx);
            && tx.pkts == s.pktTx - b.pktTx == |Outgoing(es)|
            && tx.bytes == s.bytesTx - b.bytesTx == Size(Outgoing(es))
            && rx.pkts == |Records(es)| && rx.bytes == Size(Records(es)) && rx.span == Highest(es)
            && s.pktRx - b.pktRx == Arrivals(es) == rx.pkts + (s.dup - b.dup) + (s.ooo - b.ooo)
            && s.bytesRx - b.bytesRx == Size(Incoming(es))
            && Numbered(r.records, Tx, s.tx.num) && Numbered(r.records, Rx, s.rx.num)
            && LossesProper(r.records)
  {
    var l := ConnAfter(v, b, es);
    ConnFacts(v, b, es);
    ConnBalances(v, b, es);
    hide ConnAfter, ConnClosed, ConnBalanced, Books, Numbered, LossesProper, Sum;
    hide Highest, Records, Arrivals, Outgoing, Incoming, Size, Filters, Prints, Untouched;
    ConnCloseSettles(v, b, l, Size(Records(es)));
    var s, r := l.stats, ConnClosed(v, l);
    BooksSay(r.records, Total(s.pktTx - b.pktTx, s.bytesTx - b.bytesTx, 0),
             Total(s.pktRx - b.pktRx - (s.dup - b.dup) - (s.ooo - b.ooo), Size(Records(es)), s.rx.lastSeen),
             r.stats.tx.num, r.stats.rx.num);
  }

  lemma ConnFacts(v: View, b: ConnStats, es: seq<Event>)
    requires Filters(v) && Untouched(b)
    ensures var s := ConnAfter(v, b, es).stats;
            && s.rx.lastSeen == Highest(es)
            && s.pktRx - b.pktRx == Arrivals(es) == |Records(es)| + (s.dup - b.dup) + (s.ooo - b.ooo)
            && s.bytesRx - b.bytesRx == Size(Incoming(es))
            && s.pktTx - b.pktTx == |Outgoing(es)| && s.bytesTx - b.bytesTx == Size(Outgoing(es))
  {
    ConnIsExact(v, b, es);
    hide ConnAfter, Highest, Records, Arrivals, Outgoing, Incoming, Size, Repeats, Estimated, Delays;
  }

  // Connections that do not print

  /** Without an open output file nothing is ever printed about a slot. */
  lemma {:induction false} NoFileNoRecords(v: View, b: ConnStats, es: seq<Event>)
    requires RxSlotOk(b.rx) && !Prints(v)
    ensures ConnClosed(v, ConnAfter(v, b, es)).records == []
    decreases |es|
  {
    if |es| == 0 {
    } else {
      NoFileNoRecords(v, b, es[..|es| - 1]);
    }
  }

  /** The printed slots agree with what arrived and what was sent exactly when the output
      file is open, or there was nothing to print. */
  lemma PrintedSlotsAgree(v: View, b: ConnStats, es: seq<Event>)
    requires Filters(v) && Untouched(b)
    ensures var rs := ConnClosed(v, ConnAfter(v, b, es)).records;
            (Sum(rs, Rx).pkts == |Records(es)| && Sum(rs, Tx).pkts == |Outgoing(es)|)
            <==> v.file || (Records(es) == [] && Outgoing(es) == [])
  {
    if v.file {
      ServerReportAgrees(v, b, es);
    } else {
      NoFileNoRecords(v, b, es);
    }
    hide ConnAfter, ConnClosed, Records, Outgoing, Highest, Arrivals, Size, Numbered, LossesProper;
  }

  /** Until the settings of an invite are taken over there is no slot: packets only count. */
  lemma {:induction false} EarlyOnlyCounts(v: View, u: Leftover, early: seq<Event>)
    requires !v.slotted
    ensures var l := ConnAfter(v, NewConn(u), early);
            && Untouched(l.stats) && l.records == []
            && l.stats.pktRx == Arrivals(early) && l.stats.pktTx == |Outgoing(early)|
            && l.stats.bytesRx == Size(Incoming(early)) && l.stats.bytesTx == Size(Outgoing(early))
            && l.stats.rx.delaySum == u.rxDelay
            && l.stats.dup == u.dup && l.stats.ooo == u.ooo
    decreases |early|
  {
    if |early| == 0 {
    } else {
      var h, e := early[..|early| - 1], early[|early| - 1];
      EarlyOnlyCounts(v, u, h);
      if e.Sent? {
        SizeOneMore(Outgoing(h), e.p);
      } else if e.Received? {
        SizeOneMore(Incoming(h), e.p);
      }
      hide Size;
    }
  }

  /** A whole connection: packets before its settings were taken over, and from then on slots
      in an open file. The final counts are those of all packets; the slots hold the later
      ones, and the difference was early, duplicate or out of order. */
  lemma WholeConnection(silent: bool, v: View, u: Leftover, early: seq<Event>, es: seq<Event>)
    requires Filters(v) && Prints(v)
    ensures var b := ConnAfter(View(silent, false, v.file), NewConn(u), early).stats;
            var r := ConnClosed(v, ConnAfter(v, b, es));
            var rx, tx := Sum(r.records, Rx), Sum(r.records, Tx);
            && r.stats.pktRx == Arrivals(early) + Arrivals(es)
            && r.stats.pktTx == |Outgoing(early)| + |Outgoing(es)|
            && r.stats.bytesRx == Size(Incoming(early)) + Size(Incoming(es))
            && r.stats.bytesTx == Size(Outgoing(early)) + Size(Outgoing(es))
            && r.stats.pktRx == Arrivals(early) + rx.pkts + (r.stats.dup - u.dup) + (r.stats.ooo - u.ooo)
            && r.stats.pktTx == |Outgoing(early)| + tx.pkts
  {
    EarlyOnlyCounts(View(silent, false, v.file), u, early);
    ServerReportAgrees(v, ConnAfter(View(silent, false, v.file), NewConn(u), early).stats, es);
    hide ConnAfter, ConnClosed, Records, Outgoing, Incoming, Highest, Arrivals, Size, Numbered, LossesProper, Sum;
    hide Filters, Prints, Untouched;
  }
}
