/** The whole-run counters of the client and what any sequence of events does to them. */
module ClientStats {
  import opened SlotStats
  import opened JitterEstimate

  /** JSON with time slots, JSON with a record for each packet, or the ping text. */
  datatype Mode = Sampled | PerPacket | PingText

  datatype Config = Config(mode: Mode, silent: bool)

  /** The accounting fields of the broker; `lastText` is the text mode's `last_seen_seq`. */
  datatype Stats = Stats(
    tx: Slot,
    rx: Slot,
    pktTx: nat,
    bytesTx: nat,
    pktRx: nat,
    bytesRx: nat,
    dup: nat,
    ooo: nat,
    jitter: Jitter,
    lastText: nat)

  datatype Event =
    | Sent(p: Packet)
    | Received(p: Packet)
    | Tick

  datatype Ledger = Ledger(stats: Stats, records: seq<Record>)

  function NoStats(): Stats {
    Stats(EmptySlot(), EmptySlot(), 0, 0, 0, 0, 0, 0, Jitter(0.0, 0.0), 0)
  }

  /** A received packet that counts. */
  function Arrived(s: Stats, p: Packet): Stats {
    s.(pktRx := s.pktRx + 1, bytesRx := s.bytesRx + p.size, jitter := Smoothed(s.jitter, p.rtt))
  }

  function OnReceived(mode: Mode, s: Stats, p: Packet): Stats {
    match mode
    case Sampled =>
      if s.rx.lastSeen == p.num then s.(dup := s.dup + 1, rx := s.rx.(dup := s.rx.dup + 1))
      else if s.rx.lastSeen > p.num then s.(ooo := s.ooo + 1, rx := s.rx.(ooo := s.rx.ooo + 1))
      else Arrived(s, p).(rx := Accepted(s.rx, p, Smoothed(s.jitter, p.rtt).value))
    case PerPacket =>
      Arrived(s, p).(
        dup := if s.rx.lastSeen == p.num then s.dup + 1 else s.dup,
        ooo := if s.rx.lastSeen > p.num then s.ooo + 1 else s.ooo,
        rx := s.rx.(lastSeen := p.num))
    case PingText =>
      if s.lastText == p.num then s.(dup := s.dup + 1)
      else if s.lastText > p.num then s.(ooo := s.ooo + 1)
      else Arrived(s, p).(lastText := p.num)
  }

  function OnSent(mode: Mode, s: Stats, p: Packet): Stats {
    match mode
    case Sampled => s.(pktTx := s.pktTx + 1, bytesTx := s.bytesTx + p.size, tx := Counted(s.tx, p))
    case PerPacket => s.(pktTx := s.pktTx + 1, bytesTx := s.bytesTx + p.size, tx := s.tx.(lastSeen := p.num))
    case PingText => s.(pktTx := s.pktTx + 1)
  }

  /** A tick closes the sending slot, then the receiving one. */
  function OnTick(cfg: Config, l: Ledger): Ledger
    requires RxSlotOk(l.stats.rx) || cfg.silent
  {
    var s := l.stats;
    var s1 := s.(tx := Reopened(Tx, s.tx), rx := Reopened(Rx, s.rx));
    Ledger(s1, if cfg.silent then l.records
               else l.records + [Closing(Tx, s.tx, s.tx)] + [Closing(Rx, s.rx, s1.tx)])
  }

  /** The last record of one direction; a slot that stays empty still gets one when
      packets were sent in the other. */
  function Flushed(dir: Direction, l: Ledger): Ledger
    requires RxSlotOk(l.stats.rx)
  {
    var s := l.stats;
    var slot := if dir.Tx? then s.tx else s.rx;
    var numbered := if dir.Tx? then s.(tx := slot.(num := slot.num + 1)) else s.(rx := slot.(num := slot.num + 1));
    if slot.pkts > 0 then
      Ledger(numbered, l.records + [if dir.Rx? then RxRecord(slot, slot.num + 1) else TxRecord(slot, slot.num + 1)])
    else if s.tx.pkts > 0 then
      Ledger(numbered, l.records + [EmptyRecord(dir, slot.num + 1, if dir.Rx? then 1.0 else 0.0)])
    else l
  }

  function OnClose(cfg: Config, l: Ledger): Ledger
    requires RxSlotOk(l.stats.rx)
  {
    if cfg.silent then l else Flushed(Rx, Flushed(Tx, l))
  }

  /** One message. Without a slot length the slot timer is not started, so a record-per-packet
      run has no ticks. */
  function Feed(cfg: Config, l: Ledger, e: Event): (r: Ledger)
    requires !cfg.mode.PerPacket? ==> RxSlotOk(l.stats.rx)
    ensures !cfg.mode.PerPacket? ==> RxSlotOk(r.stats.rx)
  {
    match e
    case Sent(p) => l.(stats := OnSent(cfg.mode, l.stats, p))
    case Received(p) => l.(stats := OnReceived(cfg.mode, l.stats, p))
    case Tick => if cfg.mode.PerPacket? then l else OnTick(cfg, l)
  }

  /** The ledger after any sequence of events from the start of the run. An open received
      slot with packets in it always spans at least as many numbers: the division of its
      loss ratio is safe and the branch of the final record for a span of 0 is never taken. */
  function After(cfg: Config, es: seq<Event>): (l: Ledger)
    ensures !cfg.mode.PerPacket? ==> RxSlotOk(l.stats.rx)
  {
    if |es| == 0 then Ledger(NoStats(), [])
    else Feed(cfg, After(cfg, es[..|es| - 1]), es[|es| - 1])
  }

  // The independent reference: what should count, from the arrivals alone

  /** The highest sequence number that has arrived. */
  function Highest(es: seq<Event>): nat {
    if |es| == 0 then 0
    else
      var h, e := Highest(es[..|es| - 1]), es[|es| - 1];
      if e.Received? && e.p.num > h then e.p.num else h
  }

  /** The arrivals that set a new highest number. */
  function Records(es: seq<Event>): seq<Packet> {
    if |es| == 0 then []
    else
      var h, e := es[..|es| - 1], es[|es| - 1];
      if e.Received? && e.p.num > Highest(h) then Records(h) + [e.p] else Records(h)
  }

  function Outgoing(es: seq<Event>): seq<Packet> {
    if |es| == 0 then []
    else
      var h, e := es[..|es| - 1], es[|es| - 1];
      if e.Sent? then Outgoing(h) + [e.p] else Outgoing(h)
  }

  /** All arrivals, in order. */
  function Incoming(es: seq<Event>): seq<Packet> {
    if |es| == 0 then []
    else
      var h, e := es[..|es| - 1], es[|es| - 1];
      if e.Received? then Incoming(h) + [e.p] else Incoming(h)
  }

  /** The number of the packet sent last. */
  function LastSent(es: seq<Event>): nat {
    if |es| == 0 then 0
    else if es[|es| - 1].Sent? then es[|es| - 1].p.num else LastSent(es[..|es| - 1])
  }

  function Arrivals(es: seq<Event>): nat {
    if |es| == 0 then 0
    else Arrivals(es[..|es| - 1]) + if es[|es| - 1].Received? then 1 else 0
  }

  /** Arrivals that repeat the highest number at their time. */
  function Repeats(es: seq<Event>): nat {
    if |es| == 0 then 0
    else
      var h, e := es[..|es| - 1], es[|es| - 1];
      Repeats(h) + if e.Received? && e.p.num == Highest(h) then 1 else 0
  }

  function Size(ps: seq<Packet>): nat {
    if |ps| == 0 then 0 else Size(ps[..|ps| - 1]) + ps[|ps| - 1].size
  }

  function Rtts(ps: seq<Packet>): seq<real> {
    seq(|ps|, i requires 0 <= i < |ps| => ps[i].rtt)
  }

  function Delays(ps: seq<Packet>): seq<real> {
    seq(|ps|, i requires 0 <= i < |ps| => ps[i].delay)
  }

  // The filter

  ghost predicate FilterExact(cfg: Config, s: Stats, es: seq<Event>) {
    && (if cfg.mode.Sampled? then s.rx.lastSeen else s.lastText) == Highest(es)
    && s.pktRx == |Records(es)|
    && s.bytesRx == Size(Records(es))
    && s.dup == Repeats(es)
    && s.pktRx + s.dup + s.ooo == Arrivals(es)
    && s.jitter == Estimated(Rtts(Records(es)))
    && s.pktTx == |Outgoing(es)|
    && s.bytesTx == if cfg.mode.Sampled? then Size(Outgoing(es)) else 0
  }

  lemma SizeOneMore(ps: seq<Packet>, p: Packet)
    ensures Size(ps + [p]) == Size(ps) + p.size
  {
    assert (ps + [p])[..|ps|] == ps;
  }

  lemma EstimateOneMore(ps: seq<Packet>, p: Packet)
    ensures Estimated(Rtts(ps + [p])) == Smoothed(Estimated(Rtts(ps)), p.rtt)
  {
    var rs := Rtts(ps + [p]);
    assert rs[..|rs| - 1] == Rtts(ps);
  }

  /** What one more arrival does to the reference. */
  lemma OneMoreArrival(h: seq<Event>, p: Packet)
    ensures var es := h + [Received(p)];
            && Arrivals(es) == Arrivals(h) + 1
            && Outgoing(es) == Outgoing(h) && Incoming(es) == Incoming(h) + [p]
            && Repeats(es) == Repeats(h) + (if p.num == Highest(h) then 1 else 0)
            && Highest(es) == (if p.num > Highest(h) then p.num else Highest(h))
            && Records(es) == (if p.num > Highest(h) then Records(h) + [p] else Records(h))
  {
    var es := h + [Received(p)];
    assert es[..|es| - 1] == h;
  }

  lemma FilterStep(cfg: Config, s: Stats, h: seq<Event>, p: Packet)
    requires !cfg.mode.PerPacket? && FilterExact(cfg, s, h)
    ensures FilterExact(cfg, OnReceived(cfg.mode, s, p), h + [Received(p)])
  {
    OneMoreArrival(h, p);
    hide Estimated, Smoothed, Size, Arrivals, Repeats, Highest, Records, Outgoing;
    if p.num > Highest(h) {
      SizeOneMore(Records(h), p);
      EstimateOneMore(Records(h), p);
    }
  }

  lemma FilterIdle(cfg: Config, l: Ledger, h: seq<Event>, e: Event)
    requires !cfg.mode.PerPacket? && FilterExact(cfg, l.stats, h) && !e.Received? && RxSlotOk(l.stats.rx)
    ensures FilterExact(cfg, Feed(cfg, l, e).stats, h + [e])
  {
    var es := h + [e];
    assert es[..|es| - 1] == h;
    if e.Sent? {
      SizeOneMore(Outgoing(h), e.p);
    }
    hide Estimated, Size;
  }

  /** In the filtering modes a packet counts exactly when it sets a new highest number, and
      the counters, byte totals and jitter are those of the packets that do. */
  lemma {:induction false} FilterIsExact(cfg: Config, es: seq<Event>)
    requires !cfg.mode.PerPacket?
    ensures FilterExact(cfg, After(cfg, es).stats, es)
    decreases |es|
  {
    if |es| == 0 {
    } else {
      var h, e := es[..|es| - 1], es[|es| - 1];
      assert es == h + [e];
      FilterIsExact(cfg, h);
      var l := After(cfg, h);
      if e.Received? {
        FilterStep(cfg, l.stats, h, e.p);
      } else {
        FilterIdle(cfg, l, h, e);
      }
      hide FilterExact;
    }
  }

  /** The packets that count carry strictly increasing numbers up to the highest one. */
  lemma {:induction false} RecordsIncrease(es: seq<Event>)
    ensures var rs := Records(es);
            && (forall i :: 0 <= i < |rs| ==> 0 < rs[i].num <= Highest(es))
            && (forall i, j :: 0 <= i < j < |rs| ==> rs[i].num < rs[j].num)
            && |rs| <= Highest(es)
    decreases |es|
  {
    if |es| == 0 {
    } else {
      RecordsIncrease(es[..|es| - 1]);
    }
  }

  lemma {:induction false} HighestAtMost(es: seq<Event>, k: nat)
    requires forall i :: 0 <= i < |es| && es[i].Received? ==> es[i].p.num <= k
    ensures Highest(es) <= k
    decreases |es|
  {
    if |es| == 0 {
    } else {
      HighestAtMost(es[..|es| - 1], k);
    }
  }

  /** Whatever the network repeats, loses or reorders: when only numbers up to `k` were ever
      sent, no more than `k` packets count, and every arrival is counted once. */
  lemma FilterIsSound(cfg: Config, es: seq<Event>, k: nat)
    requires !cfg.mode.PerPacket?
    requires forall i :: 0 <= i < |es| && es[i].Received? ==> es[i].p.num <= k
    ensures var s := After(cfg, es).stats;
            && s.pktRx <= Highest(es) <= k
            && s.pktRx + s.dup + s.ooo == Arrivals(es)
  {
    FilterIsExact(cfg, es);
    RecordsIncrease(es);
    HighestAtMost(es, k);
  }

  /** The jitter of the broker is the weighted sum over the packets that count. */
  lemma JitterOfRun(cfg: Config, es: seq<Event>, top: real)
    requires !cfg.mode.PerPacket? && top >= 0.0
    requires forall i :: 0 <= i < |Records(es)| ==> Difference(Rtts(Records(es)), i) <= top
    ensures var rtts := Rtts(Records(es));
            After(cfg, es).stats.jitter.value == Weighted(rtts, |rtts|, |rtts|)
    ensures 0.0 <= After(cfg, es).stats.jitter.value <= top
  {
    FilterIsExact(cfg, es);
    JitterIsWeightedSum(Rtts(Records(es)));
    JitterBounded(Rtts(Records(es)), top);
  }

  /** The number of the last arrival, 0 before the first. */
  function LastNumber(es: seq<Event>): nat {
    if |es| == 0 then 0
    else if es[|es| - 1].Received? then es[|es| - 1].p.num else LastNumber(es[..|es| - 1])
  }

  /** Arrivals that set no new highest number and yet exceed the arrival before them. */
  function Recoveries(es: seq<Event>): nat {
    if |es| == 0 then 0
    else
      var h, e := es[..|es| - 1], es[|es| - 1];
      Recoveries(h) + if e.Received? && LastNumber(h) < e.p.num <= Highest(h) then 1 else 0
  }

  /** With a record for each packet the filter only counts, and it compares with the arrival
      before instead of the highest number: every arrival counts as received, and of those
      that set no new highest number it counts all but the recoveries as duplicate or late. */
  lemma {:induction false} PerPacketExact(silent: bool, es: seq<Event>)
    ensures var s := After(Config(PerPacket, silent), es).stats;
            && s.pktRx == Arrivals(es)
            && s.rx.lastSeen == LastNumber(es) <= Highest(es)
            && s.dup + s.ooo + Recoveries(es) == Arrivals(es) - |Records(es)|
    decreases |es|
  {
    if |es| == 0 {
    } else {
      PerPacketExact(silent, es[..|es| - 1]);
    }
  }

  /** Packets, bytes and jitter are those of all packets, whether new, late or repeated. */
  lemma {:induction false} PerPacketTotals(silent: bool, es: seq<Event>)
    ensures var s := After(Config(PerPacket, silent), es).stats;
            && s.pktRx == |Incoming(es)| && s.bytesRx == Size(Incoming(es))
            && s.pktTx == |Outgoing(es)| && s.bytesTx == Size(Outgoing(es)) && s.tx.lastSeen == LastSent(es)
            && s.jitter == Estimated(Rtts(Incoming(es)))
            && After(Config(PerPacket, silent), es).records == []
    decreases |es|
  {
    if |es| == 0 {
    } else {
      var h, e := es[..|es| - 1], es[|es| - 1];
      PerPacketTotals(silent, h);
      if e.Received? {
        SizeOneMore(Incoming(h), e.p);
        EstimateOneMore(Incoming(h), e.p);
      } else if e.Sent? {
        SizeOneMore(Outgoing(h), e.p);
      }
      hide Size, Estimated, Smoothed;
    }
  }

  /** A recovery needs an earlier arrival that was seen to be late: recoveries never make up
      for all the arrivals that set no new highest number. */
  lemma {:induction false} RecoveryNeedsLate(es: seq<Event>)
    ensures LastNumber(es) <= Highest(es) && |Records(es)| + Recoveries(es) <= Arrivals(es)
    ensures LastNumber(es) < Highest(es) || Recoveries(es) > 0 ==> |Records(es)| + Recoveries(es) < Arrivals(es)
    decreases |es|
  {
    if |es| == 0 {
    } else {
      RecoveryNeedsLate(es[..|es| - 1]);
    }
  }

  /** So received, duplicate and late packets add up to the arrivals exactly when every
      arrival sets a new highest number. */
  lemma PerPacketCountsAll(silent: bool, es: seq<Event>)
    ensures var s := After(Config(PerPacket, silent), es).stats;
            && s.pktRx == Arrivals(es)
            && (s.pktRx + s.dup + s.ooo == Arrivals(es) <==> |Records(es)| == Arrivals(es))
            && (s.dup == 0 && s.ooo == 0 <==> |Records(es)| == Arrivals(es))
  {
    PerPacketExact(silent, es);
    RecoveryNeedsLate(es);
    hide After, Arrivals, Records, Recoveries, LastNumber, Highest;
  }

  /** Recoveries that repeat the highest number; the filter counts them as duplicates. */
  function Recovered(es: seq<Event>): nat {
    if |es| == 0 then 0
    else
      var h, e := es[..|es| - 1], es[|es| - 1];
      Recovered(h) + if e.Received? && LastNumber(h) < e.p.num == Highest(h) then 1 else 0
  }

  /** Arrivals that repeat the arrival before them below the highest number: late ones to the
      filter, duplicates here. */
  function Mistaken(es: seq<Event>): nat {
    if |es| == 0 then 0
    else
      var h, e := es[..|es| - 1], es[|es| - 1];
      Mistaken(h) + if e.Received? && e.p.num == LastNumber(h) < Highest(h) then 1 else 0
  }

  lemma {:induction false} DuplicatesExact(silent: bool, es: seq<Event>)
    ensures After(Config(PerPacket, silent), es).stats.dup + Recovered(es) == Repeats(es) + Mistaken(es)
    ensures Recovered(es) <= Recoveries(es)
    decreases |es|
  {
    if |es| == 0 {
    } else {
      DuplicatesExact(silent, es[..|es| - 1]);
      PerPacketExact(silent, es[..|es| - 1]);
    }
  }

  /** Its duplicate and late counts against those of the filter. Their sum falls short by the
      recoveries, so the sums agree exactly when there are none; the duplicates differ by the
      mistaken and the recovered ones. */
  lemma PerPacketAgainstFilter(silent: bool, slots: Config, es: seq<Event>)
    requires slots.mode.Sampled?
    ensures var s, f := After(Config(PerPacket, silent), es).stats, After(slots, es).stats;
            && s.dup + s.ooo + Recoveries(es) == f.dup + f.ooo
            && (s.dup + s.ooo == f.dup + f.ooo <==> Recoveries(es) == 0)
            && s.dup + Recovered(es) == f.dup + Mistaken(es)
  {
    PerPacketExact(silent, es);
    FilterIsExact(slots, es);
    DuplicatesExact(silent, es);
    hide After, Arrivals, Records, Recoveries, LastNumber, Highest, Repeats, Recovered, Mistaken;
  }

  /** Both counts are those of the filter exactly when every arrival lies below the number of
      the arrival before it, or above the highest number, or equals both. */
  lemma PerPacketForgetsHighest(silent: bool, slots: Config, es: seq<Event>)
    requires slots.mode.Sampled?
    ensures var s, f := After(Config(PerPacket, silent), es).stats, After(slots, es).stats;
            s.dup == f.dup && s.ooo == f.ooo <==> Recoveries(es) == 0 && Mistaken(es) == 0
    ensures Recoveries(es) == 0 && Mistaken(es) == 0 <==> forall i :: 0 <= i < |es| ==> Plain(es, i)
  {
    PerPacketAgainstFilter(silent, slots, es);
    DuplicatesExact(silent, es);
    NothingMisjudged(es);
    hide After, Recoveries, LastNumber, Highest, Recovered, Mistaken, Plain, Repeats;
  }

  /** Arrival `i` is judged alike by its predecessor and by the highest number. */
  predicate Plain(es: seq<Event>, i: nat)
    requires i < |es|
  {
    es[i].Received? ==>
      var n, last, high := es[i].p.num, LastNumber(es[..i]), Highest(es[..i]);
      n < last || high < n || n == last == high
  }

  lemma {:induction false} LastAtMostHighest(es: seq<Event>)
    ensures LastNumber(es) <= Highest(es)
    decreases |es|
  {
    if |es| == 0 {
    } else {
      LastAtMostHighest(es[..|es| - 1]);
    }
  }

  lemma {:induction false} NothingMisjudged(es: seq<Event>)
    ensures Recoveries(es) == 0 && Mistaken(es) == 0 <==> forall i :: 0 <= i < |es| ==> Plain(es, i)
    decreases |es|
  {
    if |es| == 0 {
    } else {
      var n := |es| - 1;
      var h := es[..n];
      NothingMisjudged(h);
      LastAtMostHighest(h);
      assert Recoveries(es) == 0 && Mistaken(es) == 0 <==> Recoveries(h) == 0 && Mistaken(h) == 0 && Plain(es, n);
      hide Recoveries, Mistaken;
      forall i | 0 <= i < n
        ensures Plain(es, i) == Plain(h, i)
      {
        assert es[..i] == h[..i];
      }
      hide Plain;
    }
  }

  /** The shortest case: a packet, a late one, and the first again. The filter takes one,
      here three count and the repetition is not noticed. */
  lemma RepetitionMissed(silent: bool, a: Packet, b: Packet)
    requires 0 < b.num < a.num
    ensures var es := [Received(a), Received(b), Received(a)];
            var s := After(Config(PerPacket, silent), es).stats;
            s.pktRx == 3 && s.dup == 0 && s.ooo == 1 && |Records(es)| == 1
  {
    var es := [Received(a), Received(b), Received(a)];
    var cfg := Config(PerPacket, silent);
    assert es[..2] == [Received(a), Received(b)] && es[..2][..1] == [Received(a)] && es[..2][..1][..0] == [];
    assert After(cfg, []).stats == NoStats();
    var s1 := After(cfg, [Received(a)]).stats;
    assert [Received(a)][..0] == [];
    assert s1 == OnReceived(PerPacket, NoStats(), a);
    assert After(cfg, es[..2]).stats == OnReceived(PerPacket, s1, b);
    assert Records([Received(a)]) == [a] && Highest([Received(a)]) == a.num;
    assert Records(es[..2]) == [a] && Highest(es[..2]) == a.num;
  }

  /** And a run in which the sums agree but the counts do not: the second of two equal late
      packets is a duplicate here and late to the filter. */
  lemma LateTakenForDuplicate(silent: bool, slots: Config, a: Packet, b: Packet)
    requires slots.mode.Sampled? && 0 < b.num < a.num
    ensures var es := [Received(a), Received(b), Received(b)];
            var s, f := After(Config(PerPacket, silent), es).stats, After(slots, es).stats;
            s.dup == 1 && s.ooo == 1 && f.dup == 0 && f.ooo == 2
  {
    var cfg := Config(PerPacket, silent);
    ThreeArrivals(cfg, a, b, b);
    ThreeArrivals(slots, a, b, b);
    hide After;
  }

  lemma ThreeArrivals(cfg: Config, a: Packet, b: Packet, c: Packet)
    ensures After(cfg, [Received(a), Received(b), Received(c)]).stats
         == OnReceived(cfg.mode, OnReceived(cfg.mode, OnReceived(cfg.mode, NoStats(), a), b), c)
  {
    var es := [Received(a), Received(b), Received(c)];
    assert es[..2] == [Received(a), Received(b)] && es[..2][..1] == [Received(a)] && es[..2][..1][..0] == [];
    assert After(cfg, []).stats == NoStats();
    assert After(cfg, es[..2][..1]).stats == OnReceived(cfg.mode, NoStats(), a);
    assert After(cfg, es[..2]).stats == OnReceived(cfg.mode, OnReceived(cfg.mode, NoStats(), a), b);
    hide OnReceived;
  }

  // Conservation over the slots

  ghost predicate Balanced(l: Ledger) {
    var s := l.stats;
    && RxSlotOk(s.rx) && TxSlotOk(s.tx)
    && s.tx.pkts <= s.pktTx && s.tx.bytes <= s.bytesTx
    && s.rx.pkts <= s.pktRx && s.rx.bytes <= s.bytesRx
    && Books(l.records, TxClosed(s), RxClosed(s), s.tx.num, s.rx.num)
  }

  /** What the printed records of sent and of received slots must add up to. */
  function TxClosed(s: Stats): Total
    requires s.tx.pkts <= s.pktTx && s.tx.bytes <= s.bytesTx
  {
    Total(s.pktTx - s.tx.pkts, s.bytesTx - s.tx.bytes, 0)
  }

  function RxClosed(s: Stats): Total
    requires s.rx.pkts <= s.pktRx && s.rx.bytes <= s.bytesRx
  {
    Total(s.pktRx - s.rx.pkts, s.bytesRx - s.rx.bytes, s.rx.firstSeq)
  }

  lemma ClosedAfterTick(s: Stats)
    requires RxSlotOk(s.rx) && s.tx.pkts <= s.pktTx && s.tx.bytes <= s.bytesTx
    requires s.rx.pkts <= s.pktRx && s.rx.bytes <= s.bytesRx
    ensures var t := s.(tx := Reopened(Tx, s.tx), rx := Reopened(Rx, s.rx));
            && TxClosed(t) == Plus(TxClosed(s), Total(s.tx.pkts, s.tx.bytes, 0))
            && RxClosed(t) == Plus(RxClosed(s), Total(s.rx.pkts, s.rx.bytes, s.rx.lastSeen - s.rx.firstSeq))
  {
  }

  lemma TickBalanced(cfg: Config, l: Ledger)
    requires Balanced(l) && !cfg.silent
    ensures Balanced(OnTick(cfg, l))
  {
    var s := l.stats;
    ClosedAfterTick(s);
    var t, r := Closing(Tx, s.tx, s.tx), Closing(Rx, s.rx, Reopened(Tx, s.tx));
    TickBooks(l.records, t, r, s.tx, s.rx, TxClosed(s), RxClosed(s));
    hide Closing, Books, TxClosed, RxClosed, Plus;
  }

  lemma PacketBalanced(l: Ledger, e: Event)
    requires Balanced(l) && !e.Tick?
    ensures Balanced(l.(stats := if e.Sent? then OnSent(Sampled, l.stats, e.p) else OnReceived(Sampled, l.stats, e.p)))
  {
    hide Books, Smoothed;
  }

  lemma FeedBalanced(cfg: Config, l: Ledger, e: Event)
    requires cfg.mode.Sampled? && !cfg.silent && Balanced(l)
    ensures Balanced(Feed(cfg, l, e))
  {
    assert RxSlotOk(l.stats.rx);
    hide Balanced, OnTick, OnSent, OnReceived;
    if e.Tick? {
      TickBalanced(cfg, l);
    } else {
      PacketBalanced(l, e);
    }
  }

  /** At any time of a sampled run the printed records and the open slots account for every
      counted packet and byte, and each record number is used once, in order. */
  lemma {:induction false} SlotsBalance(cfg: Config, es: seq<Event>)
    requires cfg.mode.Sampled? && !cfg.silent
    ensures Balanced(After(cfg, es))
    decreases |es|
  {
    hide Balanced, Feed;
    if |es| == 0 {
      NothingBalanced();
      assert After(cfg, es) == Ledger(NoStats(), []);
    } else {
      SlotsBalance(cfg, es[..|es| - 1]);
      FeedBalanced(cfg, After(cfg, es[..|es| - 1]), es[|es| - 1]);
    }
  }

  lemma NothingBalanced()
    ensures Balanced(Ledger(NoStats(), []))
  {
    NoRecords();
    hide Books;
  }

  lemma FlushTxSettles(l: Ledger)
    requires Balanced(l)
    ensures var s, r := l.stats, Flushed(Tx, l);
            && r.stats == s.(tx := s.tx.(num := r.stats.tx.num))
            && Books(r.records, Total(s.pktTx, s.bytesTx, 0), RxClosed(s), r.stats.tx.num, s.rx.num)
  {
    hide Books, RxClosed;
    var s := l.stats;
    if s.tx.pkts > 0 {
      OneMoreRecord(l.records, TxRecord(s.tx, s.tx.num + 1), TxClosed(s), RxClosed(s), s.tx.num, s.rx.num);
    }
  }

  lemma FlushRxSettles(l: Ledger, tx: Total)
    requires RxSlotOk(l.stats.rx) && l.stats.rx.pkts <= l.stats.pktRx && l.stats.rx.bytes <= l.stats.bytesRx
    requires Books(l.records, tx, RxClosed(l.stats), l.stats.tx.num, l.stats.rx.num)
    ensures var s, r := l.stats, Flushed(Rx, l);
            && r.stats == s.(rx := s.rx.(num := r.stats.rx.num))
            && Books(r.records, tx, Total(s.pktRx, s.bytesRx, s.rx.lastSeen), s.tx.num, r.stats.rx.num)
  {
    hide Books;
    var s := l.stats;
    if s.rx.pkts > 0 {
      ClosingCounts(Rx, s.rx, s.tx);
      hide RxRecord;
      OneMoreRecord(l.records, RxRecord(s.rx, s.rx.num + 1), tx, RxClosed(s), s.tx.num, s.rx.num);
    } else if s.tx.pkts > 0 {
      OneMoreRecord(l.records, EmptyRecord(Rx, s.rx.num + 1, 1.0), tx, RxClosed(s), s.tx.num, s.rx.num);
    }
  }

  /** Closing prints what was open and changes no total. */
  lemma CloseSettles(cfg: Config, l: Ledger)
    requires Balanced(l) && !cfg.silent
    ensures var s, r := l.stats, OnClose(cfg, l);
            && r.stats == s.(tx := s.tx.(num := r.stats.tx.num), rx := s.rx.(num := r.stats.rx.num))
            && Books(r.records, Total(s.pktTx, s.bytesTx, 0), Total(s.pktRx, s.bytesRx, s.rx.lastSeen),
                     r.stats.tx.num, r.stats.rx.num)
  {
    FlushTxSettles(l);
    hide Books, Flushed;
    FlushRxSettles(Flushed(Tx, l), Total(l.stats.pktTx, l.stats.bytesTx, 0));
  }

  lemma LastSeenIsHighest(cfg: Config, es: seq<Event>)
    requires cfg.mode.Sampled?
    ensures var s := After(cfg, es).stats; s.rx.lastSeen == Highest(es) && s.pktRx == |Records(es)|
  {
    FilterIsExact(cfg, es);
    hide After, Highest, Records;
  }

  /** The report of a run: in each direction the packets and bytes of all printed slots add
      up to the totals, the spans of the received slots add up to the last number seen, so
      the losses of all slots add up to the losses of the run, records are numbered from 1
      without a gap, and every printed loss ratio is proper. */
  lemma ReportConserves(cfg: Config, es: seq<Event>)
    requires cfg.mode.Sampled? && !cfg.silent
    ensures var r := OnClose(cfg, After(cfg, es));
            var s, tx, rx := r.stats, Sum(r.records, Tx), Sum(r.records, Rx);
            && tx.pkts == s.pktTx && tx.bytes == s.bytesTx
            && rx.pkts == s.pktRx && rx.bytes == s.bytesRx
            && rx.span - rx.pkts == s.rx.lastSeen - s.pktRx == Highest(es) - |Records(es)|
            && Numbered(r.records, Tx, s.tx.num) && Numbered(r.records, Rx, s.rx.num)
            && LossesProper(r.records)
  {
    SlotsBalance(cfg, es);
    LastSeenIsHighest(cfg, es);
    hide After, Balanced, OnClose, Books, Numbered, LossesProper, Sum, Highest, Records;
    var s, r := After(cfg, es).stats, OnClose(cfg, After(cfg, es));
    CloseSettles(cfg, After(cfg, es));
    BooksSay(r.records, Total(s.pktTx, s.bytesTx, 0), Total(s.pktRx, s.bytesRx, s.rx.lastSeen),
             r.stats.tx.num, r.stats.rx.num);
  }
}
