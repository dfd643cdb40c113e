/** The counters of one direction in one time slot, and the record printed when it closes. */
module SlotStats {

  datatype Direction = Tx | Rx

  /** What a received or sent packet tells the accounting; times are in milliseconds. */
  datatype Packet = Packet(size: nat, num: nat, rtt: real, delay: real)

  /** `sampled_int_t` without the fields that only place commas in the output. */
  datatype Slot = Slot(
    firstSeq: nat,
    lastSeen: nat,
    pkts: nat,
    bytes: nat,
    num: nat,
    ooo: nat,
    dup: nat,
    rttSum: real,
    delaySum: real,
    jitterSum: real)

  /** The numbers of one printed slot record, zero where a record has no such field. `span`
      is the divisor of its loss ratio. */
  datatype Record = Record(
    dir: Direction,
    num: nat,
    pkts: nat,
    bytes: nat,
    span: nat,
    loss: real,
    rtt: real,
    delay: real,
    jitter: real,
    ooo: nat,
    dup: nat)

  datatype Jitter = Jitter(value: real, prev: real)

  function EmptySlot(): Slot {
    Slot(0, 0, 0, 0, 0, 0, 0, 0.0, 0.0, 0.0)
  }

  function Distance(a: real, b: real): real {
    if a - b < 0.0 then -(a - b) else a - b
  }

  /** One update of the interarrival jitter estimate of section 6.4.1 of RFC 3550. */
  function Smoothed(j: Jitter, sample: real): Jitter {
    Jitter(j.value + (1.0 / 16.0) * (Distance(sample, j.prev) - j.value), sample)
  }

  function Loss(pkts: nat, span: nat): real
    requires span > 0
  {
    var l := 1.0 - pkts as real / span as real;
    if l < 1.0 then l else 1.0
  }

  /** A slot of received packets: the numbers accepted in it lie in (firstSeq, lastSeen]. */
  predicate RxSlotOk(s: Slot) {
    && s.firstSeq + s.pkts <= s.lastSeen
    && (s.pkts == 0 ==> s.firstSeq == s.lastSeen && s.bytes == 0)
  }

  predicate TxSlotOk(s: Slot) {
    s.pkts == 0 ==> s.bytes == 0
  }

  /** The packet counted into its slot. */
  function Counted(s: Slot, p: Packet): Slot {
    s.(pkts := s.pkts + 1, bytes := s.bytes + p.size, lastSeen := p.num)
  }

  function Accepted(s: Slot, p: Packet, jitter: real): Slot {
    Counted(s, p).(rttSum := s.rttSum + p.rtt, delaySum := s.delaySum + p.delay, jitterSum := s.jitterSum + jitter)
  }

  /** The record of a received slot with packets in it. */
  function RxRecord(s: Slot, number: nat): Record
    requires RxSlotOk(s) && s.pkts > 0
  {
    var span := s.lastSeen - s.firstSeq;
    var n := s.pkts as real;
    Record(Rx, number, s.pkts, s.bytes, span, Loss(s.pkts, span),
           s.rttSum / n, s.delaySum / n, s.jitterSum / n, s.ooo, s.dup)
  }

  function TxRecord(s: Slot, number: nat): Record {
    Record(Tx, number, s.pkts, s.bytes, 0, 0.0, 0.0, 0.0, 0.0, 0, 0)
  }

  function EmptyRecord(dir: Direction, number: nat, loss: real): Record {
    Record(dir, number, 0, 0, 0, loss, 0.0, 0.0, 0.0, 0, 0)
  }

  /** The record that closing a slot prints; `tx` is the sending slot at that moment. */
  function Closing(dir: Direction, s: Slot, tx: Slot): Record
    requires dir.Rx? ==> RxSlotOk(s)
  {
    if s.pkts > 0 then
      if dir.Rx? then RxRecord(s, s.num + 1) else TxRecord(s, s.num + 1)
    else EmptyRecord(dir, s.num + 1, if dir.Rx? && tx.lastSeen > s.lastSeen then 1.0 else 0.0)
  }

  /** The slot after it was closed. */
  function Reopened(dir: Direction, s: Slot): Slot {
    var s1 := s.(num := s.num + 1, pkts := 0, bytes := 0);
    if dir.Rx? then
      s1.(ooo := 0, dup := 0, firstSeq := s.lastSeen, rttSum := 0.0, delaySum := 0.0, jitterSum := 0.0)
    else s1
  }

  /** A slot with packets loses at least nothing and less than everything. */
  lemma LossInRange(pkts: nat, span: nat)
    requires 0 < pkts <= span
    ensures 0.0 <= Loss(pkts, span) < 1.0
    ensures Loss(pkts, span) == 0.0 <==> pkts == span
  {
    var q := pkts as real / span as real;
    assert q * span as real == pkts as real;
    assert q > 0.0;
    assert q <= 1.0;
  }

  /** A closed slot's record carries the slot's counts under the next number. */
  lemma ClosingCounts(dir: Direction, s: Slot, tx: Slot)
    requires if dir.Rx? then RxSlotOk(s) else TxSlotOk(s)
    ensures var r := Closing(dir, s, tx);
            && r.dir == dir && r.num == s.num + 1 && r.pkts == s.pkts && r.bytes == s.bytes
            && r.span == (if dir.Rx? then s.lastSeen - s.firstSeq else 0)
            && (dir.Rx? && r.pkts > 0 ==> 0.0 <= r.loss < 1.0 && r.pkts <= r.span)
  {
    if dir.Rx? && s.pkts > 0 {
      LossInRange(s.pkts, s.lastSeen - s.firstSeq);
    }
    hide Loss;
  }

  // What the record of a slot says

  /** What a slot of received packets holds: packets, bytes, the numbers it spans, the sums of
      its times, and how many arrivals were late and repeated. */
  datatype Content = Content(
    pkts: int,
    bytes: int,
    span: int,
    rtt: real,
    delay: real,
    jitter: real,
    ooo: int,
    dup: int)

  function Held(s: Slot): Content {
    Content(s.pkts, s.bytes, s.lastSeen - s.firstSeq, s.rttSum, s.delaySum, s.jitterSum, s.ooo, s.dup)
  }

  /** The record of a slot with packets: the lost part of the span, and the mean times, delay
      and jitter as multiples of `unit` milliseconds. */
  predicate Tells(r: Record, c: Content, unit: real) {
    && r.dir.Rx? && r.pkts == c.pkts && r.bytes == c.bytes && r.span == c.span
    && r.loss * c.span as real == (c.span - c.pkts) as real
    && r.rtt * c.pkts as real == c.rtt
    && unit * r.delay * c.pkts as real == c.delay
    && unit * r.jitter * c.pkts as real == c.jitter
    && r.ooo == c.ooo && r.dup == c.dup
  }

  /** The record of a slot without packets, whatever late and repeated arrivals it has had. */
  predicate Blank(r: Record, dir: Direction, lost: bool) {
    && r.dir == dir && r.pkts == 0 && r.bytes == 0 && r.loss == (if lost then 1.0 else 0.0)
    && r.rtt == 0.0 && r.delay == 0.0 && r.jitter == 0.0 && r.ooo == 0 && r.dup == 0
  }

  lemma LossTimesSpan(pkts: nat, span: nat)
    requires 0 < pkts <= span
    ensures Loss(pkts, span) * span as real == (span - pkts) as real
  {
    var q := pkts as real / span as real;
    assert q * span as real == pkts as real;
    LossInRange(pkts, span);
  }

  lemma MeanTimes(sum: real, n: nat)
    requires n > 0
    ensures sum / n as real * n as real == sum
  {
  }

  /** The record of a slot with packets says what the slot holds. */
  lemma RecordTells(s: Slot, number: nat)
    requires RxSlotOk(s) && s.pkts > 0
    ensures Tells(RxRecord(s, number), Held(s), 1.0)
  {
    LossTimesSpan(s.pkts, s.lastSeen - s.firstSeq);
    MeanTimes(s.rttSum, s.pkts);
    MeanTimes(s.delaySum, s.pkts);
    MeanTimes(s.jitterSum, s.pkts);
    hide Loss;
  }

  // Sums over records

  datatype Total = Total(pkts: nat, bytes: nat, span: nat)

  function Sum(rs: seq<Record>, dir: Direction): Total {
    if |rs| == 0 then Total(0, 0, 0)
    else
      Plus(Sum(rs[..|rs| - 1], dir), Part(rs[|rs| - 1], dir))
  }

  function Part(r: Record, dir: Direction): Total {
    if r.dir == dir then Total(r.pkts, r.bytes, r.span) else Total(0, 0, 0)
  }

  function Plus(a: Total, b: Total): Total {
    Total(a.pkts + b.pkts, a.bytes + b.bytes, a.span + b.span)
  }

  lemma SumOneMore(rs: seq<Record>, r: Record, dir: Direction)
    ensures Sum(rs + [r], dir) == Plus(Sum(rs, dir), Part(r, dir))
  {
    assert (rs + [r])[..|rs|] == rs;
  }

  /** The records of one direction, numbered from 1 without a gap. */
  ghost predicate Numbered(rs: seq<Record>, dir: Direction, next: nat) {
    if |rs| == 0 then next == 0
    else
      var r := rs[|rs| - 1];
      if r.dir == dir then r.num == next && next > 0 && Numbered(rs[..|rs| - 1], dir, next - 1)
      else Numbered(rs[..|rs| - 1], dir, next)
  }

  lemma NumberedOne(rs: seq<Record>, r: Record, dir: Direction, next: nat)
    requires Numbered(rs, dir, next) && (r.dir == dir ==> r.num == next + 1)
    ensures Numbered(rs + [r], dir, if r.dir == dir then next + 1 else next)
  {
    assert (rs + [r])[..|rs|] == rs;
  }

  /** The ratio printed in a record of received packets is a proper loss ratio. */
  ghost predicate LossesProper(rs: seq<Record>) {
    forall i :: 0 <= i < |rs| && rs[i].dir.Rx? && rs[i].pkts > 0 ==> 0.0 <= rs[i].loss < 1.0 && rs[i].pkts <= rs[i].span
  }

  /** What a list of records adds up to, direction by direction. */
  ghost predicate Books(rs: seq<Record>, tx: Total, rx: Total, txCount: nat, rxCount: nat) {
    && Sum(rs, Tx) == tx && Sum(rs, Rx) == rx
    && Numbered(rs, Tx, txCount) && Numbered(rs, Rx, rxCount)
    && LossesProper(rs)
  }

  lemma NoRecords()
    ensures Books([], Total(0, 0, 0), Total(0, 0, 0), 0, 0)
  {
  }

  lemma OneMoreLoss(rs: seq<Record>, r: Record)
    requires LossesProper(rs)
    requires r.dir.Rx? && r.pkts > 0 ==> 0.0 <= r.loss < 1.0 && r.pkts <= r.span
    ensures LossesProper(rs + [r])
  {
  }

  /** One record more keeps the sums, the numbering and the loss ratios. */
  lemma OneMoreRecord(rs: seq<Record>, r: Record, tx: Total, rx: Total, txCount: nat, rxCount: nat)
    requires Books(rs, tx, rx, txCount, rxCount)
    requires r.num == if r.dir.Tx? then txCount + 1 else rxCount + 1
    requires r.dir.Rx? && r.pkts > 0 ==> 0.0 <= r.loss < 1.0 && r.pkts <= r.span
    ensures Books(rs + [r], Plus(tx, Part(r, Tx)), Plus(rx, Part(r, Rx)),
                  if r.dir.Tx? then txCount + 1 else txCount, if r.dir.Rx? then rxCount + 1 else rxCount)
  {
    hide Sum, Numbered, LossesProper;
    SumOneMore(rs, r, Tx);
    SumOneMore(rs, r, Rx);
    NumberedOne(rs, r, Tx, txCount);
    NumberedOne(rs, r, Rx, rxCount);
    OneMoreLoss(rs, r);
  }

  function Carried(r: Record): Total {
    Total(r.pkts, r.bytes, r.span)
  }

  /** The two records of a tick. */
  lemma TwoMoreRecords(rs: seq<Record>, t: Record, r: Record, tx: Total, rx: Total, txCount: nat, rxCount: nat)
    requires Books(rs, tx, rx, txCount, rxCount)
    requires t.dir.Tx? && t.num == txCount + 1 && r.dir.Rx? && r.num == rxCount + 1
    requires r.pkts > 0 ==> 0.0 <= r.loss < 1.0 && r.pkts <= r.span
    ensures Books(rs + [t] + [r], Plus(tx, Carried(t)), Plus(rx, Carried(r)), txCount + 1, rxCount + 1)
  {
    hide Books;
    OneMoreRecord(rs, t, tx, rx, txCount, rxCount);
    assert Plus(rx, Part(t, Rx)) == rx;
    OneMoreRecord(rs + [t], r, Plus(tx, Carried(t)), rx, txCount + 1, rxCount);
    assert Plus(Plus(tx, Carried(t)), Part(r, Tx)) == Plus(tx, Carried(t));
  }

  /** Records that agree in all that the books are about. */
  predicate SameCounts(a: Record, b: Record) {
    a == b.(rtt := a.rtt, delay := a.delay, jitter := a.jitter)
  }

  /** A tick adds both open slots to the books. */
  lemma TickBooks(rs: seq<Record>, t: Record, r: Record, tx: Slot, rx: Slot, txClosed: Total, rxClosed: Total)
    requires RxSlotOk(rx) && TxSlotOk(tx) && Books(rs, txClosed, rxClosed, tx.num, rx.num)
    requires SameCounts(t, Closing(Tx, tx, tx)) && SameCounts(r, Closing(Rx, rx, Reopened(Tx, tx)))
    ensures Books(rs + [t] + [r],
                  Plus(txClosed, Total(tx.pkts, tx.bytes, 0)),
                  Plus(rxClosed, Total(rx.pkts, rx.bytes, rx.lastSeen - rx.firstSeq)),
                  tx.num + 1, rx.num + 1)
  {
    ClosingCounts(Tx, tx, tx);
    ClosingCounts(Rx, rx, Reopened(Tx, tx));
    hide Books, Closing, Reopened, Plus;
    TwoMoreRecords(rs, t, r, txClosed, rxClosed, tx.num, rx.num);
  }

  /** What the books of a list of records say about it. */
  lemma BooksSay(rs: seq<Record>, tx: Total, rx: Total, txCount: nat, rxCount: nat)
    requires Books(rs, tx, rx, txCount, rxCount)
    ensures Sum(rs, Tx) == tx && Sum(rs, Rx) == rx
    ensures Numbered(rs, Tx, txCount) && Numbered(rs, Rx, rxCount) && LossesProper(rs)
  {
  }
}
