/** A server connection as an object whose counters the broker updates in place. */
module ServerConnection {
  import opened SlotStats
  import opened ServerStats

  const TX: nat := 0
  const RX: nat := 1

  class Connection {
    const sampled: array<Slot>
    var pktTxCnt: nat
    var bytesTxCnt: nat
    var pktRxCnt: nat
    var bytesRxCnt: nat
    var dupCnt: nat
    var oooCnt: nat
    var jitter: real
    var jtPrev: real
    var jtDiff: real
    var jtDelayPrev: real

    ghost predicate Valid()
      reads this
    {
      sampled.Length == 2
    }

    ghost function Snap(): ConnStats
      reads this, sampled
      requires Valid()
    {
      ConnStats(sampled[TX], sampled[RX], pktTxCnt, bytesTxCnt, pktRxCnt, bytesRxCnt, dupCnt, oooCnt,
                Jitter(jitter, jtDelayPrev))
    }

    /** `u` stands for the fields that the program leaves uninitialised. */
    constructor (u: Leftover)
      ensures Valid() && fresh(sampled) && Snap() == NewConn(u)
    {
      sampled := new Slot[2](i => EmptySlot().(delaySum := if i == TX then u.txDelay else u.rxDelay));
      pktTxCnt, bytesTxCnt, pktRxCnt, bytesRxCnt, dupCnt, oooCnt := 0, 0, 0, 0, u.dup, u.ooo;
      jitter, jtPrev, jtDiff, jtDelayPrev := 0.0, 0.0, 0.0, 0.0;
    }

    /** The slotted path of `prepServerDataRec`. */
    method PrepServerDataRec(dir: Direction, p: Packet)
      requires Valid()
      modifies sampled, `dupCnt, `oooCnt, `jitter, `jtPrev, `jtDiff, `jtDelayPrev
      ensures Valid()
      ensures dir.Rx? ==>
                var r := ConnReceived(View(false, true, true), old(Snap()), p);
                Snap() == r.(pktRx := pktRxCnt, bytesRx := bytesRxCnt)
      ensures dir.Tx? ==> Snap() == old(Snap()).(tx := Counted(old(sampled[TX]), p))
    {
      var d := if dir.Rx? then RX else TX;
      if dir.Rx? {
        if sampled[RX].lastSeen == p.num {
          dupCnt := dupCnt + 1;
          sampled[RX] := sampled[RX].(dup := sampled[RX].dup + 1);
          return;
        }
        if sampled[RX].lastSeen > p.num {
          oooCnt := oooCnt + 1;
          sampled[RX] := sampled[RX].(ooo := sampled[RX].ooo + 1);
          return;
        }
        jtDiff := p.delay - jtDelayPrev;
        jtDelayPrev := p.delay;
        if jtDiff < 0.0 {
          jtDiff := -jtDiff;
        }
        jtPrev := jitter;
        jitter := jtPrev + (1.0 / 16.0) * (jtDiff - jtPrev);
        var r := sampled[RX];
        sampled[RX] := r.(delaySum := r.delaySum + p.delay, jitterSum := r.jitterSum + jitter);
      }
      var s := sampled[d];
      sampled[d] := s.(pkts := s.pkts + 1, bytes := s.bytes + p.size, lastSeen := p.num);
    }

    /** The messages about a packet. */
    method ProcessPacket(dir: Direction, p: Packet, v: View)
      requires Valid()
      modifies this, sampled
      ensures Valid()
      ensures Snap() == if dir.Rx? then ConnReceived(v, old(Snap()), p) else ConnSent(v, old(Snap()), p)
    {
      if dir.Rx? {
        pktRxCnt, bytesRxCnt := pktRxCnt + 1, bytesRxCnt + p.size;
      } else {
        pktTxCnt, bytesTxCnt := pktTxCnt + 1, bytesTxCnt + p.size;
      }
      if !v.silent {
        if v.slotted {
          PrepServerDataRec(dir, p);
        }
      }
    }

    /** The fields of a received record that are computed from the slot; the round-trip
        time is not printed. */
    static method Means(s: Slot) returns (r: Record)
      requires RxSlotOk(s) && s.pkts > 0
      ensures r == Scaled(RxRecord(s, s.num)) && Tells(r, Held(s).(rtt := 0.0), 1_000_000.0)
    {
      RecordTells(s, s.num);
      ScaledTells(RxRecord(s, s.num), Held(s));
      hide Tells, Held;
      var span := s.lastSeen - s.firstSeq;
      var loss := 1.0 - s.pkts as real / span as real;
      if loss > 1.0 {
        loss := 1.0;
      }
      var n := s.pkts as real;
      r := Record(Rx, s.num, s.pkts, s.bytes, span, loss, 0.0, s.delaySum / n / 1_000_000.0,
                  s.jitterSum / n / 1_000_000.0, s.ooo, s.dup);
    }

    method CloseServerDataRecSlot(dir: Direction, silent: bool) returns (rs: seq<Record>)
      requires Valid() && RxSlotOk(sampled[RX])
      modifies sampled
      ensures Valid() && RxSlotOk(sampled[RX])
      ensures sampled[TX] == (if dir.Tx? then Reopened(Tx, old(sampled[TX])) else old(sampled[TX]))
      ensures sampled[RX] == (if dir.Rx? then Reopened(Rx, old(sampled[RX])) else old(sampled[RX]))
      ensures rs == if silent then [] else [old(Scaled(Closing(dir, sampled[if dir.Rx? then RX else TX], sampled[TX])))]
    {
      var d := if dir.Rx? then RX else TX;
      var s := sampled[d];
      s := s.(num := s.num + 1);
      var r := Record(dir, s.num, 0, 0, 0, 0.0, 0.0, 0.0, 0.0, 0, 0);
      if s.pkts > 0 {
        if dir.Rx? {
          r := Means(s);
        }
        r := r.(pkts := s.pkts, bytes := s.bytes);
      } else if dir.Rx? {
        if sampled[TX].lastSeen > s.lastSeen {
          r := r.(loss := 1.0);
        }
      }
      rs := if silent then [] else [r];
      if dir.Rx? {
        s := s.(ooo := 0, dup := 0, pkts := 0, bytes := 0, firstSeq := s.lastSeen);
        s := s.(rttSum := 0.0, delaySum := 0.0, jitterSum := 0.0);
      }
      sampled[d] := s.(bytes := 0, pkts := 0);
    }

    /** A tick of the slot timer. */
    method Tick(v: View) returns (rs: seq<Record>)
      requires Valid() && RxSlotOk(sampled[RX])
      modifies sampled
      ensures Valid()
      ensures ConnLedger(Snap(), rs) == old(ConnTick(v, ConnLedger(Snap(), [])))
    {
      rs := [];
      if v.slotted && v.file {
        var a := CloseServerDataRecSlot(Tx, v.silent);
        var b := CloseServerDataRecSlot(Rx, v.silent);
        rs := a + b;
      }
    }

    method PrepServerFinalDataRec(dir: Direction) returns (rs: seq<Record>)
      requires Valid() && RxSlotOk(sampled[RX])
      modifies sampled
      ensures Valid() && RxSlotOk(sampled[RX])
      ensures ConnLedger(Snap(), rs) == old(ConnFlushed(dir, ConnLedger(Snap(), [])))
    {
      var d := if dir.Rx? then RX else TX;
      rs := [];
      var r := Record(dir, sampled[d].num + 1, 0, 0, 0, 0.0, 0.0, 0.0, 0.0, 0, 0);
      if sampled[d].pkts > 0 {
        sampled[d] := sampled[d].(num := sampled[d].num + 1);
        if dir.Rx? {
          r := Means(sampled[RX]);
        }
        rs := [r.(pkts := sampled[d].pkts, bytes := sampled[d].bytes)];
      } else if sampled[RX].pkts > 0 {
        sampled[d] := sampled[d].(num := sampled[d].num + 1);
        if dir.Rx? {
          r := r.(loss := 1.0);
        }
        rs := [r];
      }
    }

    /** The end of the connection: both directions are flushed, the sent one first. */
    method Close(v: View) returns (rs: seq<Record>)
      requires Valid() && RxSlotOk(sampled[RX])
      modifies sampled
      ensures Valid()
      ensures ConnLedger(Snap(), rs) == old(ConnClosed(v, ConnLedger(Snap(), [])))
    {
      rs := [];
      if v.slotted && v.file {
        var a := PrepServerFinalDataRec(Tx);
        var b := PrepServerFinalDataRec(Rx);
        rs := a + b;
      }
    }
  }
}
