/** The client's message broker as an object: its methods update the counters in place. */
module ClientBroker {
  import opened SlotStats
  import opened ClientStats

  const TX: nat := 0
  const RX: nat := 1

  class Broker {
    const cfg: Config
    const sampled: array<Slot>
    var pktTx: nat
    var bytesTx: nat
    var pktRx: nat
    var bytesRx: nat
    var dupCnt: nat
    var oooCnt: nat
    var lastSeenSeq: nat
    var jitter: real
    var jtPrev: real
    var jtDiff: real
    var jtRttPrev: real

    ghost predicate Valid()
      reads this
    {
      sampled.Length == 2
    }

    ghost function Snap(): Stats
      reads this, sampled
      requires Valid()
    {
      Stats(sampled[TX], sampled[RX], pktTx, bytesTx, pktRx, bytesRx, dupCnt, oooCnt,
            Jitter(jitter, jtRttPrev), lastSeenSeq)
    }

    constructor (cfg: Config)
      ensures Valid() && fresh(sampled) && this.cfg == cfg && Snap() == NoStats()
    {
      this.cfg := cfg;
      sampled := new Slot[2](_ => EmptySlot());
      pktTx, bytesTx, pktRx, bytesRx, dupCnt, oooCnt, lastSeenSeq := 0, 0, 0, 0, 0, 0, 0;
      jitter, jtPrev, jtDiff, jtRttPrev := 0.0, 0.0, 0.0, 0.0;
    }

    method UpdateJitter(rtt: real)
      modifies `jitter, `jtPrev, `jtDiff, `jtRttPrev
      ensures Jitter(jitter, jtRttPrev) == Smoothed(Jitter(old(jitter), old(jtRttPrev)), rtt)
    {
      jtDiff := rtt - jtRttPrev;
      jtRttPrev := rtt;
      if jtDiff < 0.0 {
        jtDiff := -jtDiff;
      }
      jtPrev := jitter;
      jitter := jtPrev + (1.0 / 16.0) * (jtDiff - jtPrev);
    }

    /** The JSON path: filters received packets only when a slot length is set. */
    method PrepDataRec(dir: Direction, p: Packet)
      requires Valid() && !cfg.mode.PingText?
      modifies this, sampled
      ensures Valid()
      ensures Snap() == if dir.Rx? then OnReceived(cfg.mode, old(Snap()), p) else OnSent(cfg.mode, old(Snap()), p)
    {
      if cfg.mode.Sampled? {
        if dir.Rx? {
          var s := sampled[RX];
          if s.lastSeen == p.num {
            dupCnt := dupCnt + 1;
            sampled[RX] := s.(dup := s.dup + 1);
            return;
          }
          if s.lastSeen > p.num {
            oooCnt := oooCnt + 1;
            sampled[RX] := s.(ooo := s.ooo + 1);
            return;
          }
          pktRx, bytesRx := pktRx + 1, bytesRx + p.size;
          UpdateJitter(p.rtt);
          s := s.(rttSum := s.rttSum + p.rtt, delaySum := s.delaySum + p.delay, jitterSum := s.jitterSum + jitter);
          sampled[RX] := s.(pkts := s.pkts + 1, bytes := s.bytes + p.size, lastSeen := p.num);
        } else {
          var s := sampled[TX];
          pktTx, bytesTx := pktTx + 1, bytesTx + p.size;
          sampled[TX] := s.(pkts := s.pkts + 1, bytes := s.bytes + p.size, lastSeen := p.num);
        }
      } else {
        if dir.Tx? {
          pktTx, bytesTx := pktTx + 1, bytesTx + p.size;
          sampled[TX] := sampled[TX].(lastSeen := p.num);
        } else {
          if sampled[RX].lastSeen == p.num {
            dupCnt := dupCnt + 1;
          }
          if sampled[RX].lastSeen > p.num {
            oooCnt := oooCnt + 1;
          }
          pktRx, bytesRx := pktRx + 1, bytesRx + p.size;
          UpdateJitter(p.rtt);
          sampled[RX] := sampled[RX].(lastSeen := p.num);
        }
      }
    }

    /** The text path of a received packet. */
    method PingOutputRec(p: Packet)
      requires Valid() && cfg.mode.PingText?
      modifies this
      ensures Valid() && Snap() == OnReceived(PingText, old(Snap()), p)
    {
      if lastSeenSeq == p.num {
        dupCnt := dupCnt + 1;
        return;
      }
      if lastSeenSeq > p.num {
        oooCnt := oooCnt + 1;
        return;
      }
      pktRx, bytesRx := pktRx + 1, bytesRx + p.size;
      UpdateJitter(p.rtt);
      lastSeenSeq := p.num;
    }

    /** The fields of a received record that are computed from the slot. */
    static method Means(s: Slot) returns (r: Record)
      requires RxSlotOk(s) && s.pkts > 0
      ensures r == RxRecord(s, s.num) && Tells(r, Held(s), 1.0)
    {
      RecordTells(s, s.num);
      var span := s.lastSeen - s.firstSeq;
      var loss := 1.0 - s.pkts as real / span as real;
      if loss > 1.0 {
        loss := 1.0;
      }
      r := Record(Rx, s.num, s.pkts, s.bytes, span, loss, s.rttSum / s.pkts as real, s.delaySum / s.pkts as real,
                  s.jitterSum / s.pkts as real, s.ooo, s.dup);
    }

    /** Closes the slot of one direction; nothing is printed in silent mode. */
    method CloseDataRecSlot(dir: Direction) returns (rs: seq<Record>)
      requires Valid() && RxSlotOk(sampled[RX])
      modifies sampled
      ensures Valid() && RxSlotOk(sampled[RX])
      ensures sampled[TX] == (if dir.Tx? then Reopened(Tx, old(sampled[TX])) else old(sampled[TX]))
      ensures sampled[RX] == (if dir.Rx? then Reopened(Rx, old(sampled[RX])) else old(sampled[RX]))
      ensures rs == if cfg.silent then [] else [old(Closing(dir, sampled[if dir.Rx? then RX else TX], sampled[TX]))]
    {
      var d := if dir.Rx? then RX else TX;
      var s := sampled[d];
      s := s.(num := s.num + 1);
      var r := Record(dir, s.num, 0, 0, 0, 0.0, 0.0, 0.0, 0.0, 0, 0);
      if s.pkts > 0 {
        if dir.Rx? {
          r := Means(s);
        }
        r := r.(pkts := s.pkts, bytes := s.bytes);
      } else if dir.Rx? {
        if sampled[TX].lastSeen > s.lastSeen {
          r := r.(loss := 1.0);
        }
      }
      rs := if cfg.silent then [] else [r];
      if dir.Rx? {
        s := s.(ooo := 0, dup := 0, pkts := 0, bytes := 0, firstSeq := s.lastSeen);
        s := s.(rttSum := 0.0, delaySum := 0.0, jitterSum := 0.0);
      }
      sampled[d] := s.(bytes := 0, pkts := 0);
    }

    /** The last record of one direction. */
    method PrepFinalDataRec(dir: Direction) returns (rs: seq<Record>)
      requires Valid() && RxSlotOk(sampled[RX])
      modifies sampled
      ensures Valid() && RxSlotOk(sampled[RX])
      ensures Ledger(Snap(), rs) == old(Flushed(dir, Ledger(Snap(), [])))
    {
      var d := if dir.Rx? then RX else TX;
      rs := [];
      var r := Record(dir, sampled[d].num + 1, 0, 0, 0, 0.0, 0.0, 0.0, 0.0, 0, 0);
      if sampled[d].pkts > 0 {
        sampled[d] := sampled[d].(num := sampled[d].num + 1);
        if dir.Rx? {
          r := Means(sampled[RX]);
        }
        rs := [r.(pkts := sampled[d].pkts, bytes := sampled[d].bytes)];
      } else if sampled[TX].pkts > 0 {
        sampled[d] := sampled[d].(num := sampled[d].num + 1);
        if dir.Rx? {
          r := r.(loss := 1.0);
        }
        rs := [r];
      }
    }

    /** One data message or timer tick. */
    method Process(e: Event) returns (rs: seq<Record>)
      requires Valid() && (!cfg.mode.PerPacket? ==> RxSlotOk(sampled[RX]))
      modifies this, sampled
      ensures Valid()
      ensures Ledger(Snap(), rs) == old(Feed(cfg, Ledger(Snap(), []), e))
    {
      rs := [];
      match e {
        case Received(p) =>
          if cfg.mode.PingText? {
            PingOutputRec(p);
          } else {
            PrepDataRec(Rx, p);
          }
        case Sent(p) =>
          if cfg.mode.PingText? {
            pktTx := pktTx + 1;
          } else {
            PrepDataRec(Tx, p);
          }
        case Tick =>
          if !cfg.mode.PerPacket? {
            var a := CloseDataRecSlot(Tx);
            var b := CloseDataRecSlot(Rx);
            rs := a + b;
          }
      }
    }

    /** The end of the run: what is still open is printed, unless the run is silent. */
    method Close() returns (rs: seq<Record>)
      requires Valid() && RxSlotOk(sampled[RX])
      modifies sampled
      ensures Valid()
      ensures Ledger(Snap(), rs) == old(OnClose(cfg, Ledger(Snap(), [])))
    {
      rs := [];
      if !cfg.silent {
        var a := PrepFinalDataRec(Tx);
        var b := PrepFinalDataRec(Rx);
        rs := a + b;
      }
    }

    /** A whole run prints the report that the ledger functions describe. */
    method Run(es: seq<Event>) returns (rs: seq<Record>)
      requires Valid() && Snap() == NoStats()
      modifies this, sampled
      ensures Valid()
      ensures Ledger(Snap(), rs) == if cfg.mode.PerPacket? then After(cfg, es) else OnClose(cfg, After(cfg, es))
    {
      rs := [];
      var i := 0;
      assert es[..0] == [];
      while i < |es|
        invariant 0 <= i <= |es| && Valid()
        invariant Ledger(Snap(), rs) == After(cfg, es[..i])
      {
        assert es[..i + 1][..i] == es[..i];
        FeedAppends(cfg, After(cfg, es[..i]), es[i]);
        var more := Process(es[i]);
        rs := rs + more;
        i := i + 1;
      }
      assert es[..|es|] == es;
      if !cfg.mode.PerPacket? {
        CloseAppends(cfg, After(cfg, es));
        var last := Close();
        rs := rs + last;
      }
    }
  }

  lemma FeedAppends(cfg: Config, l: Ledger, e: Event)
    requires !cfg.mode.PerPacket? ==> RxSlotOk(l.stats.rx)
    ensures var one := Feed(cfg, Ledger(l.stats, []), e);
            Feed(cfg, l, e) == Ledger(one.stats, l.records + one.records)
  {
  }

  lemma CloseAppends(cfg: Config, l: Ledger)
    requires RxSlotOk(l.stats.rx)
    ensures var one := OnClose(cfg, Ledger(l.stats, []));
            OnClose(cfg, l) == Ledger(one.stats, l.records + one.records)
  {
  }
}
