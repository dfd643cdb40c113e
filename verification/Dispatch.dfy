/** The client broker's loop over its received and sent queues, with messages arriving
    between any two looks at a queue. */
module Dispatch {
  import opened SlotStats

  /** A queued message with the time it was pushed, in ticks of the system clock. */
  datatype Msg = Msg(dir: Direction, ts: nat, id: nat)

  /** What the two producing threads push before the broker looks again. */
  datatype Batch = Batch(rx: seq<Msg>, tx: seq<Msg>)

  ghost predicate Proper(ms: seq<Msg>, dir: Direction) {
    forall i :: 0 <= i < |ms| ==> ms[i].dir == dir && ms[i].ts > 0
  }

  function Of(ms: seq<Msg>, dir: Direction): seq<Msg> {
    if |ms| == 0 then []
    else
      var rest := Of(ms[..|ms| - 1], dir);
      if ms[|ms| - 1].dir == dir then rest + [ms[|ms| - 1]] else rest
  }

  lemma OfOneMore(ms: seq<Msg>, m: Msg, dir: Direction)
    ensures Of(ms + [m], dir) == if m.dir == dir then Of(ms, dir) + [m] else Of(ms, dir)
  {
    assert (ms + [m])[..|ms|] == ms;
  }

  lemma Regroup(a: seq<Msg>, q: seq<Msg>, b: seq<Msg>)
    requires q != []
    ensures (a + [q[0]]) + q[1..] + b == a + q + b
  {
  }

  /** The tests of the loop, on the times of the heads it saw; 0 stands for no head. */
  predicate Idles(rxTs: nat, txTs: nat) {
    rxTs == 0 && txTs == 0
  }

  predicate TakesTx(rxTs: nat, txTs: nat) {
    !Idles(rxTs, txTs) && (rxTs < txTs || (txTs != 0 && rxTs == 0))
  }

  predicate TakesRx(rxTs: nat, txTs: nat) {
    !Idles(rxTs, txTs) && (rxTs >= txTs || (txTs == 0 && rxTs != 0))
  }

  /** A pass takes exactly one message unless it saw no positive time at all; then it takes
      none, so a lone message stamped 0 would never be taken. Of two heads it takes the
      later one, and the received one when they tie. */
  lemma ExactlyOneTaken(rxTs: nat, txTs: nat)
    ensures Idles(rxTs, txTs) <==> !TakesTx(rxTs, txTs) && !TakesRx(rxTs, txTs)
    ensures !(TakesTx(rxTs, txTs) && TakesRx(rxTs, txTs))
    ensures TakesTx(rxTs, txTs) ==> txTs > rxTs
    ensures TakesRx(rxTs, txTs) ==> rxTs >= txTs && rxTs != 0
  {
  }

  class Broker {
    var rx: seq<Msg>
    var tx: seq<Msg>
    var processed: seq<Msg>
    ghost var rxIn: seq<Msg>
    ghost var txIn: seq<Msg>

    /** Every message ever pushed was processed once or still waits, in order per direction. */
    ghost predicate Valid()
      reads this
    {
      && Proper(rx, Rx) && Proper(tx, Tx)
      && Of(processed, Rx) + rx == rxIn
      && Of(processed, Tx) + tx == txIn
    }

    constructor ()
      ensures Valid() && rx == [] && tx == [] && processed == [] && rxIn == [] && txIn == []
    {
      rx, tx, processed, rxIn, txIn := [], [], [], [], [];
    }

    method Arrive(b: Batch)
      requires Valid() && Proper(b.rx, Rx) && Proper(b.tx, Tx)
      modifies this
      ensures Valid() && processed == old(processed)
      ensures rx == old(rx) + b.rx && tx == old(tx) + b.tx
      ensures rxIn == old(rxIn) + b.rx && txIn == old(txIn) + b.tx
    {
      rx, tx := rx + b.rx, tx + b.tx;
      rxIn, txIn := rxIn + b.rx, txIn + b.tx;
    }

    method ProcessTx()
      requires Valid() && tx != []
      modifies `tx, `processed
      ensures Valid() && processed == old(processed) + [old(tx[0])] && tx == old(tx[1..])
    {
      OfOneMore(processed, tx[0], Rx);
      OfOneMore(processed, tx[0], Tx);
      Regroup(Of(processed, Tx), tx, []);
      processed := processed + [tx[0]];
      tx := tx[1..];
    }

    method ProcessRx()
      requires Valid() && rx != []
      modifies `rx, `processed
      ensures Valid() && processed == old(processed) + [old(rx[0])] && rx == old(rx[1..])
    {
      OfOneMore(processed, rx[0], Rx);
      OfOneMore(processed, rx[0], Tx);
      Regroup(Of(processed, Rx), rx, []);
      processed := processed + [rx[0]];
      rx := rx[1..];
    }

    /** The choice between the heads that were seen at the given times, 0 for none. */
    method Take(rxTs: nat, txTs: nat)
      requires Valid() && !Idles(rxTs, txTs)
      requires (rxTs != 0 ==> rx != []) && (txTs != 0 ==> tx != [])
      modifies `rx, `tx, `processed
      ensures Valid() && |rx| + |tx| + 1 == old(|rx| + |tx|)
      ensures TakesTx(rxTs, txTs) ==> old(tx) != [] && processed == old(processed) + [old(tx)[0]]
      ensures TakesRx(rxTs, txTs) ==> old(rx) != [] && processed == old(processed) + [old(rx)[0]]
    {
      ExactlyOneTaken(rxTs, txTs);
      hide TakesTx, TakesRx, Of, Proper;
      if TakesTx(rxTs, txTs) {
        ProcessTx();
      }
      if TakesRx(rxTs, txTs) {
        ProcessRx();
      }
    }

    /** One pass after the loop saw a message: `b1` arrives before the received queue is
        read, `b2` before the sent one, `b3` before the choice. */
    method Pass(b1: Batch, b2: Batch, b3: Batch)
      requires Valid() && (rx != [] || tx != [])
      requires forall b :: b in {b1, b2, b3} ==> Proper(b.rx, Rx) && Proper(b.tx, Tx)
      modifies this
      ensures Valid()
      ensures |processed| == old(|processed|) + 1 && old(processed) < processed
      ensures |rx| + |tx| + 1 == old(|rx| + |tx|) + |b1.rx| + |b2.rx| + |b3.rx| + |b1.tx| + |b2.tx| + |b3.tx|
      ensures rxIn == old(rxIn) + b1.rx + b2.rx + b3.rx && txIn == old(txIn) + b1.tx + b2.tx + b3.tx
      ensures var m, rxSeen, txSeen := processed[|processed| - 1], old(rx) + b1.rx, old(tx) + b1.tx + b2.tx;
              && m in (if m.dir.Rx? then rxSeen else txSeen)
              && (rxSeen != [] && txSeen != [] ==> m.ts >= rxSeen[0].ts && m.ts >= txSeen[0].ts)
    {
      hide Of;
      Arrive(b1);
      ghost var rxSeen := rx;
      var rxTs, txTs := 0, 0;
      if rx != [] {
        rxTs := rx[0].ts;
      }
      Arrive(b2);
      ghost var txSeen := tx;
      if tx != [] {
        txTs := tx[0].ts;
      }
      Arrive(b3);
      ExactlyOneTaken(rxTs, txTs);
      assert rxTs != 0 ==> rx[0] == rxSeen[0] && rx[0].dir.Rx?;
      assert txTs != 0 ==> tx[0] == txSeen[0] && tx[0].dir.Tx?;
      hide TakesTx, TakesRx;
      Take(rxTs, txTs);
    }

    /** The loop guard: `b` arrives between its look at the received queue and its look at
        the sent one. */
    method Look(b: Batch) returns (seen: bool)
      requires Valid() && Proper(b.rx, Rx) && Proper(b.tx, Tx)
      modifies this
      ensures Valid() && processed == old(processed)
      ensures seen ==> rx != [] || tx != []
      ensures !seen ==> tx == [] && rx == b.rx
      ensures |rx| + |tx| == old(|rx| + |tx|) + |b.rx| + |b.tx|
      ensures rxIn == old(rxIn) + b.rx && txIn == old(txIn) + b.tx
    {
      seen := rx != [];
      Arrive(b);
      seen := seen || tx != [];
    }

    /** The loop: `script` says what arrives at each look, nothing once it is used up. At the
        end everything that arrived was processed once, in order, except what came in
        between the last two looks; that waits in the received queue. */
    method Drain(script: seq<Batch>) returns (used: nat)
      requires Valid() && ProperScript(script)
      modifies this
      ensures Valid() && used > 0 && old(processed) <= processed
      ensures tx == [] && rx == At(script, used - 1).rx
      ensures Of(processed, Rx) + rx == old(rxIn) + Pushed(script, used, Rx)
      ensures Of(processed, Tx) == old(txIn) + Pushed(script, used, Tx)
    {
      hide Proper, Of, Pushed, ProperScript;
      AtProper(script, 0);
      PushedFirst(script);
      var go := Look(At(script, 0));
      used := 1;
      while go
        invariant Valid() && used > 0 && old(processed) <= processed
        invariant go ==> rx != [] || tx != []
        invariant !go ==> tx == [] && rx == At(script, used - 1).rx
        invariant rxIn == old(rxIn) + Pushed(script, used, Rx)
        invariant txIn == old(txIn) + Pushed(script, used, Tx)
        decreases go, if used < |script| then |script| - used else 0, |rx| + |tx|
      {
        go := Turn(script, used, old(rxIn), old(txIn));
        used := used + 4;
      }
    }

    /** One turn of the loop: a pass, and the guard again. */
    method Turn(script: seq<Batch>, used: nat, ghost rx0: seq<Msg>, ghost tx0: seq<Msg>) returns (go: bool)
      requires Valid() && ProperScript(script) && (rx != [] || tx != [])
      requires rxIn == rx0 + Pushed(script, used, Rx) && txIn == tx0 + Pushed(script, used, Tx)
      modifies this
      ensures Valid() && old(processed) < processed
      ensures go ==> rx != [] || tx != []
      ensures !go ==> tx == [] && rx == At(script, used + 3).rx
      ensures rxIn == rx0 + Pushed(script, used + 4, Rx) && txIn == tx0 + Pushed(script, used + 4, Tx)
      ensures used >= |script| ==> |rx| + |tx| < old(|rx| + |tx|)
    {
      var a, b, c, d := At(script, used), At(script, used + 1), At(script, used + 2), At(script, used + 3);
      AtProper(script, used);
      AtProper(script, used + 1);
      AtProper(script, used + 2);
      AtProper(script, used + 3);
      PushedFour(script, used, Rx);
      PushedFour(script, used, Tx);
      AppendFour(rx0, Pushed(script, used, Rx), a.rx, b.rx, c.rx, d.rx);
      AppendFour(tx0, Pushed(script, used, Tx), a.tx, b.tx, c.tx, d.tx);
      hide Proper, Of, Pushed, ProperScript;
      Pass(a, b, c);
      go := Look(d);
    }
  }

  ghost predicate ProperScript(script: seq<Batch>) {
    forall i :: 0 <= i < |script| ==> Proper(script[i].rx, Rx) && Proper(script[i].tx, Tx)
  }

  /** What arrives at look number `i`. */
  function At(script: seq<Batch>, i: nat): Batch {
    if i < |script| then script[i] else Batch([], [])
  }

  lemma AtProper(script: seq<Batch>, i: nat)
    requires ProperScript(script)
    ensures Proper(At(script, i).rx, Rx) && Proper(At(script, i).tx, Tx)
  {
  }

  function Part(b: Batch, dir: Direction): seq<Msg> {
    if dir.Rx? then b.rx else b.tx
  }

  /** The messages of one direction that arrive in the first `k` looks. */
  function Pushed(script: seq<Batch>, k: nat, dir: Direction): seq<Msg> {
    if k == 0 then [] else Pushed(script, k - 1, dir) + Part(At(script, k - 1), dir)
  }

  lemma PushedFirst(script: seq<Batch>)
    ensures Pushed(script, 1, Rx) == At(script, 0).rx && Pushed(script, 1, Tx) == At(script, 0).tx
  {
  }

  lemma PushedOneMore(script: seq<Batch>, k: nat, dir: Direction)
    ensures Pushed(script, k + 1, dir) == Pushed(script, k, dir) + Part(At(script, k), dir)
  {
  }

  lemma PushedFour(script: seq<Batch>, k: nat, dir: Direction)
    ensures Pushed(script, k + 4, dir)
         == Pushed(script, k, dir) + Part(At(script, k), dir) + Part(At(script, k + 1), dir)
          + Part(At(script, k + 2), dir) + Part(At(script, k + 3), dir)
  {
    PushedOneMore(script, k, dir);
    PushedOneMore(script, k + 1, dir);
    PushedOneMore(script, k + 2, dir);
    PushedOneMore(script, k + 3, dir);
    hide Pushed;
  }

  lemma AppendFour(before: seq<Msg>, p: seq<Msg>, a: seq<Msg>, b: seq<Msg>, c: seq<Msg>, d: seq<Msg>)
    ensures (before + p) + a + b + c + d == before + (p + a + b + c + d)
  {
    assert (before + p) + a + b + c + d == before + (p + a + b + c + d);
  }
}
