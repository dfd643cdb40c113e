/** The server's main queue: the broker behind it sees no more replies than packets. */
module ServerQueue {
  import opened SpscQueue
  import opened SpscRuns

  /** One handled PING: its reply either went out or failed. */
  datatype Handled = Handled(conn: nat, num: nat, replied: bool)

  datatype Message = RxPkt(conn: nat, num: nat) | TxPkt(conn: nat, num: nat)

  /** What the receive loop pushes: the received packet first, the sent one only after it. */
  function MainQueue(hs: seq<Handled>): seq<Message> {
    if |hs| == 0 then []
    else
      var h := hs[|hs| - 1];
      MainQueue(hs[..|hs| - 1]) + [RxPkt(h.conn, h.num)] + if h.replied then [TxPkt(h.conn, h.num)] else []
  }

  function CountRx(ms: seq<Message>, conn: nat): nat {
    if |ms| == 0 then 0
    else CountRx(ms[..|ms| - 1], conn) + if ms[|ms| - 1] == RxPkt(conn, ms[|ms| - 1].num) then 1 else 0
  }

  function CountTx(ms: seq<Message>, conn: nat): nat {
    if |ms| == 0 then 0
    else CountTx(ms[..|ms| - 1], conn) + if ms[|ms| - 1] == TxPkt(conn, ms[|ms| - 1].num) then 1 else 0
  }

  lemma CountOneMore(ms: seq<Message>, m: Message, conn: nat)
    ensures CountRx(ms + [m], conn) == CountRx(ms, conn) + if m.RxPkt? && m.conn == conn then 1 else 0
    ensures CountTx(ms + [m], conn) == CountTx(ms, conn) + if m.TxPkt? && m.conn == conn then 1 else 0
  {
    assert (ms + [m])[..|ms|] == ms;
  }

  /** The handled packets of a connection, and those among them that were answered. */
  function HandledOn(hs: seq<Handled>, conn: nat): nat {
    if |hs| == 0 then 0 else HandledOn(hs[..|hs| - 1], conn) + if hs[|hs| - 1].conn == conn then 1 else 0
  }

  function AnsweredOn(hs: seq<Handled>, conn: nat): nat {
    if |hs| == 0 then 0
    else
      var h := hs[|hs| - 1];
      AnsweredOn(hs[..|hs| - 1], conn) + if h.conn == conn && h.replied then 1 else 0
  }

  /** The queue counts each handled packet once, and as sent exactly when its reply went out. */
  lemma {:induction false} QueueCountsAll(hs: seq<Handled>, conn: nat)
    ensures CountRx(MainQueue(hs), conn) == HandledOn(hs, conn)
    ensures CountTx(MainQueue(hs), conn) == AnsweredOn(hs, conn)
    decreases |hs|
  {
    if |hs| == 0 {
    } else {
      var h, q := hs[|hs| - 1], MainQueue(hs[..|hs| - 1]);
      QueueCountsAll(hs[..|hs| - 1], conn);
      var rx, tx := RxPkt(h.conn, h.num), TxPkt(h.conn, h.num);
      CountOneMore(q, rx, conn);
      CountOneMore(q + [rx], tx, conn);
      assert MainQueue(hs) == if h.replied then q + [rx] + [tx] else q + [rx];
      hide CountRx, CountTx;
    }
  }

  /** On every beginning of the queue, and for every connection, no more packets count as
      sent than as received. */
  lemma {:induction false} NeverMoreSentThanReceived(hs: seq<Handled>, done: seq<Message>, conn: nat)
    requires done <= MainQueue(hs)
    ensures CountTx(done, conn) <= CountRx(done, conn)
    decreases |hs|
  {
    if |hs| == 0 {
      assert done == [];
    } else {
      var h, q := hs[|hs| - 1], MainQueue(hs[..|hs| - 1]);
      var rx, tx := RxPkt(h.conn, h.num), TxPkt(h.conn, h.num);
      if |done| <= |q| {
        NeverMoreSentThanReceived(hs[..|hs| - 1], done, conn);
      } else {
        NeverMoreSentThanReceived(hs[..|hs| - 1], q, conn);
        CountOneMore(q, rx, conn);
        CountOneMore(q + [rx], tx, conn);
        assert done == q + [rx] || done == q + [rx] + [tx];
      }
    }
  }

  /** The same through the lock-free queue, at any point of any interleaving. */
  lemma SentNeverOvertakesReceived(capacity: nat, acts: seq<Action<Message>>, hs: seq<Handled>, conn: nat)
    requires Disciplined(acts)
    requires Enqueued(Run(Init(capacity), acts).events) <= MainQueue(hs)
    ensures var done := Dequeued(Run(Init(capacity), acts).events); CountTx(done, conn) <= CountRx(done, conn)
  {
    EveryScheduleIsFifo(capacity, acts);
    hide Run, Abs, Enqueued, Dequeued, MainQueue;
    NeverMoreSentThanReceived(hs, Dequeued(Run(Init(capacity), acts).events), conn);
  }
}
