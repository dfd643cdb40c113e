/** The send loop of the client, with the clock, the socket and the stop flag as inputs. */
module PacketSender {
  import opened Arithmetic
  import opened PacketCursor
  import opened ClientStats

  const GRACE: nat := 250_000 // ns a packet may be late before it is dropped
  const HEADER_LENGTH: nat := 32

  /** `start` and `deadline` are times in ns, the deadline counted from the same origin. */
  datatype Job = Job(count: nat, start: nat, deadline: nat, antiAsym: bool)

  /** What one turn of the loop meets: the stop flag, the clock before and after waiting,
      whether the packet buffer has a packet, and whether the socket takes it. */
  datatype Turn = Turn(stop: bool, now: nat, ready: bool, woke: nat, sent: bool)

  datatype Probe = Probe(num: nat, len: nat, at: nat)

  /** `next` is the loop variable, a 32-bit unsigned number. `source[j]` is the place in the
      plan that probe `j` came from. */
  datatype Progress = Progress(
    next: nat,
    taken: nat,
    stopped: bool,
    probes: seq<Probe>,
    source: seq<nat>,
    late: nat,
    failed: nat)

  function Idle(): Progress {
    Progress(1, 0, false, [], [], 0, 0)
  }

  function OneTurn(job: Job, plan: seq<TimedPacket>, s: Progress, t: Turn): Progress {
    if s.stopped || s.next > job.count || t.stop || !t.ready || s.taken >= |plan| then s.(stopped := true)
    else
      var p := plan[s.taken];
      if t.now > job.start + p.ts + GRACE then s.(taken := s.taken + 1, late := s.late + 1)
      else
        var s1 := s.(taken := s.taken + 1, stopped := job.deadline < t.woke);
        if t.sent then
          s1.(probes := s.probes + [Probe(s.next, if job.antiAsym then HEADER_LENGTH else p.len, t.woke)],
              source := s.source + [s.taken],
              next := (s.next + 1) % UINT32)
        else s1.(failed := s.failed + 1)
  }

  function AfterTurns(job: Job, plan: seq<TimedPacket>, ts: seq<Turn>): Progress {
    if |ts| == 0 then Idle() else OneTurn(job, plan, AfterTurns(job, plan, ts[..|ts| - 1]), ts[|ts| - 1])
  }

  /** The loop itself. */
  method SendLoop(job: Job, plan: seq<TimedPacket>, ts: seq<Turn>) returns (s: Progress)
    ensures s == AfterTurns(job, plan, ts)
  {
    var i: nat, taken: nat, late: nat, failed: nat := 1, 0, 0, 0;
    var stop := false;
    var probes: seq<Probe>, source: seq<nat> := [], [];
    var k := 0;
    assert ts[..0] == [];
    while k < |ts|
      invariant 0 <= k <= |ts|
      invariant Progress(i, taken, stop, probes, source, late, failed) == AfterTurns(job, plan, ts[..k])
    {
      var t := ts[k];
      assert ts[..k + 1][..k] == ts[..k];
      k := k + 1;
      if i > job.count || stop || t.stop {
        stop := true;
        continue;
      }
      if !t.ready || taken >= |plan| {
        stop := true;
        continue;
      }
      var tinfo := plan[taken];
      taken := taken + 1;
      if t.now > job.start + tinfo.ts + GRACE {
        late := late + 1;
        continue;
      }
      var probe := Probe(i, tinfo.len, t.woke);
      if job.deadline < t.woke {
        stop := true;
      }
      if job.antiAsym {
        probe := probe.(len := HEADER_LENGTH);
      }
      if !t.sent {
        failed := failed + 1;
        continue;
      }
      probes, source := probes + [probe], source + [taken - 1];
      i := (i + 1) % UINT32;
    }
    assert ts[..|ts|] == ts;
    s := Progress(i, taken, stop, probes, source, late, failed);
  }

  predicate Tallied(job: Job, plan: seq<TimedPacket>, s: Progress) {
    && s.next == (|s.probes| + 1) % UINT32
    && s.taken == |s.probes| + s.late + s.failed <= |plan|
    && |s.source| == |s.probes|
    && (job.count < UINT32 - 1 ==> |s.probes| <= job.count)
  }

  /** Probes come from ever later places of the plan. */
  predicate InPlanOrder(s: Progress) {
    && (forall j :: 0 <= j < |s.source| ==> s.source[j] < s.taken)
    && (forall i, j :: 0 <= i < j < |s.source| ==> s.source[i] < s.source[j])
  }

  predicate Contents(job: Job, plan: seq<TimedPacket>, s: Progress)
    requires |s.source| == |s.probes| && InPlanOrder(s) && s.taken <= |plan|
  {
    forall j :: 0 <= j < |s.probes| ==>
      && s.probes[j].num == (j + 1) % UINT32
      && s.probes[j].len == (if job.antiAsym then HEADER_LENGTH else plan[s.source[j]].len)
      && (j < |s.probes| - 1 || !s.stopped ==> s.probes[j].at <= job.deadline)
  }

  predicate SendOk(job: Job, plan: seq<TimedPacket>, s: Progress) {
    Tallied(job, plan, s) && InPlanOrder(s) && Contents(job, plan, s)
  }

  lemma NextNumber(k: nat)
    ensures ((k + 1) % UINT32 + 1) % UINT32 == (k + 2) % UINT32
  {
  }

  lemma TallyStep(job: Job, plan: seq<TimedPacket>, s: Progress, t: Turn)
    requires Tallied(job, plan, s)
    ensures Tallied(job, plan, OneTurn(job, plan, s, t))
  {
    NextNumber(|s.probes|);
  }

  lemma OrderStep(job: Job, plan: seq<TimedPacket>, s: Progress, t: Turn)
    requires InPlanOrder(s)
    ensures InPlanOrder(OneTurn(job, plan, s, t))
  {
  }

  lemma SendStep(job: Job, plan: seq<TimedPacket>, s: Progress, t: Turn)
    requires SendOk(job, plan, s)
    ensures SendOk(job, plan, OneTurn(job, plan, s, t))
  {
    TallyStep(job, plan, s, t);
    OrderStep(job, plan, s, t);
    var r := OneTurn(job, plan, s, t);
    forall j | 0 <= j < |r.probes|
      ensures r.probes[j].num == (j + 1) % UINT32
      ensures r.probes[j].len == (if job.antiAsym then HEADER_LENGTH else plan[r.source[j]].len)
      ensures j < |r.probes| - 1 || !r.stopped ==> r.probes[j].at <= job.deadline
    {
      if j < |s.probes| {
        assert r.probes[j] == s.probes[j] && r.source[j] == s.source[j];
      }
    }
  }

  /** However packets are delayed and sends fail: probes that went out are numbered 1, 2, 3
      and so on in 32 bits without a gap, dropped packets and failed sends use up no number,
      each taken packet is sent, dropped late or failed, probes keep the order of the plan,
      only the last one can be past the deadline, and a count below 2^32-1 is kept. */
  lemma {:induction false} ProbesAreNumbered(job: Job, plan: seq<TimedPacket>, ts: seq<Turn>)
    ensures SendOk(job, plan, AfterTurns(job, plan, ts))
    decreases |ts|
  {
    if |ts| == 0 {
    } else {
      ProbesAreNumbered(job, plan, ts[..|ts| - 1]);
      SendStep(job, plan, AfterTurns(job, plan, ts[..|ts| - 1]), ts[|ts| - 1]);
      hide SendOk, OneTurn;
    }
  }

  // The run read from the turns alone: packet k is looked at on turn k

  /** More than 250 microseconds behind its target time when it is looked at. */
  predicate Late(job: Job, plan: seq<TimedPacket>, ts: seq<Turn>, k: nat)
    requires k < |ts|
  {
    k < |plan| && ts[k].now > job.start + plan[k].ts + 250_000
  }

  predicate GoesOut(job: Job, plan: seq<TimedPacket>, ts: seq<Turn>, k: nat)
    requires k < |ts|
  {
    !Late(job, plan, ts, k) && ts[k].sent
  }

  function LateOnes(job: Job, plan: seq<TimedPacket>, ts: seq<Turn>, k: nat): nat
    requires k <= |ts|
  {
    if k == 0 then 0 else LateOnes(job, plan, ts, k - 1) + if Late(job, plan, ts, k - 1) then 1 else 0
  }

  function OutOnes(job: Job, plan: seq<TimedPacket>, ts: seq<Turn>, k: nat): nat
    requires k <= |ts|
  {
    if k == 0 then 0 else OutOnes(job, plan, ts, k - 1) + if GoesOut(job, plan, ts, k - 1) then 1 else 0
  }

  /** Some packet before `k` was waited for until after the deadline. */
  predicate Overdue(job: Job, plan: seq<TimedPacket>, ts: seq<Turn>, k: nat)
    requires k <= |ts|
  {
    exists j :: 0 <= j < k && !Late(job, plan, ts, j) && ts[j].woke > job.deadline
  }

  /** The loop still runs on turn `k` and finds a packet. */
  predicate Takes(job: Job, plan: seq<TimedPacket>, ts: seq<Turn>, k: nat)
    requires k < |ts|
  {
    && !ts[k].stop && ts[k].ready && k < |plan|
    && (OutOnes(job, plan, ts, k) + 1) % UINT32 <= job.count
    && !Overdue(job, plan, ts, k)
  }

  /** The loop takes packet k on turn k until the first turn that finds it at its end. */
  ghost predicate TakenExactly(job: Job, plan: seq<TimedPacket>, ts: seq<Turn>, n: nat, s: Progress)
    requires n <= |ts|
  {
    && s.taken <= n && s.taken <= |plan|
    && (forall k :: 0 <= k < s.taken ==> Takes(job, plan, ts, k))
    && (s.taken < n ==> !Takes(job, plan, ts, s.taken))
    && (s.stopped <==> s.taken < n || Overdue(job, plan, ts, s.taken))
  }

  /** Exactly the packets that were on time and that the socket took are probes. */
  ghost predicate SentExactly(job: Job, plan: seq<TimedPacket>, ts: seq<Turn>, s: Progress)
    requires s.taken <= |ts|
  {
    && s.late == LateOnes(job, plan, ts, s.taken)
    && |s.probes| == |s.source| == OutOnes(job, plan, ts, s.taken)
    && (forall k :: k in s.source <==> 0 <= k < s.taken && GoesOut(job, plan, ts, k))
    && (forall j :: 0 <= j < |s.probes| ==> s.source[j] < s.taken && s.probes[j].at == ts[s.source[j]].woke)
  }

  lemma TakenStep(job: Job, plan: seq<TimedPacket>, ts: seq<Turn>, n: nat, s: Progress)
    requires n < |ts| && TakenExactly(job, plan, ts, n, s) && SentExactly(job, plan, ts, s)
    requires Tallied(job, plan, s)
    ensures TakenExactly(job, plan, ts, n + 1, OneTurn(job, plan, s, ts[n]))
  {
    if s.taken == n {
      assert s.next == (OutOnes(job, plan, ts, n) + 1) % UINT32;
    }
  }

  lemma SentStep(job: Job, plan: seq<TimedPacket>, ts: seq<Turn>, n: nat, s: Progress)
    requires n < |ts| && TakenExactly(job, plan, ts, n, s) && SentExactly(job, plan, ts, s)
    requires Tallied(job, plan, s)
    ensures OneTurn(job, plan, s, ts[n]).taken <= |ts|
    ensures SentExactly(job, plan, ts, OneTurn(job, plan, s, ts[n]))
  {
    var r := OneTurn(job, plan, s, ts[n]);
    if r.taken != s.taken {
      assert s.taken == n;
      forall k
        ensures k in r.source <==> 0 <= k < r.taken && GoesOut(job, plan, ts, k)
      {
        if GoesOut(job, plan, ts, n) {
          assert r.source == s.source + [n];
        } else {
          assert r.source == s.source;
        }
      }
    }
  }

  lemma {:induction false} ExactSoFar(job: Job, plan: seq<TimedPacket>, ts: seq<Turn>, n: nat)
    requires n <= |ts|
    ensures var s := AfterTurns(job, plan, ts[..n]);
            TakenExactly(job, plan, ts, n, s) && SentExactly(job, plan, ts, s)
  {
    if n == 0 {
      assert ts[..0] == [];
    } else {
      ExactSoFar(job, plan, ts, n - 1);
      ProbesAreNumbered(job, plan, ts[..n - 1]);
      var s := AfterTurns(job, plan, ts[..n - 1]);
      TakenStep(job, plan, ts, n - 1, s);
      SentStep(job, plan, ts, n - 1, s);
      assert ts[..n][..n - 1] == ts[..n - 1];
      hide TakenExactly, SentExactly, OneTurn, SendOk;
    }
  }

  /** Which packets are taken, dropped and sent, from the turns alone: packet k is taken on
      turn k, until the count, the stop flag, an empty buffer or the deadline ends the loop;
      it is dropped exactly when that turn begins more than 250 microseconds after its target
      time, and otherwise it is a probe exactly when the socket takes it. */
  lemma SendIsExact(job: Job, plan: seq<TimedPacket>, ts: seq<Turn>)
    ensures var s := AfterTurns(job, plan, ts);
            && TakenExactly(job, plan, ts, |ts|, s)
            && SentExactly(job, plan, ts, s)
            && s.failed == s.taken - LateOnes(job, plan, ts, s.taken) - OutOnes(job, plan, ts, s.taken)
  {
    ExactSoFar(job, plan, ts, |ts|);
    assert ts[..|ts|] == ts;
    ProbesAreNumbered(job, plan, ts);
    hide AfterTurns, TakenExactly, InPlanOrder, Contents, Takes;
  }

  /** A count of 2^32-1 or more is no limit: the loop variable wraps before it gets there. */
  lemma {:induction false} LargeCountIsNoLimit(job: Job, plan: seq<TimedPacket>, t: Turn, n: nat)
    requires job.count >= UINT32 - 1 && n <= |plan|
    requires !t.stop && t.ready && t.sent && t.woke <= job.deadline
    requires forall i :: 0 <= i < |plan| ==> t.now <= job.start + plan[i].ts + GRACE
    ensures var s := AfterTurns(job, plan, seq(n, _ => t)); |s.probes| == n && !s.stopped && s.taken == n
    decreases n
  {
    if n == 0 {
    } else {
      LargeCountIsNoLimit(job, plan, t, n - 1);
      var ts := seq(n, _ => t);
      assert ts[..n - 1] == seq(n - 1, _ => t);
      ProbesAreNumbered(job, plan, ts[..n - 1]);
    }
  }

  /** Every reply that arrives repeats the number of a probe that went out. */
  ghost predicate Echoes(es: seq<Event>, probes: seq<Probe>) {
    forall i :: 0 <= i < |es| && es[i].Received? ==> exists j :: 0 <= j < |probes| && es[i].p.num == probes[j].num
  }

  lemma EchoBound(es: seq<Event>, probes: seq<Probe>, i: nat)
    requires Echoes(es, probes) && i < |es| && es[i].Received?
    requires forall j :: 0 <= j < |probes| ==> probes[j].num == j + 1
    ensures es[i].p.num <= |probes|
  {
  }

  /** Sender, network and client: no more replies count than probes went out, and every
      reply is counted once. */
  lemma RepliesNeverExceedProbes(job: Job, plan: seq<TimedPacket>, ts: seq<Turn>, cfg: Config, es: seq<Event>)
    requires !cfg.mode.PerPacket?
    requires var probes := AfterTurns(job, plan, ts).probes; |probes| < UINT32 && Echoes(es, probes)
    ensures var s := After(cfg, es).stats;
            && s.pktRx <= Highest(es) <= |AfterTurns(job, plan, ts).probes|
            && s.pktRx + s.dup + s.ooo == Arrivals(es)
  {
    var probes := AfterTurns(job, plan, ts).probes;
    ProbesAreNumbered(job, plan, ts);
    hide AfterTurns, After, Echoes, Highest, Arrivals;
    forall i | 0 <= i < |es| && es[i].Received?
      ensures es[i].p.num <= |probes|
    {
      EchoBound(es, probes, i);
    }
    FilterIsSound(cfg, es, |probes|);
  }
}
