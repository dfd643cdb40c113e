/** What drives a handshake on: the life of a connection, what a client knows, a whole run. */
module HandshakeRuns {
  import opened ControlMessage
  import opened Handshake

  // The life of a connection

  /** A connection goes away exactly when it is collected after it has finished. */
  lemma OnlyFinishedAreCollected(s: System, a: Action, srv: Defaults, flow: nat)
    requires flow in s.conns
    ensures flow !in Do(s, a, srv).conns <==> a == Collect(flow) && s.conns[flow].finished
  {
    if a.ServerGets? {
      RequestFrame(s, a.q, a.env, srv);
    }
    hide Process, OnRequest, ConnFor, BirthsWith, ParamsOf, Grown;
  }

  /** An invite that is refused because its file is in use. */
  predicate Refuses(s: System, a: Action, flow: nat) {
    && a.ServerGets? && a.q in s.requests && Admits(s) && a.q.flow == flow
    && a.q.msg.code.FName? && a.env.young
    && !(flow in s.conns && s.conns[flow].started && Steady(a.env))
  }

  /** It finishes exactly when the broker handles a queued close, or an invite is refused. */
  lemma FinishesExactly(s: System, a: Action, srv: Defaults, flow: nat)
    requires RequestsOk(s) && flow in s.conns && !s.conns[flow].finished
    ensures var t := Do(s, a, srv);
            && flow in t.conns
            && (t.conns[flow].finished <==>
                  (a == BrokerCloses(flow) && s.conns[flow].pendingCloses > 0) || Refuses(s, a, flow))
  {
    if a.ServerGets? && a.q in s.requests {
      RequestFrame(s, a.q, a.env, srv);
      TermExactly(a.q.msg, ConnFor(s, a.q.flow), s.asym, a.env, srv);
      ReplyMeans(a.q.msg, ConnFor(s, a.q.flow), s.asym, a.env, srv);
    }
    hide Process, OnRequest, BirthsWith, ParamsOf, Grown;
  }

  lemma TermExactly(m: Msg, c: Conn, asym: bool, env: Env, srv: Defaults)
    requires Invite(m.code) || m.code.Done?
    ensures Process(m, c, asym, env, srv).msg.code.Term? <==>
              !c.finished && m.code.FName? && env.young && !(c.started && Steady(env))
  {
  }

  /** Each packet of the flow is counted once, and each handled end of a test queues one close,
      which the broker takes off again. */
  lemma ConnCounts(s: System, a: Action, srv: Defaults, flow: nat)
    requires RequestsOk(s) && flow in s.conns && flow in Do(s, a, srv).conns
    ensures var c, t := s.conns[flow], Do(s, a, srv).conns[flow];
            && t.pktRx == c.pktRx + (if a == ServerGetsPing(flow) && Admits(s) then 1 else 0)
            && t.pendingCloses == c.pendingCloses
                 + (if a.ServerGets? && a.q in s.requests && Admits(s) && a.q.flow == flow
                       && a.q.msg.code.Done? && !c.finished then 1 else 0)
                 - (if a == BrokerCloses(flow) && c.pendingCloses > 0 then 1 else 0)
  {
    if a.ServerGets? && a.q in s.requests {
      RequestFrame(s, a.q, a.env, srv);
      ReplyMeans(a.q.msg, ConnFor(s, a.q.flow), s.asym, a.env, srv);
    }
    hide Process, OnRequest, BirthsWith, ParamsOf, Grown;
  }

  /** Until an invite is accepted a connection has no option set, no slot length, and the
      asymmetric mode of the server when it was created. */
  lemma UnstartedHasNoOptions(options: map<nat, Options>, acts: seq<Action>, srv: Defaults, flow: nat)
    requires SteadyRun(acts)
    ensures var s := Run(Begin(options, srv), acts, srv);
            flow in s.conns && !s.conns[flow].started ==>
              var t := s.conns[flow].settings;
              && !t.h && !t.d && !t.e && !t.sendRate && !t.l && !t.c && !t.j && !t.ax && t.sampleLen == 0
              && flow in s.births && s.births[flow] <= |s.accepted|
              && t.x == (srv.asym && (s.births[flow] == 0 || !s.accepted[s.births[flow] - 1]))
  {
    RunOk(options, acts, srv);
    var s := Run(Begin(options, srv), acts, srv);
    hide Run, Begin;
    if flow in s.conns {
      assert ConnOk(s, flow, s.conns[flow], srv);
    }
    hide RequestsOk, RepliesOk, ClientsOk;
  }

  // The server's records

  /** The server once sent this answer to a packet of the flow. */
  ghost predicate Answered(s: System, flow: nat, code: Code) {
    exists r :: r in s.replies && r.flow == flow && r.msg.code == code
  }

  /** The records say no more than what the server answered. */
  ghost predicate Witnessed(s: System) {
    && (forall f :: f in s.redirected ==> Answered(s, f, Redirect))
    && (forall f :: f in s.closeQueued ==> Answered(s, f, DoneOk))
    && (forall l :: l in s.latched ==> Answered(s, l.flow, FNameOk))
    && (forall f :: f in s.initialised ==> exists r :: r in s.replies && r.flow == f)
  }

  lemma WitnessesStay(s: System, t: System)
    requires Witnessed(s) && s.replies <= t.replies
    requires t.redirected == s.redirected && t.closeQueued == s.closeQueued
    requires t.latched == s.latched && t.initialised == s.initialised
    ensures Witnessed(t)
  {
  }

  lemma RequestWitnessed(s: System, q: Request, env: Env, srv: Defaults)
    requires Witnessed(s)
    ensures Witnessed(OnRequest(s, q, env, srv))
  {
    var t := OnRequest(s, q, env, srv);
    var r := Reply(q.from, q.flow, Process(q.msg, ConnFor(s, q.flow), s.asym, env, srv).msg);
    assert r in t.replies && s.replies <= t.replies;
    hide Process, ConnFor, BirthsWith;
    forall f | f in t.redirected
      ensures Answered(t, f, Redirect)
    {
      assert f in s.redirected || (f == r.flow && r.msg.code.Redirect?);
    }
    forall f | f in t.closeQueued
      ensures Answered(t, f, DoneOk)
    {
      assert f in s.closeQueued || (f == r.flow && r.msg.code.DoneOk?);
    }
    forall l | l in t.latched
      ensures Answered(t, l.flow, FNameOk)
    {
      assert l in s.latched || (l.flow == r.flow && r.msg.code.FNameOk?);
    }
  }

  lemma OtherStepsRecordNothing(s: System, a: Action, srv: Defaults)
    requires !(a.ServerGets? && a.q in s.requests && Admits(s))
    ensures var t := Do(s, a, srv);
            && t.replies == s.replies && t.redirected == s.redirected && t.closeQueued == s.closeQueued
            && t.latched == s.latched && t.initialised == s.initialised
  {
    hide OnRequest, ConnFor, BirthsWith, ParamsOf, OnReply, InviteOf;
    var t := Do(s, a, srv);
    if a.ServerGets? {
      assert t == s;
    } else if a.ClientGets? {
      assert t == s.(clients := t.clients);
    } else if a.SendInvite? || a.SendDone? {
      assert t == s.(requests := t.requests);
    } else {
      assert t == s.(conns := t.conns, births := t.births);
    }
    hide Do;
  }

  lemma StepWitnessed(s: System, a: Action, srv: Defaults)
    requires Witnessed(s)
    ensures Witnessed(Do(s, a, srv))
  {
    hide OnRequest, Witnessed;
    if a.ServerGets? && a.q in s.requests && Admits(s) {
      RequestWitnessed(s, a.q, a.env, srv);
      assert Do(s, a, srv) == OnRequest(s, a.q, a.env, srv);
    } else {
      OtherStepsRecordNothing(s, a, srv);
      hide Do;
      WitnessesStay(s, Do(s, a, srv));
    }
  }

  /** So what the safety theorem says of the server's past is about answers it really sent. */
  lemma {:induction false} RecordsAreWitnessed(options: map<nat, Options>, acts: seq<Action>, srv: Defaults)
    ensures Witnessed(Run(Begin(options, srv), acts, srv))
    decreases |acts|
  {
    if |acts| == 0 {
    } else {
      RecordsAreWitnessed(options, acts[..|acts| - 1], srv);
      hide Begin, Do, Witnessed;
      StepWitnessed(Run(Begin(options, srv), acts[..|acts| - 1], srv), acts[|acts| - 1], srv);
    }
  }

  // What a client knows

  /** At step `i` the client received a reply with the given code. */
  ghost predicate GotAt(s: System, acts: seq<Action>, srv: Defaults, a: nat, code: Code, i: int) {
    && 0 <= i < |acts| && acts[i].ClientGets? && acts[i].r.to == a && acts[i].r.msg.code == code
    && acts[i].r in Run(s, acts[..i], srv).replies
  }

  ghost predicate Got(s: System, acts: seq<Action>, srv: Defaults, a: nat, code: Code) {
    exists i :: GotAt(s, acts, srv, a, code, i)
  }

  lemma GotStep(s: System, h: seq<Action>, act: Action, srv: Defaults, a: nat, code: Code)
    ensures Got(s, h + [act], srv, a, code) <==>
              || Got(s, h, srv, a, code)
              || (act.ClientGets? && act.r.to == a && act.r.msg.code == code && act.r in Run(s, h, srv).replies)
  {
    var acts := h + [act];
    hide Run;
    assert acts[..|h|] == h;
    forall i | 0 <= i < |h|
      ensures GotAt(s, acts, srv, a, code, i) <==> GotAt(s, h, srv, a, code, i)
    {
      assert acts[..i] == h[..i];
    }
    if act.ClientGets? && act.r.to == a && act.r.msg.code == code && act.r in Run(s, h, srv).replies {
      assert GotAt(s, acts, srv, a, code, |h|);
    }
    if Got(s, h, srv, a, code) {
      var i :| GotAt(s, h, srv, a, code, i);
      assert GotAt(s, acts, srv, a, code, i);
    }
    if Got(s, acts, srv, a, code) {
      var i :| GotAt(s, acts, srv, a, code, i);
      assert i < |h| ==> GotAt(s, h, srv, a, code, i);
    }
  }

  /** A client is started, done or stopped exactly when a reply that says so has reached it. */
  ghost predicate Knows(s: System, acts: seq<Action>, srv: Defaults, a: nat, c: Client) {
    && (c.byOk <==> Got(s, acts, srv, a, FNameOk))
    && (c.started <==> Got(s, acts, srv, a, FNameOk) || Got(s, acts, srv, a, Redirect))
    && (c.done <==> Got(s, acts, srv, a, DoneOk))
    && (c.stopped <==> Got(s, acts, srv, a, Term))
  }

  /** What one step does to a client. */
  lemma ClientStep(s: System, act: Action, srv: Defaults, a: nat)
    requires a in s.clients
    ensures var u := Do(s, act, srv);
            && a in u.clients
            && u.clients[a] == if act.ClientGets? && act.r.to == a && act.r in s.replies
                               then OnReply(s.clients[a], act.r.msg.code) else s.clients[a]
  {
    if act.ServerGets? {
      RequestFrame(s, act.q, act.env, srv);
    }
    hide Process, Grown, ParamsOf, OnRequest, ConnFor, BirthsWith, OnReply;
  }

  lemma KnowsStep(s: System, h: seq<Action>, act: Action, srv: Defaults, a: nat)
    requires var t := Run(s, h, srv); a in t.clients && Knows(s, h, srv, a, t.clients[a])
    ensures var u := Do(Run(s, h, srv), act, srv); a in u.clients && Knows(s, h + [act], srv, a, u.clients[a])
  {
    hide Run, Got, Do;
    ClientStep(Run(s, h, srv), act, srv, a);
    GotStep(s, h, act, srv, a, FNameOk);
    GotStep(s, h, act, srv, a, Redirect);
    GotStep(s, h, act, srv, a, DoneOk);
    GotStep(s, h, act, srv, a, Term);
  }

  lemma {:induction false} ClientKnows(options: map<nat, Options>, acts: seq<Action>, srv: Defaults, a: nat)
    requires a in options
    ensures var s := Begin(options, srv);
            var t := Run(s, acts, srv);
            a in t.clients && Knows(s, acts, srv, a, t.clients[a])
    decreases |acts|
  {
    var s := Begin(options, srv);
    if |acts| == 0 {
    } else {
      var h := acts[..|acts| - 1];
      ClientKnows(options, h, srv, a);
      KnowsStep(s, h, acts[|acts| - 1], srv, a);
      assert acts == h + [acts[|acts| - 1]];
      hide Do, Begin, Knows;
    }
  }

  /** A client that knows the answer stops asking. */
  lemma NoMoreRequests(s: System, srv: Defaults, a: nat, count: nat)
    requires a in s.clients
    ensures s.clients[a].started || s.clients[a].stopped ==> Do(s, SendInvite(a), srv) == s
    ensures s.clients[a].done ==> Do(s, SendDone(a, count), srv) == s
  {
  }

  // A whole run

  lemma RunThree(s: System, a: Action, b: Action, c: Action, srv: Defaults)
    ensures Run(s, [a, b, c], srv) == Do(Do(Do(s, a, srv), b, srv), c, srv)
  {
    hide Do;
    RunNothing(s, srv);
    RunOneMore(s, [], a, srv);
    RunOneMore(s, [a], b, srv);
    RunOneMore(s, [a, b], c, srv);
    hide Run;
    assert [] + [a] == [a] && [a] + [b] == [a, b] && [a, b] + [c] == [a, b, c];
  }

  /** The reply to an accepted invite. */
  function Accepted(o: Options): Msg {
    InviteOf(o).(code := FNameOk)
  }

  /** A connection that has just taken over the settings of an invite. */
  function StartedConn(o: Options, asym: bool, srv: Defaults): Conn {
    Conn(Wanted(o, srv, asym), o.named, true, true, false, 0, 0)
  }

  lemma AcceptedFully(o: Options, asym: bool, env: Env, srv: Defaults)
    requires Accepts(InviteOf(o).code, env)
    ensures var r := Process(InviteOf(o), NewConn(asym), asym, env, srv);
            r.msg == Accepted(o) && r.conn.(initialized := true) == StartedConn(o, asym, srv)
  {
    LatchesWanted(o, srv, asym);
    ReplyMeans(InviteOf(o), NewConn(asym), asym, env, srv);
    InviteOutcome(InviteOf(o), NewConn(asym), asym, env, srv);
    hide Process, Latch, ParamsOf, Wanted, Fresh;
  }

  /** A client that is not started invites, the server accepts, and the client starts. */
  lemma InvitePhase(s: System, a: nat, env: Env, srv: Defaults)
    requires a in s.clients && !s.clients[a].started && !s.clients[a].stopped
    requires var o := s.clients[a].o; o.flow !in s.conns && Admits(s) && Accepts(InviteOf(o).code, env)
    ensures var o := s.clients[a].o;
            var t := Run(s, [SendInvite(a), ServerGets(Request(a, o.flow, InviteOf(o)), env),
                             ClientGets(Reply(a, o.flow, Accepted(o)))], srv);
            && t.clients == s.clients[a := s.clients[a].(started := true, byOk := true)]
            && t.conns == s.conns[o.flow := StartedConn(o, s.asym, srv)]
  {
    var o := s.clients[a].o;
    var q, r := Request(a, o.flow, InviteOf(o)), Reply(a, o.flow, Accepted(o));
    RunThree(s, SendInvite(a), ServerGets(q, env), ClientGets(r), srv);
    AcceptedFully(o, s.asym, env, srv);
    var s1 := s.(requests := s.requests + {q});
    RequestFrame(s1, q, env, srv);
    hide Process, OnRequest, InviteOf, StartedConn, BirthsWith, Grown, Run;
    assert Do(s, SendInvite(a), srv) == s1;
    assert ConnFor(s1, o.flow) == NewConn(s1.asym) && s1.asym == s.asym;
    hide ConnFor, Accepts;
    assert Do(s1, ServerGets(q, env), srv) == OnRequest(s1, q, env, srv);
  }

  lemma OnePing(s: System, flow: nat, srv: Defaults)
    requires flow in s.conns && Admits(s)
    ensures var t := Do(s, ServerGetsPing(flow), srv);
            t.clients == s.clients && t.conns == s.conns[flow := s.conns[flow].(pktRx := s.conns[flow].pktRx + 1)]
  {
  }

  /** `n` packets of a flow are counted. */
  lemma {:induction false} PingPhase(s: System, flow: nat, n: nat, srv: Defaults)
    requires flow in s.conns && Admits(s)
    ensures var t := Run(s, seq(n, _ => ServerGetsPing(flow)), srv);
            && t.clients == s.clients
            && t.conns == s.conns[flow := s.conns[flow].(pktRx := s.conns[flow].pktRx + n)]
    decreases n
  {
    var acts := seq(n, _ => ServerGetsPing(flow));
    if n == 0 {
      RunNothing(s, srv);
      assert acts == [] && s.conns == s.conns[flow := s.conns[flow]];
    } else {
      hide Run, Do;
      PingPhase(s, flow, n - 1, srv);
      var h := seq(n - 1, _ => ServerGetsPing(flow));
      assert acts == h + [ServerGetsPing(flow)];
      RunOneMore(s, h, ServerGetsPing(flow), srv);
      var t := Run(s, h, srv);
      SizeAfterInsert(s.conns, flow, t.conns[flow]);
      OnePing(t, flow, srv);
    }
  }

  lemma DoneFully(c: Conn, m: Msg, asym: bool, env: Env, srv: Defaults)
    requires m.code.Done? && !c.finished
    ensures var r := Process(m, c, asym, env, srv);
            && r.msg == m.(code := DoneOk, count := c.pktRx)
            && r.conn == c.(pendingCloses := c.pendingCloses + 1)
  {
  }

  /** The client ends the test, the server answers with its count, the client is done; the
      broker closes the output and the connection is collected. */
  lemma DonePhase(s: System, a: nat, count: nat, env: Env, srv: Defaults)
    requires a in s.clients && !s.clients[a].done && Admits(s)
    requires var f := s.clients[a].o.flow;
             f in s.conns && !s.conns[f].finished && s.conns[f].initialized && s.conns[f].pendingCloses == 0
    ensures var o := s.clients[a].o;
            var m := Msg(Done, ParamsOf(o), count);
            var r := Reply(a, o.flow, Msg(DoneOk, ParamsOf(o), s.conns[o.flow].pktRx));
            var t := Run(s, [SendDone(a, count), ServerGets(Request(a, o.flow, m), env), ClientGets(r)], srv);
            var u := Do(Do(t, BrokerCloses(o.flow), srv), Collect(o.flow), srv);
            && t.clients == u.clients == s.clients[a := s.clients[a].(done := true)]
            && u.conns == s.conns - {o.flow}
  {
    var o := s.clients[a].o;
    var m := Msg(Done, ParamsOf(o), count);
    var q := Request(a, o.flow, m);
    var r := Reply(a, o.flow, Msg(DoneOk, ParamsOf(o), s.conns[o.flow].pktRx));
    RunThree(s, SendDone(a, count), ServerGets(q, env), ClientGets(r), srv);
    var s1 := s.(requests := s.requests + {q});
    DoneFully(s.conns[o.flow], m, s.asym, env, srv);
    RequestFrame(s1, q, env, srv);
    hide Process, OnRequest, ParamsOf, BirthsWith, Grown, Run;
    assert Do(s, SendDone(a, count), srv) == s1;
    assert ConnFor(s1, o.flow) == s.conns[o.flow];
    var s2 := Do(s1, ServerGets(q, env), srv);
    assert s2 == OnRequest(s1, q, env, srv) && r in s2.replies && s2.clients == s.clients;
    assert s2.conns == s.conns[o.flow := s.conns[o.flow].(pendingCloses := 1)];
    hide ConnFor;
    ReplyArrives(s2, r, srv);
    var t := Do(s2, ClientGets(r), srv);
    hide Do;
    TornDown(t, o.flow, srv);
    assert t.conns - {o.flow} == s.conns - {o.flow};
  }

  lemma ReplyArrives(s: System, r: Reply, srv: Defaults)
    requires r in s.replies && r.to in s.clients
    ensures var t := Do(s, ClientGets(r), srv);
            t.conns == s.conns && t.clients == s.clients[r.to := OnReply(s.clients[r.to], r.msg.code)]
  {
  }

  lemma TornDown(s: System, flow: nat, srv: Defaults)
    requires flow in s.conns && s.conns[flow].pendingCloses > 0
    ensures var u := Do(Do(s, BrokerCloses(flow), srv), Collect(flow), srv);
            u.clients == s.clients && u.conns == s.conns - {flow}
  {
    var c := s.conns[flow];
    assert s.conns[flow := c.(pendingCloses := c.pendingCloses - 1, finished := true)] - {flow} == s.conns - {flow};
  }

  /** A whole test from any state with room: the client invites and is accepted, `n` of its
      packets arrive, it ends the test, learns the count `n`, and its connection is gone. */
  lemma WholeTest(s: System, a: nat, e0: Env, n: nat, count: nat, e1: Env, srv: Defaults)
    requires a in s.clients && !s.clients[a].started && !s.clients[a].stopped && !s.clients[a].done
    requires var o := s.clients[a].o; o.flow !in s.conns && Accepts(InviteOf(o).code, e0)
    requires |s.conns| < MAX_CONNECTIONS
    ensures var o := s.clients[a].o;
            var s1 := Run(s, [SendInvite(a), ServerGets(Request(a, o.flow, InviteOf(o)), e0),
                              ClientGets(Reply(a, o.flow, Accepted(o)))], srv);
            var s2 := Run(s1, seq(n, _ => ServerGetsPing(o.flow)), srv);
            var s3 := Run(s2, [SendDone(a, count), ServerGets(Request(a, o.flow, Msg(Done, ParamsOf(o), count)), e1),
                               ClientGets(Reply(a, o.flow, Msg(DoneOk, ParamsOf(o), n)))], srv);
            var s4 := Do(Do(s3, BrokerCloses(o.flow), srv), Collect(o.flow), srv);
            && o.flow in s2.conns && s2.conns[o.flow].settings == Wanted(o, srv, s.asym)
            && s2.conns[o.flow].started && s2.conns[o.flow].pktRx == n
            && s4.clients == s.clients[a := s.clients[a].(started := true, byOk := true, done := true)]
            && s4.conns == s.conns
  {
    var o := s.clients[a].o;
    InvitePhase(s, a, e0, srv);
    var s1 := Run(s, [SendInvite(a), ServerGets(Request(a, o.flow, InviteOf(o)), e0),
                      ClientGets(Reply(a, o.flow, Accepted(o)))], srv);
    SizeAfterInsert(s.conns, o.flow, s1.conns[o.flow]);
    hide Run, Do, Wanted, InviteOf, ParamsOf, Accepts;
    PingPhase(s1, o.flow, n, srv);
    var s2 := Run(s1, seq(n, _ => ServerGetsPing(o.flow)), srv);
    SizeAfterInsert(s1.conns, o.flow, s2.conns[o.flow]);
    DonePhase(s2, a, count, e1, srv);
    assert s2.conns - {o.flow} == s.conns;
  }
}
