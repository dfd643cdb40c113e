/** Clients, server and a network that may drop, repeat and reorder every message. */
module Handshake {
  import opened Arithmetic
  import opened ControlMessage

  /** How a client was started: flow, whether it names a file, and its options. */
  datatype Options = Options(
    flow: nat, named: bool,
    h: bool, d: bool, e: bool, sendRate: bool, x: bool, c: bool, j: bool,
    sampleNs: nat)

  datatype Client = Client(o: Options, started: bool, byOk: bool, done: bool, stopped: bool)

  /** Messages carry the client's address; flow numbers of different clients may collide. */
  datatype Request = Request(from: nat, flow: nat, msg: Msg)

  datatype Reply = Reply(to: nat, flow: nat, msg: Msg)

  /** One takeover of settings: `birth` counts the invites that the server had accepted when
      it created the connection. */
  datatype Latching = Latching(flow: nat, birth: nat, settings: Settings)

  /** The network holds every message ever sent: delivery never removes one, and a message
      never delivered is lost. `asym` is the server's current asymmetric mode. The fields from
      `births` on record what the server has done: when each connection was created, the X
      bits of the accepted invites in order, and facts about flows that stay true. */
  datatype System = System(
    clients: map<nat, Client>,
    requests: set<Request>,
    replies: set<Reply>,
    conns: map<nat, Conn>,
    asym: bool,
    births: map<nat, nat>,
    accepted: seq<bool>,
    initialised: set<nat>,
    latched: set<Latching>,
    redirected: set<nat>,
    closeQueued: set<nat>)

  datatype Action =
    | SendInvite(a: nat)
    | SendDone(a: nat, count: nat)
    | ServerGets(q: Request, env: Env)
    | ServerGetsPing(flow: nat)
    | ClientGets(r: Reply)
    | BrokerCloses(flow: nat)
    | Collect(flow: nat)

  const MAX_CONNECTIONS: nat := 64

  /** The parameter bits and the slot length that a client puts into its invites. */
  function ParamsOf(o: Options): Params {
    Params(o.h, o.d, o.e, o.sendRate, o.sampleNs != 0, o.x, o.c, o.j,
           if o.sampleNs != 0 then o.sampleNs / 1_000_000 % UINT32 else 0)
  }

  /** The asymmetric mode after the first `k` accepted invites: -X, unless the last of them
      carried the X bit. */
  function ModeAt(srv: Defaults, accepted: seq<bool>, k: nat): bool
    requires k <= |accepted|
  {
    srv.asym && (k == 0 || !accepted[k - 1])
  }

  /** The settings of a client on a connection that was created in the given mode. */
  function Wanted(o: Options, srv: Defaults, mode: bool): Settings {
    Settings(o.h, o.d || srv.stamps, o.e || srv.bitrate, o.sendRate || srv.sendBitrate, o.sampleNs != 0,
             mode && !o.x, o.x, o.c, o.j,
             o.sampleNs / 1_000_000 % UINT32 * 1_000_000)
  }

  function InviteOf(o: Options): Msg {
    Msg(if o.named then FName else NoFName, ParamsOf(o), 0)
  }

  /** Finding the connection of a flow or creating it; over the limit the packet is dropped. */
  function Admits(s: System): bool {
    |s.conns| <= MAX_CONNECTIONS
  }

  function ConnFor(s: System, flow: nat): Conn {
    if flow in s.conns then s.conns[flow] else NewConn(s.asym)
  }

  function BirthsWith(s: System, flow: nat): map<nat, nat> {
    if flow in s.conns then s.births else s.births[flow := |s.accepted|]
  }

  function OnRequest(s: System, q: Request, env: Env, srv: Defaults): System {
    var c := ConnFor(s, q.flow);
    var births := BirthsWith(s, q.flow);
    var r := Process(q.msg, c, s.asym, env, srv);
    var ok := r.msg.code.FNameOk?;
    var birth := if q.flow in births then births[q.flow] else 0;
    s.(conns := s.conns[q.flow := r.conn.(initialized := true)],
       asym := r.asym,
       births := births,
       replies := s.replies + {Reply(q.from, q.flow, r.msg)},
       initialised := if c.initialized then s.initialised else s.initialised + {q.flow},
       accepted := if ok then s.accepted + [q.msg.params.x] else s.accepted,
       latched := if ok then s.latched + {Latching(q.flow, birth, r.conn.settings)} else s.latched,
       redirected := if r.msg.code.Redirect? then s.redirected + {q.flow} else s.redirected,
       closeQueued := if r.msg.code.DoneOk? then s.closeQueued + {q.flow} else s.closeQueued)
  }

  function OnReply(c: Client, code: Code): Client {
    match code
    case DoneOk => c.(done := true)
    case FNameOk => c.(started := true, byOk := true)
    case Redirect => c.(started := true)
    case Term => c.(stopped := true)
    case _ => c
  }

  /** One step; a step that is not possible now changes nothing. */
  function Do(s: System, a: Action, srv: Defaults): System {
    match a
    case SendInvite(x) =>
      if x in s.clients && !s.clients[x].started && !s.clients[x].stopped then
        s.(requests := s.requests + {Request(x, s.clients[x].o.flow, InviteOf(s.clients[x].o))})
      else s
    case SendDone(x, count) =>
      if x in s.clients && !s.clients[x].done then
        s.(requests := s.requests + {Request(x, s.clients[x].o.flow, Msg(Done, ParamsOf(s.clients[x].o), count))})
      else s
    case ServerGets(q, env) => if q in s.requests && Admits(s) then OnRequest(s, q, env, srv) else s
    case ServerGetsPing(flow) =>
      if Admits(s) then
        var c := ConnFor(s, flow);
        s.(conns := s.conns[flow := c.(pktRx := c.pktRx + 1)], births := BirthsWith(s, flow))
      else s
    case ClientGets(r) =>
      if r in s.replies && r.to in s.clients then
        s.(clients := s.clients[r.to := OnReply(s.clients[r.to], r.msg.code)])
      else s
    case BrokerCloses(flow) =>
      if flow in s.conns && s.conns[flow].pendingCloses > 0 then
        var c := s.conns[flow];
        s.(conns := s.conns[flow := c.(pendingCloses := c.pendingCloses - 1, finished := true)])
      else s
    case Collect(flow) =>
      if flow in s.conns && s.conns[flow].finished then s.(conns := s.conns - {flow}) else s
  }

  function Begin(options: map<nat, Options>, srv: Defaults): System {
    System(map a | a in options :: Client(options[a], false, false, false, false),
           {}, {}, map[], srv.asym, map[], [], {}, {}, {}, {})
  }

  function Run(s: System, acts: seq<Action>, srv: Defaults): System {
    if |acts| == 0 then s else Do(Run(s, acts[..|acts| - 1], srv), acts[|acts| - 1], srv)
  }

  /** The server's clock never steps back by ten seconds within one message. */
  ghost predicate SteadyRun(acts: seq<Action>) {
    forall i :: 0 <= i < |acts| && acts[i].ServerGets? ==> Steady(acts[i].env)
  }

  ghost predicate RequestsOk(s: System) {
    forall q :: q in s.requests ==>
      && q.from in s.clients && q.flow == s.clients[q.from].o.flow
      && q.msg.params == ParamsOf(s.clients[q.from].o)
      && (Invite(q.msg.code) || q.msg.code.Done?)
  }

  ghost predicate LatchedAt(s: System, o: Options, srv: Defaults, k: nat) {
    k <= |s.accepted| && Latching(o.flow, k, Wanted(o, srv, ModeAt(srv, s.accepted, k))) in s.latched
  }

  /** A connection of the client's flow took over exactly the client's settings, asymmetric
      as the server was when it created that connection. */
  ghost predicate HasLatched(s: System, o: Options, srv: Defaults) {
    exists k: nat :: LatchedAt(s, o, srv, k)
  }

  /** What a reply proves about the past of the server. */
  ghost predicate Earned(s: System, o: Options, code: Code, srv: Defaults) {
    && o.flow in s.initialised
    && (code.FNameOk? ==> HasLatched(s, o, srv))
    && (code.Redirect? ==> o.flow in s.redirected)
    && (code.DoneOk? ==> o.flow in s.closeQueued)
  }

  ghost predicate RepliesOk(s: System, srv: Defaults) {
    forall r :: r in s.replies ==> r.to in s.clients && Earned(s, s.clients[r.to].o, r.msg.code, srv)
  }

  ghost predicate ClientOk(s: System, c: Client, srv: Defaults) {
    && (c.started ==> c.o.flow in s.initialised && (c.byOk || c.o.flow in s.redirected))
    && (c.byOk ==> c.started && HasLatched(s, c.o, srv))
    && (c.done ==> c.o.flow in s.closeQueued)
  }

  ghost predicate ClientsOk(s: System, srv: Defaults) {
    forall a :: a in s.clients ==> ClientOk(s, s.clients[a], srv)
  }

  ghost predicate ConnOk(s: System, f: nat, c: Conn, srv: Defaults) {
    && f in s.births && s.births[f] <= |s.accepted|
    && (!c.started ==> c.settings == Fresh(ModeAt(srv, s.accepted, s.births[f])))
    && (c.initialized ==> f in s.initialised)
    && (c.pendingCloses > 0 ==> f in s.closeQueued)
  }

  ghost predicate ConnsOk(s: System, srv: Defaults) {
    forall f :: f in s.conns ==> ConnOk(s, f, s.conns[f], srv)
  }

  ghost predicate SystemOk(s: System, srv: Defaults) {
    && RequestsOk(s) && RepliesOk(s, srv) && ClientsOk(s, srv) && ConnsOk(s, srv)
    && s.asym == ModeAt(srv, s.accepted, |s.accepted|)
  }

  /** An invite latched on a fresh connection leaves exactly the client's settings. */
  lemma LatchesWanted(o: Options, srv: Defaults, mode: bool)
    ensures Latch(Fresh(mode), ParamsOf(o), srv) == Wanted(o, srv, mode)
  {
  }

  /** The asymmetric setting is the one the options of server and client ask for, exactly
      unless the server runs with -X, the client without, and the last invite accepted
      before the connection was created carried the X bit. */
  lemma AsymmetryAsConfigured(o: Options, srv: Defaults, accepted: seq<bool>, k: nat)
    requires k <= |accepted|
    ensures Wanted(o, srv, ModeAt(srv, accepted, k)).x == (srv.asym && !o.x)
       <==> !srv.asym || o.x || k == 0 || !accepted[k - 1]
    ensures forall m: bool :: Wanted(o, srv, m).(x := srv.asym && !o.x) == Wanted(o, srv, srv.asym)
  {
  }

  /** So a client's settings were taken over as configured whenever the server has no -X, the
      client has it, or no accepted invite carried the X bit. */
  lemma LatchedAsConfigured(s: System, o: Options, srv: Defaults)
    requires HasLatched(s, o, srv)
    requires !srv.asym || o.x || forall i :: 0 <= i < |s.accepted| ==> !s.accepted[i]
    ensures exists k: nat :: Latching(o.flow, k, Wanted(o, srv, srv.asym)) in s.latched
  {
    var k: nat :| LatchedAt(s, o, srv, k);
    AsymmetryAsConfigured(o, srv, s.accepted, k);
    assert Wanted(o, srv, ModeAt(srv, s.accepted, k)) == Wanted(o, srv, srv.asym);
    assert Latching(o.flow, k, Wanted(o, srv, srv.asym)) in s.latched;
  }

  /** The slot length a connection gets is the client's, cut to whole milliseconds, as long
      as the milliseconds fit into 32 bits; below one millisecond it is none at all. */
  lemma SampleLenCut(o: Options, srv: Defaults, mode: bool)
    ensures Wanted(o, srv, mode).sampleLen == o.sampleNs - o.sampleNs % 1_000_000 <==> o.sampleNs / 1_000_000 < UINT32
    ensures Wanted(o, srv, mode).l && Wanted(o, srv, mode).sampleLen == 0
       <==> o.sampleNs != 0 && o.sampleNs / 1_000_000 % UINT32 == 0
  {
    CutBack(o.sampleNs);
  }

  lemma CutBack(ns: nat)
    ensures ns / 1_000_000 % UINT32 * 1_000_000 == ns - ns % 1_000_000 <==> ns / 1_000_000 < UINT32
  {
    var ms := ns / 1_000_000;
    assert ns == ms * 1_000_000 + ns % 1_000_000;
    if ms >= UINT32 {
      assert ms % UINT32 < UINT32;
    }
  }

  /** The server's records only grow. */
  ghost predicate Grown(s: System, t: System) {
    && s.initialised <= t.initialised && s.latched <= t.latched
    && s.redirected <= t.redirected && s.closeQueued <= t.closeQueued
    && s.accepted <= t.accepted
  }

  lemma StillLatched(s: System, t: System, o: Options, srv: Defaults)
    requires Grown(s, t) && HasLatched(s, o, srv)
    ensures HasLatched(t, o, srv)
  {
    var k: nat :| LatchedAt(s, o, srv, k);
    assert ModeAt(srv, t.accepted, k) == ModeAt(srv, s.accepted, k);
    assert LatchedAt(t, o, srv, k);
  }

  lemma StillEarned(s: System, t: System, o: Options, code: Code, srv: Defaults)
    requires Grown(s, t) && Earned(s, o, code, srv)
    ensures Earned(t, o, code, srv)
  {
    if code.FNameOk? {
      StillLatched(s, t, o, srv);
    }
    hide HasLatched;
  }

  lemma StillClient(s: System, t: System, c: Client, srv: Defaults)
    requires Grown(s, t) && ClientOk(s, c, srv)
    ensures ClientOk(t, c, srv)
  {
    if c.byOk {
      StillLatched(s, t, c.o, srv);
    }
    hide HasLatched;
  }

  /** What was earned stays earned; only new replies need a look. */
  lemma PastStays(s: System, t: System, srv: Defaults)
    requires RequestsOk(s) && RepliesOk(s, srv) && ClientsOk(s, srv) && Grown(s, t)
    requires t.clients == s.clients && t.requests == s.requests
    requires forall r :: r in t.replies && r !in s.replies ==>
               r.to in s.clients && Earned(t, s.clients[r.to].o, r.msg.code, srv)
    ensures RequestsOk(t) && RepliesOk(t, srv) && ClientsOk(t, srv)
  {
    hide Wanted, ParamsOf, Earned, ClientOk, Grown;
    forall r | r in t.replies && r in s.replies
      ensures Earned(t, t.clients[r.to].o, r.msg.code, srv)
    {
      StillEarned(s, t, s.clients[r.to].o, r.msg.code, srv);
    }
    forall a | a in s.clients
      ensures ClientOk(t, s.clients[a], srv)
    {
      StillClient(s, t, s.clients[a], srv);
    }
  }

  /** A step that changes the connection of one flow, and perhaps creates it. */
  lemma OneConnOk(s: System, t: System, flow: nat, srv: Defaults)
    requires ConnsOk(s, srv) && Grown(s, t)
    requires flow in t.conns && t.conns == s.conns[flow := t.conns[flow]]
    requires t.births == BirthsWith(s, flow)
    requires ConnOk(t, flow, t.conns[flow], srv)
    ensures ConnsOk(t, srv)
  {
    forall f | f in t.conns
      ensures ConnOk(t, f, t.conns[f], srv)
    {
      if f != flow {
        assert ConnOk(s, f, s.conns[f], srv);
        assert t.births[f] == s.births[f];
        assert ModeAt(srv, t.accepted, t.births[f]) == ModeAt(srv, s.accepted, s.births[f]);
      }
    }
    hide Fresh;
  }

  lemma ConnForOk(s: System, flow: nat, srv: Defaults)
    requires ConnsOk(s, srv) && s.asym == ModeAt(srv, s.accepted, |s.accepted|)
    ensures ConnOk(s.(births := BirthsWith(s, flow)), flow, ConnFor(s, flow), srv)
  {
    if flow in s.conns {
      assert ConnOk(s, flow, s.conns[flow], srv);
    }
  }

  lemma ModeAfter(s: System, x: bool, srv: Defaults)
    ensures ModeAt(srv, s.accepted + [x], |s.accepted| + 1) == (srv.asym && !x)
  {
  }

  /** An accepted invite takes over the settings of the client that sent it. */
  lemma AcceptedLatches(s: System, q: Request, env: Env, srv: Defaults)
    requires SystemOk(s, srv) && q in s.requests && Steady(env)
    requires Process(q.msg, ConnFor(s, q.flow), s.asym, env, srv).msg.code.FNameOk?
    ensures HasLatched(OnRequest(s, q, env, srv), s.clients[q.from].o, srv)
  {
    var c, o := ConnFor(s, q.flow), s.clients[q.from].o;
    var t := OnRequest(s, q, env, srv);
    ConnForOk(s, q.flow, srv);
    ReplyMeans(q.msg, c, s.asym, env, srv);
    if c.started {
      RepeatedInvite(q.msg, c, s.asym, env, srv);
    }
    var k := t.births[q.flow];
    LatchesWanted(o, srv, ModeAt(srv, s.accepted, k));
    assert ModeAt(srv, t.accepted, k) == ModeAt(srv, s.accepted, k);
    hide Process, Latch, Wanted, ParamsOf, Fresh, ConnFor, ModeAt, RepliesOk, ClientsOk, ConnsOk;
    assert LatchedAt(t, o, srv, k);
  }

  /** What a request changes, field by field. */
  lemma RequestFrame(s: System, q: Request, env: Env, srv: Defaults)
    ensures var t := OnRequest(s, q, env, srv);
            var r := Process(q.msg, ConnFor(s, q.flow), s.asym, env, srv);
            && t.clients == s.clients && t.requests == s.requests
            && t.replies == s.replies + {Reply(q.from, q.flow, r.msg)}
            && t.conns == s.conns[q.flow := r.conn.(initialized := true)]
            && t.births == BirthsWith(s, q.flow) && t.asym == r.asym
            && t.accepted == (if r.msg.code.FNameOk? then s.accepted + [q.msg.params.x] else s.accepted)
            && (!r.msg.code.FNameOk? ==> t.latched == s.latched)
            && (ConnFor(s, q.flow).initialized || q.flow in t.initialised)
            && (r.msg.code.Redirect? ==> q.flow in t.redirected)
            && (r.msg.code.DoneOk? ==> q.flow in t.closeQueued)
            && Grown(s, t)
  {
    hide Process, ConnFor, BirthsWith;
  }

  lemma RequestConn(s: System, q: Request, env: Env, srv: Defaults)
    requires SystemOk(s, srv) && q in s.requests
    ensures var t := OnRequest(s, q, env, srv); ConnOk(t, q.flow, t.conns[q.flow], srv)
  {
    RequestFrame(s, q, env, srv);
    ConnForOk(s, q.flow, srv);
    ReplyMeans(q.msg, ConnFor(s, q.flow), s.asym, env, srv);
    hide Process, OnRequest, Latch, Wanted, ParamsOf, Fresh, ConnFor, RepliesOk, ClientsOk, ConnsOk, BirthsWith;
    var t := OnRequest(s, q, env, srv);
    assert ModeAt(srv, t.accepted, t.births[q.flow]) == ModeAt(srv, s.accepted, t.births[q.flow]);
  }

  lemma RequestMode(s: System, q: Request, env: Env, srv: Defaults)
    requires SystemOk(s, srv) && q in s.requests
    ensures var t := OnRequest(s, q, env, srv); t.asym == ModeAt(srv, t.accepted, |t.accepted|)
  {
    RequestFrame(s, q, env, srv);
    ReplyMeans(q.msg, ConnFor(s, q.flow), s.asym, env, srv);
    ModeAfter(s, q.msg.params.x, srv);
    hide Process, OnRequest, ConnFor, BirthsWith, ModeAt, RepliesOk, ClientsOk, ConnsOk;
  }

  lemma RequestEarns(s: System, q: Request, env: Env, srv: Defaults)
    requires SystemOk(s, srv) && q in s.requests && Steady(env)
    ensures var r := Process(q.msg, ConnFor(s, q.flow), s.asym, env, srv);
            q.from in s.clients && Earned(OnRequest(s, q, env, srv), s.clients[q.from].o, r.msg.code, srv)
  {
    RequestFrame(s, q, env, srv);
    ConnForOk(s, q.flow, srv);
    if Process(q.msg, ConnFor(s, q.flow), s.asym, env, srv).msg.code.FNameOk? {
      AcceptedLatches(s, q, env, srv);
    }
    hide Process, OnRequest, ConnFor, BirthsWith, ModeAt, HasLatched, RepliesOk, ClientsOk, ConnsOk;
  }

  lemma RequestStep(s: System, q: Request, env: Env, srv: Defaults)
    requires SystemOk(s, srv) && q in s.requests && Steady(env)
    ensures SystemOk(OnRequest(s, q, env, srv), srv)
  {
    RequestFrame(s, q, env, srv);
    RequestConn(s, q, env, srv);
    RequestMode(s, q, env, srv);
    RequestEarns(s, q, env, srv);
    hide Process, OnRequest, ConnFor, BirthsWith, ModeAt, Grown, Earned, ConnOk;
    hide RequestsOk, RepliesOk, ClientsOk, ConnsOk;
    var t := OnRequest(s, q, env, srv);
    PastStays(s, t, srv);
    OneConnOk(s, t, q.flow, srv);
  }

  lemma SendStep(s: System, t: System, q: Request, srv: Defaults)
    requires SystemOk(s, srv) && t == s.(requests := s.requests + {q})
    requires q.from in s.clients && q.flow == s.clients[q.from].o.flow
    requires q.msg.params == ParamsOf(s.clients[q.from].o) && (Invite(q.msg.code) || q.msg.code.Done?)
    ensures SystemOk(t, srv)
  {
    assert Grown(s, t);
    hide ParamsOf, Earned, ClientOk, ConnOk, ModeAt;
    assert RequestsOk(t);
    hide RequestsOk;
    assert ConnsOk(t, srv) by {
      SameConns(s, t, srv);
    }
    PastStaysForRequests(s, t, srv);
  }

  lemma SameConns(s: System, t: System, srv: Defaults)
    requires ConnsOk(s, srv) && t.conns == s.conns && t.births == s.births && t.accepted == s.accepted
    requires t.initialised == s.initialised && t.closeQueued == s.closeQueued
    ensures ConnsOk(t, srv)
  {
    forall f | f in t.conns
      ensures ConnOk(t, f, t.conns[f], srv)
    {
      assert ConnOk(s, f, s.conns[f], srv);
    }
    hide Fresh, ModeAt;
  }

  lemma PastStaysForRequests(s: System, t: System, srv: Defaults)
    requires RepliesOk(s, srv) && ClientsOk(s, srv) && Grown(s, t)
    requires t.clients == s.clients && t.replies == s.replies
    ensures RepliesOk(t, srv) && ClientsOk(t, srv)
  {
    hide Earned, ClientOk, Grown;
    forall r | r in s.replies
      ensures Earned(t, s.clients[r.to].o, r.msg.code, srv)
    {
      StillEarned(s, t, s.clients[r.to].o, r.msg.code, srv);
    }
    forall a | a in s.clients
      ensures ClientOk(t, s.clients[a], srv)
    {
      StillClient(s, t, s.clients[a], srv);
    }
  }

  lemma ReplyStep(s: System, r: Reply, srv: Defaults)
    requires SystemOk(s, srv)
    ensures SystemOk(Do(s, ClientGets(r), srv), srv)
  {
    var t := Do(s, ClientGets(r), srv);
    if r in s.replies && r.to in s.clients {
      var c := s.clients[r.to];
      assert ClientOk(s, c, srv) && Earned(s, c.o, r.msg.code, srv);
      ReplyClient(s, c, r.msg.code, srv);
      hide Process, ParamsOf, OnRequest, HasLatched, ModeAt, ConnOk;
      assert RequestsOk(t);
      SameConns(s, t, srv);
      SameViews(s, t, r.to, srv);
    }
  }

  lemma ReplyClient(s: System, c: Client, code: Code, srv: Defaults)
    requires ClientOk(s, c, srv) && Earned(s, c.o, code, srv)
    ensures ClientOk(s, OnReply(c, code), srv) && OnReply(c, code).o == c.o
  {
    hide HasLatched;
  }

  lemma SameViews(s: System, t: System, a: nat, srv: Defaults)
    requires RepliesOk(s, srv) && ClientsOk(s, srv) && a in s.clients
    requires t == s.(clients := t.clients) && a in t.clients && t.clients == s.clients[a := t.clients[a]]
    requires t.clients[a].o == s.clients[a].o && ClientOk(s, t.clients[a], srv)
    ensures RepliesOk(t, srv) && ClientsOk(t, srv)
  {
    assert Grown(s, t);
    hide Earned, ClientOk, Grown;
    forall r | r in t.replies
      ensures r.to in t.clients && Earned(t, t.clients[r.to].o, r.msg.code, srv)
    {
      StillEarned(s, t, s.clients[r.to].o, r.msg.code, srv);
    }
    forall b | b in t.clients
      ensures ClientOk(t, t.clients[b], srv)
    {
      StillClient(s, t, t.clients[b], srv);
    }
  }

  lemma PingOk(s: System, flow: nat, srv: Defaults)
    requires SystemOk(s, srv) && Admits(s)
    ensures SystemOk(Do(s, ServerGetsPing(flow), srv), srv)
  {
    var t := Do(s, ServerGetsPing(flow), srv);
    ConnForOk(s, flow, srv);
    assert ConnOk(t, flow, t.conns[flow], srv);
    assert Grown(s, t) && t.births == BirthsWith(s, flow);
    hide ModeAt, Earned, ClientOk, ConnOk, RequestsOk, RepliesOk, ClientsOk, ConnsOk, ConnFor, Grown, BirthsWith;
    PastStays(s, t, srv);
    OneConnOk(s, t, flow, srv);
  }

  lemma CloseOk(s: System, flow: nat, srv: Defaults)
    requires SystemOk(s, srv) && flow in s.conns && s.conns[flow].pendingCloses > 0
    ensures SystemOk(Do(s, BrokerCloses(flow), srv), srv)
  {
    var t := Do(s, BrokerCloses(flow), srv);
    assert ConnOk(s, flow, s.conns[flow], srv);
    assert ConnOk(t, flow, t.conns[flow], srv);
    assert Grown(s, t) && t.births == BirthsWith(s, flow);
    hide ModeAt, Earned, ClientOk, ConnOk, RequestsOk, RepliesOk, ClientsOk, ConnsOk, Grown;
    PastStays(s, t, srv);
    OneConnOk(s, t, flow, srv);
  }

  lemma CollectOk(s: System, flow: nat, srv: Defaults)
    requires SystemOk(s, srv)
    ensures SystemOk(Do(s, Collect(flow), srv), srv)
  {
    var t := Do(s, Collect(flow), srv);
    assert Grown(s, t);
    assert ConnsOk(t, srv) by {
      forall f | f in t.conns
        ensures ConnOk(t, f, t.conns[f], srv)
      {
        assert ConnOk(s, f, s.conns[f], srv);
      }
      hide Fresh, ModeAt;
    }
    hide ModeAt, Earned, ClientOk, ConnOk, RequestsOk, RepliesOk, ClientsOk, ConnsOk, Grown;
    PastStays(s, t, srv);
  }

  lemma StepOk(s: System, a: Action, srv: Defaults)
    requires SystemOk(s, srv) && (a.ServerGets? ==> Steady(a.env))
    ensures SystemOk(Do(s, a, srv), srv)
  {
    hide SystemOk, OnRequest, ParamsOf, OnReply;
    match a {
      case SendInvite(x) =>
        if Do(s, a, srv) != s {
          SendStep(s, Do(s, a, srv), Request(x, s.clients[x].o.flow, InviteOf(s.clients[x].o)), srv);
        }
      case SendDone(x, count) =>
        if Do(s, a, srv) != s {
          SendStep(s, Do(s, a, srv), Request(x, s.clients[x].o.flow, Msg(Done, ParamsOf(s.clients[x].o), count)), srv);
        }
      case ServerGets(q, env) =>
        if q in s.requests {
          RequestStep(s, q, env, srv);
        }
      case ServerGetsPing(flow) =>
        if Admits(s) {
          PingOk(s, flow, srv);
        }
      case ClientGets(r) => ReplyStep(s, r, srv);
      case BrokerCloses(flow) =>
        if flow in s.conns && s.conns[flow].pendingCloses > 0 {
          CloseOk(s, flow, srv);
        }
      case Collect(flow) => CollectOk(s, flow, srv);
    }
  }

  lemma BeginOk(options: map<nat, Options>, srv: Defaults)
    ensures SystemOk(Begin(options, srv), srv)
  {
  }

  lemma {:induction false} RunOk(options: map<nat, Options>, acts: seq<Action>, srv: Defaults)
    requires SteadyRun(acts)
    ensures SystemOk(Run(Begin(options, srv), acts, srv), srv)
    decreases |acts|
  {
    hide Do, Begin;
    if |acts| == 0 {
      BeginOk(options, srv);
    } else {
      RunOk(options, acts[..|acts| - 1], srv);
      StepOk(Run(Begin(options, srv), acts[..|acts| - 1], srv), acts[|acts| - 1], srv);
      hide SystemOk;
    }
  }

  /** On every run, whatever the network does and however many clients there are: a client
      that started had its flow initialised by the server, and was started by an accepted
      invite or by a redirect; one started by an accepted invite had exactly its own settings
      latched, asymmetric as the server was when it created the connection; one that is done
      had its output closed. */
  lemma HandshakeIsSafe(options: map<nat, Options>, acts: seq<Action>, srv: Defaults, a: nat)
    requires SteadyRun(acts) && a in options
    ensures var s := Run(Begin(options, srv), acts, srv);
            && a in s.clients && s.clients[a].o == options[a]
            && (s.clients[a].started ==> options[a].flow in s.initialised)
            && (s.clients[a].started ==> s.clients[a].byOk || options[a].flow in s.redirected)
            && (s.clients[a].byOk ==> HasLatched(s, options[a], srv))
            && (s.clients[a].done ==> options[a].flow in s.closeQueued)
  {
    RunOk(options, acts, srv);
    OptionsStay(options, acts, srv, a);
    hide Run, HasLatched;
    assert ClientOk(Run(Begin(options, srv), acts, srv), Run(Begin(options, srv), acts, srv).clients[a], srv);
  }

  lemma {:induction false} OptionsStay(options: map<nat, Options>, acts: seq<Action>, srv: Defaults, a: nat)
    requires a in options
    ensures var s := Run(Begin(options, srv), acts, srv); a in s.clients && s.clients[a].o == options[a]
    decreases |acts|
  {
    if |acts| == 0 {
    } else {
      OptionsStay(options, acts[..|acts| - 1], srv, a);
      OptionsKept(Run(Begin(options, srv), acts[..|acts| - 1], srv), acts[|acts| - 1], srv, a);
      hide Do, Begin;
    }
  }

  lemma OptionsKept(s: System, act: Action, srv: Defaults, a: nat)
    requires a in s.clients
    ensures a in Do(s, act, srv).clients && Do(s, act, srv).clients[a].o == s.clients[a].o
  {
    if act.ServerGets? {
      RequestFrame(s, act.q, act.env, srv);
    }
    hide OnRequest, ConnFor, BirthsWith, ParamsOf;
  }

  /** Re-delivered invites and everything else leave the settings of a started connection
      alone for as long as the connection exists. */
  lemma SettingsStay(s: System, a: Action, srv: Defaults, flow: nat)
    requires a.ServerGets? ==> Steady(a.env)
    requires RequestsOk(s) && flow in s.conns && s.conns[flow].started && flow in Do(s, a, srv).conns
    ensures var c := Do(s, a, srv).conns[flow]; c.started && c.settings == s.conns[flow].settings
  {
    if a.ServerGets? && a.q in s.requests {
      RequestFrame(s, a.q, a.env, srv);
      if a.q.flow == flow {
        ReplyMeans(a.q.msg, s.conns[flow], s.asym, a.env, srv);
        if Invite(a.q.msg.code) && !s.conns[flow].finished {
          RepeatedInvite(a.q.msg, s.conns[flow], s.asym, a.env, srv);
        }
      }
    }
    hide Process, OnRequest, Latch, BirthsWith, ParamsOf, Grown;
  }

  /** The same over any run that does not collect the connection. */
  lemma {:induction false} SettingsStayForRun(s: System, acts: seq<Action>, srv: Defaults, flow: nat)
    requires SystemOk(s, srv) && SteadyRun(acts) && flow in s.conns && s.conns[flow].started
    requires forall i :: 0 <= i < |acts| ==> acts[i] != Collect(flow)
    ensures var t := Run(s, acts, srv);
            && SystemOk(t, srv) && flow in t.conns
            && t.conns[flow].started && t.conns[flow].settings == s.conns[flow].settings
    decreases |acts|
  {
    if |acts| == 0 {
    } else {
      var h, a := acts[..|acts| - 1], acts[|acts| - 1];
      SettingsStayForRun(s, h, srv, flow);
      var t := Run(s, h, srv);
      StepOk(t, a, srv);
      ConnStays(t, a, srv, flow);
      SettingsStay(t, a, srv, flow);
      hide Do, SystemOk;
    }
  }

  lemma ConnStays(s: System, a: Action, srv: Defaults, flow: nat)
    requires flow in s.conns && a != Collect(flow)
    ensures flow in Do(s, a, srv).conns
  {
    if a.ServerGets? {
      RequestFrame(s, a.q, a.env, srv);
    }
    hide Process, OnRequest, ConnFor, BirthsWith, ParamsOf, Grown;
  }

  /** What one delivered invite does on a connection that is not started, once the client
      has the reply. Settings are taken over, and the connection is started, exactly when the
      guard accepts the invite; the client starts exactly when it is accepted or redirected;
      so it starts on a connection that took nothing over exactly when it is redirected. */
  lemma InviteLatchesExactly(s: System, q: Request, env: Env, srv: Defaults)
    requires RequestsOk(s) && q in s.requests && Admits(s) && Invite(q.msg.code)
    requires !s.clients[q.from].started && !ConnFor(s, q.flow).started && !ConnFor(s, q.flow).finished
    ensures var t := Do(s, ServerGets(q, env), srv);
            var r := Reply(q.from, q.flow, Process(q.msg, ConnFor(s, q.flow), s.asym, env, srv).msg);
            var u := Do(t, ClientGets(r), srv);
            && q.flow in t.conns && q.from in u.clients && u.conns == t.conns && r in t.replies
            && (t.conns[q.flow].started <==> Accepts(q.msg.code, env))
            && (t.accepted != s.accepted <==> Accepts(q.msg.code, env))
            && (!Accepts(q.msg.code, env) ==> t.latched == s.latched)
            && (u.clients[q.from].started <==> Accepts(q.msg.code, env) || Redirects(q.msg.code, env))
            && (u.clients[q.from].started && !u.conns[q.flow].started <==> Redirects(q.msg.code, env))
  {
    RequestFrame(s, q, env, srv);
    InviteOutcome(q.msg, ConnFor(s, q.flow), s.asym, env, srv);
    hide Process, OnRequest, ConnFor, BirthsWith, ParamsOf, Accepts, Redirects, Grown;
    assert |s.accepted + [q.msg.params.x]| > |s.accepted|;
  }

  /** On a new flow an accepted invite gives the connection the server's mode of that moment
      and sets the mode for the connections to come. */
  lemma NewFlowLatches(s: System, q: Request, env: Env, srv: Defaults)
    requires RequestsOk(s) && q in s.requests && Admits(s) && q.flow !in s.conns && Accepts(q.msg.code, env)
    ensures var o, t := s.clients[q.from].o, Do(s, ServerGets(q, env), srv);
            && q.flow in t.conns && t.conns[q.flow].started
            && t.conns[q.flow].settings == Wanted(o, srv, s.asym)
            && t.asym == (srv.asym && !o.x)
            && (t.conns[q.flow].settings == Wanted(o, srv, srv.asym) <==> s.asym == srv.asym || o.x)
  {
    var o := s.clients[q.from].o;
    InviteOutcome(q.msg, NewConn(s.asym), s.asym, env, srv);
    ReplyMeans(q.msg, NewConn(s.asym), s.asym, env, srv);
    LatchesWanted(o, srv, s.asym);
    RequestFrame(s, q, env, srv);
    assert ParamsOf(o).x == o.x;
    hide Process, OnRequest, Latch, ParamsOf, BirthsWith, Grown;
  }

  /** With -X one client's X bit reaches the next client: after an accepted invite with the
      bit, a new flow without it is not asymmetric although the server's options ask for it,
      and the flow after that one is again. */
  lemma AsymmetryLeaks(s: System, q0: Request, e0: Env, q1: Request, e1: Env, srv: Defaults)
    requires RequestsOk(s) && q0 in s.requests && q1 in s.requests && |s.conns| < MAX_CONNECTIONS
    requires q0.flow !in s.conns && q1.flow !in s.conns && q0.flow != q1.flow
    requires Accepts(q0.msg.code, e0) && Accepts(q1.msg.code, e1)
    requires srv.asym && s.clients[q0.from].o.x && !s.clients[q1.from].o.x
    ensures var t := Do(Do(s, ServerGets(q0, e0), srv), ServerGets(q1, e1), srv);
            && q1.flow in t.conns && t.conns[q1.flow].started && !t.conns[q1.flow].settings.x
            && t.conns[q1.flow].settings != Wanted(s.clients[q1.from].o, srv, srv.asym)
            && t.asym
  {
    NewFlowLatches(s, q0, e0, srv);
    var s1 := Do(s, ServerGets(q0, e0), srv);
    assert s1.clients == s.clients && s1.requests == s.requests;
    assert s1.conns == s.conns[q0.flow := s1.conns[q0.flow]];
    SizeAfterInsert(s.conns, q0.flow, s1.conns[q0.flow]);
    NewFlowLatches(s1, q1, e1, srv);
    hide Do;
  }

  /** A run that does this to any two clients with different flows. */
  lemma AsymmetryLeaksInRun(o0: Options, o1: Options, e0: Env, e1: Env, srv: Defaults)
    requires o0.flow != o1.flow && srv.asym && o0.x && !o1.x
    requires Accepts(InviteOf(o0).code, e0) && Accepts(InviteOf(o1).code, e1)
    ensures var q0, q1 := Request(0, o0.flow, InviteOf(o0)), Request(1, o1.flow, InviteOf(o1));
            var acts := [SendInvite(0), SendInvite(1), ServerGets(q0, e0), ServerGets(q1, e1)];
            var t := Run(Begin(map[0 := o0, 1 := o1], srv), acts, srv);
            o1.flow in t.conns && t.conns[o1.flow].started && !t.conns[o1.flow].settings.x
  {
    var q0, q1 := Request(0, o0.flow, InviteOf(o0)), Request(1, o1.flow, InviteOf(o1));
    var s0 := Begin(map[0 := o0, 1 := o1], srv);
    BothInvited(o0, o1, srv);
    var s := Do(Do(s0, SendInvite(0), srv), SendInvite(1), srv);
    FourSteps(s0, SendInvite(0), SendInvite(1), ServerGets(q0, e0), ServerGets(q1, e1), srv);
    AsymmetryLeaks(s, q0, e0, q1, e1, srv);
    hide Do, Run, Begin, InviteOf, Accepts, RequestsOk;
  }

  lemma BothInvited(o0: Options, o1: Options, srv: Defaults)
    ensures var q0, q1 := Request(0, o0.flow, InviteOf(o0)), Request(1, o1.flow, InviteOf(o1));
            var s := Do(Do(Begin(map[0 := o0, 1 := o1], srv), SendInvite(0), srv), SendInvite(1), srv);
            && RequestsOk(s) && q0 in s.requests && q1 in s.requests && s.conns == map[]
            && 0 in s.clients && s.clients[0].o == o0 && 1 in s.clients && s.clients[1].o == o1
  {
    hide ParamsOf;
  }

  lemma FourSteps(s: System, a: Action, b: Action, c: Action, d: Action, srv: Defaults)
    ensures Run(s, [a, b, c, d], srv) == Do(Do(Do(Do(s, a, srv), b, srv), c, srv), d, srv)
  {
    hide Do;
    RunOneMore(s, [], a, srv);
    RunOneMore(s, [a], b, srv);
    RunOneMore(s, [a, b], c, srv);
    RunOneMore(s, [a, b, c], d, srv);
    assert [] + [a] == [a] && [a] + [b] == [a, b] && [a, b] + [c] == [a, b, c] && [a, b, c] + [d] == [a, b, c, d];
    hide Run;
    assert Run(s, [], srv) == s by {
      RunNothing(s, srv);
    }
  }

  lemma RunNothing(s: System, srv: Defaults)
    ensures Run(s, [], srv) == s
  {
  }

  lemma RunOneMore(s: System, acts: seq<Action>, a: Action, srv: Defaults)
    ensures Run(s, acts + [a], srv) == Do(Run(s, acts, srv), a, srv)
  {
    assert (acts + [a])[..|acts|] == acts;
  }

  // The connection limit

  lemma SizeAfterInsert(conns: map<nat, Conn>, flow: nat, c: Conn)
    ensures |conns[flow := c]| == if flow in conns then |conns| else |conns| + 1
  {
    if flow in conns {
      assert conns[flow := c].Keys == conns.Keys;
    } else {
      assert conns[flow := c].Keys == conns.Keys + {flow};
    }
  }

  /** No run ever holds more than 65 connections. */
  lemma {:induction false} ConnectionsBounded(options: map<nat, Options>, acts: seq<Action>, srv: Defaults)
    ensures |Run(Begin(options, srv), acts, srv).conns| <= MAX_CONNECTIONS + 1
    decreases |acts|
  {
    if |acts| == 0 {
    } else {
      ConnectionsBounded(options, acts[..|acts| - 1], srv);
      ConnectionsStep(Run(Begin(options, srv), acts[..|acts| - 1], srv), acts[|acts| - 1], srv);
      hide Do;
    }
  }

  lemma ConnectionsStep(s: System, a: Action, srv: Defaults)
    requires |s.conns| <= MAX_CONNECTIONS + 1
    ensures |Do(s, a, srv).conns| <= MAX_CONNECTIONS + 1
  {
    hide Do;
    match a {
      case ServerGets(q, env) => DeliverySize(s, q, env, srv);
      case ServerGetsPing(flow) => PingSize(s, flow, srv);
      case BrokerCloses(flow) => CloseSize(s, flow, srv);
      case Collect(flow) => CollectSize(s, flow, srv);
      case _ => SameSize(s, a, srv);
    }
  }

  lemma DeliverySize(s: System, q: Request, env: Env, srv: Defaults)
    ensures |Do(s, ServerGets(q, env), srv).conns| <= if Admits(s) then |s.conns| + 1 else |s.conns|
  {
    hide OnRequest;
    RequestSize(s, q, env, srv);
  }

  lemma CollectSize(s: System, flow: nat, srv: Defaults)
    ensures |Do(s, Collect(flow), srv).conns| <= |s.conns|
  {
    SubsetSize((s.conns - {flow}).Keys, s.conns.Keys);
  }

  lemma SameSize(s: System, a: Action, srv: Defaults)
    requires a.SendInvite? || a.SendDone? || a.ClientGets?
    ensures Do(s, a, srv).conns == s.conns
  {
    hide ParamsOf, InviteOf, OnReply;
  }

  lemma RequestSize(s: System, q: Request, env: Env, srv: Defaults)
    ensures |OnRequest(s, q, env, srv).conns| <= |s.conns| + 1
  {
    RequestFrame(s, q, env, srv);
    hide OnRequest, Process, ConnFor, BirthsWith, Grown;
    var c := Process(q.msg, ConnFor(s, q.flow), s.asym, env, srv).conn;
    SizeAfterInsert(s.conns, q.flow, c.(initialized := true));
  }

  lemma PingSize(s: System, flow: nat, srv: Defaults)
    ensures |Do(s, ServerGetsPing(flow), srv).conns| <= if Admits(s) then |s.conns| + 1 else |s.conns|
  {
    hide ConnFor, BirthsWith;
    SizeAfterInsert(s.conns, flow, ConnFor(s, flow).(pktRx := ConnFor(s, flow).pktRx + 1));
  }

  lemma CloseSize(s: System, flow: nat, srv: Defaults)
    ensures |Do(s, BrokerCloses(flow), srv).conns| == |s.conns|
  {
    if flow in s.conns && s.conns[flow].pendingCloses > 0 {
      var c := s.conns[flow];
      SizeAfterInsert(s.conns, flow, c.(pendingCloses := c.pendingCloses - 1, finished := true));
    }
  }

  lemma {:induction false} SubsetSize(a: set<nat>, b: set<nat>)
    requires a <= b
    ensures |a| <= |b|
    decreases |a|
  {
    if a == {} {
    } else {
      var x :| x in a;
      SubsetSize(a - {x}, b - {x});
    }
  }

  function Pings(n: nat): seq<Action> {
    if n == 0 then [] else Pings(n - 1) + [ServerGetsPing(n - 1)]
  }

  /** And 65 are reached by packets of 65 flows: the limit is one higher than its constant. */
  lemma {:induction false} SixtyFiveFlows(options: map<nat, Options>, n: nat, srv: Defaults)
    requires n <= MAX_CONNECTIONS + 1
    ensures var conns := Run(Begin(options, srv), Pings(n), srv).conns;
            |conns| == n && forall f :: f in conns <==> 0 <= f < n
    decreases n
  {
    if n == 0 {
      RunNothing(Begin(options, srv), srv);
      hide Run, Do;
    } else {
      hide Run, Do, Begin, ConnFor;
      SixtyFiveFlows(options, n - 1, srv);
      var s := Run(Begin(options, srv), Pings(n - 1), srv);
      RunOneMore(Begin(options, srv), Pings(n - 1), ServerGetsPing(n - 1), srv);
      PingStep(s, n - 1, srv);
    }
  }

  lemma PingStep(s: System, n: nat, srv: Defaults)
    requires |s.conns| == n <= MAX_CONNECTIONS && forall f :: f in s.conns <==> 0 <= f < n
    ensures var conns := Do(s, ServerGetsPing(n), srv).conns;
            |conns| == n + 1 && forall f :: f in conns <==> 0 <= f < n + 1
  {
    var c := ConnFor(s, n);
    SizeAfterInsert(s.conns, n, c.(pktRx := c.pktRx + 1));
    hide ConnFor;
  }
}
