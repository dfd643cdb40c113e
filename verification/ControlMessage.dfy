/** What the server does with one control message on one connection. */
module ControlMessage {

  datatype Code = FName | NoFName | FNameOk | Redirect | Done | DoneOk | Term | Other

  /** The parameter bits of an invite and its slot length in whole milliseconds. */
  datatype Params = Params(
    h: bool, d: bool, e: bool, sendRate: bool, l: bool, x: bool, c: bool, j: bool,
    sampleMs: nat)

  /** The settings a connection takes over from an invite; `ax` is the anti-asymmetric mode. */
  datatype Settings = Settings(
    h: bool, d: bool, e: bool, sendRate: bool, l: bool, x: bool, ax: bool, c: bool, j: bool,
    sampleLen: nat)

  /** The server's own options; `asym` is its -X option. */
  datatype Defaults = Defaults(stamps: bool, bitrate: bool, sendBitrate: bool, asym: bool)

  datatype Conn = Conn(
    settings: Settings,
    file: bool,
    started: bool,
    initialized: bool,
    finished: bool,
    pktRx: nat,
    pendingCloses: nat) // output-close messages queued and not yet handled by the broker

  datatype Msg = Msg(code: Code, params: Params, count: nat)

  /** What the outside world contributes: the clock read for the connection and read again
      in the handler, whether a file of that name was written less than 10 s ago, and
      whether the file could be opened. */
  datatype Env = Env(curTs: nat, now: nat, young: bool, opens: bool)

  const CONTROL: nat := 0 // message type of control messages
  const TERM_CODE: nat := 8 // the number of the code Term
  const REPEAT_WINDOW: nat := 10_000_000_000

  /** The clock did not step back by 10 s or more between the two reads. */
  predicate Steady(env: Env) {
    env.curTs < env.now + REPEAT_WINDOW
  }

  /** The settings of a new connection; `asym` is the server's asymmetric mode at that time. */
  function Fresh(asym: bool): Settings {
    Settings(false, false, false, false, false, asym, false, false, false, 0)
  }

  function NewConn(asym: bool): Conn {
    Conn(Fresh(asym), false, false, false, false, 0, 0)
  }

  /** Bits are only ever switched on here, except where the server has a default. */
  function Latch(s: Settings, p: Params, srv: Defaults): Settings {
    Settings(
      s.h || p.h,
      p.d || srv.stamps,
      p.e || srv.bitrate,
      p.sendRate || srv.sendBitrate,
      s.l || p.l,
      s.x && !p.x,
      s.ax || p.x,
      s.c || p.c,
      s.j || p.j,
      if p.l then p.sampleMs * 1_000_000 else s.sampleLen)
  }

  /** How far the handler can still call itself. */
  function Rank(code: Code): nat {
    match code
    case FName => 2
    case NoFName => 2
    case Done => 2
    case _ => 1
  }

  /** The reply, the connection and the server's asymmetric mode after a message. */
  datatype Effect = Effect(msg: Msg, conn: Conn, asym: bool)

  /** `processControlMessage`: the message becomes the reply. An accepted invite with the X
      bit switches the asymmetric mode of the whole server off, one without restores it. */
  function Process(m: Msg, c: Conn, asym: bool, env: Env, srv: Defaults): Effect
    decreases Rank(m.code)
  {
    if c.finished then Effect(m, c, asym)
    else
      match m.code
      case FName =>
        if c.started && Steady(env) then Effect(m, c, asym)
        else if env.young then Effect(m.(code := Term), c.(finished := true), asym)
        else if env.opens then Process(m.(code := FNameOk), c.(file := true), asym, env, srv)
        else Process(m.(code := Redirect), c, asym, env, srv)
      case NoFName =>
        if c.started && Steady(env) then Effect(m, c, asym)
        else Process(m.(code := FNameOk), c, asym, env, srv)
      case Done =>
        Process(m.(code := DoneOk, count := c.pktRx), c.(pendingCloses := c.pendingCloses + 1), asym, env, srv)
      case FNameOk =>
        Effect(m, c.(settings := Latch(c.settings, m.params, srv), started := true), srv.asym && !m.params.x)
      case _ => Effect(m, c, asym)
  }

  predicate Invite(code: Code) {
    code.FName? || code.NoFName?
  }

  /** Taking an invite's settings over twice changes nothing more. Without the L bit the slot
      length stays; with it, it is the invite's, in nanoseconds. No invite switches an option
      off that only invites switch on, or asymmetric output back on. */
  lemma LatchingRepeats(s: Settings, p: Params, srv: Defaults)
    ensures var r := Latch(s, p, srv);
            && Latch(r, p, srv) == r
            && (if p.l then r.l && r.sampleLen == p.sampleMs * 1_000_000 else r.l == s.l && r.sampleLen == s.sampleLen)
            && (s.h ==> r.h) && (s.l ==> r.l) && (s.c ==> r.c) && (s.j ==> r.j) && (s.ax ==> r.ax) && (r.x ==> s.x)
  {
  }

  /** A started connection answers a repeated invite with the invite itself and keeps every
      setting; it answers otherwise exactly when the clock stepped back by the window. */
  lemma RepeatedInvite(m: Msg, c: Conn, asym: bool, env: Env, srv: Defaults)
    requires c.started && !c.finished && Invite(m.code)
    ensures Process(m, c, asym, env, srv).msg == m <==> Steady(env)
    ensures Steady(env) ==> Process(m, c, asym, env, srv) == Effect(m, c, asym)
  {
  }

  /** The guard under which an unstarted connection takes an invite's settings over. */
  predicate Accepts(code: Code, env: Env) {
    code.NoFName? || (code.FName? && !env.young && env.opens)
  }

  predicate Redirects(code: Code, env: Env) {
    code.FName? && !env.young && !env.opens
  }

  /** On a connection that is not started an invite is accepted exactly when it names no
      file or its file can be opened and is not in use; it is redirected exactly when the
      file cannot be opened, and refused exactly when the file is in use. */
  lemma InviteOutcome(m: Msg, c: Conn, asym: bool, env: Env, srv: Defaults)
    requires !c.started && !c.finished && Invite(m.code)
    ensures var r := Process(m, c, asym, env, srv);
            && (r.msg.code.FNameOk? <==> Accepts(m.code, env))
            && (r.conn.started <==> Accepts(m.code, env))
            && (r.msg.code.Redirect? <==> Redirects(m.code, env))
            && (r.msg.code.Term? <==> m.code.FName? && env.young)
            && (r.conn.finished <==> m.code.FName? && env.young)
            && r.asym == (if Accepts(m.code, env) then srv.asym && !m.params.x else asym)
  {
  }

  /** What the reply to each request says about the connection. */
  lemma ReplyMeans(m: Msg, c: Conn, asym: bool, env: Env, srv: Defaults)
    requires Invite(m.code) || m.code.Done?
    ensures var r := Process(m, c, asym, env, srv);
            && (r.msg.code.FNameOk? ==> Invite(m.code) && !c.finished && r.conn.started
                                        && r.conn.settings == Latch(c.settings, m.params, srv))
            && (r.msg.code.DoneOk? <==> m.code.Done? && !c.finished)
            && (r.msg.code.DoneOk? ==> r.conn.pendingCloses == c.pendingCloses + 1 && r.msg.count == c.pktRx)
            && (!r.msg.code.DoneOk? ==> r.conn.pendingCloses == c.pendingCloses)
            && (r.msg.code.Redirect? ==> r.conn == c && m.code.FName?)
            && (r.msg.code.Term? ==> r.conn.finished && m.code.FName?)
            && (!r.msg.code.FNameOk? ==> r.conn.settings == c.settings && r.conn.started == c.started)
            && r.conn.initialized == c.initialized && r.conn.pktRx == c.pktRx
            && r.conn.file == (c.file || (m.code.FName? && r.msg.code.FNameOk?))
            && r.conn.finished == (c.finished || r.msg.code.Term?)
            && r.msg.params == m.params && r.msg.count == (if r.msg.code.DoneOk? then c.pktRx else m.count)
            && (c.finished ==> r.msg == m)
            && r.asym == (if r.msg.code.FNameOk? then srv.asym && !m.params.x else asym)
  {
  }

  /** The message buffer, rewritten in place into the reply. `kind` is its type byte. */
  class PingMsg {
    const kind: nat
    var code: Code
    const params: Params
    var count: nat

    constructor (kind: nat, code: Code, params: Params)
      ensures this.kind == kind && Contents() == Msg(code, params, 0)
    {
      this.kind, this.code, this.params, count := kind, code, params, 0;
    }

    function Contents(): Msg
      reads this
    {
      Msg(code, params, count)
    }
  }

  /** The server's setup: its options, and the asymmetric mode that invites switch. */
  class Setup {
    const srv: Defaults
    var asym: bool

    constructor (srv: Defaults)
      ensures this.srv == srv && asym == srv.asym
    {
      this.srv, asym := srv, srv.asym;
    }
  }

  class Connection {
    var settings: Settings
    var file: bool
    var started: bool
    var initialized: bool
    var finished: bool
    var pktRx: nat
    var pendingCloses: nat

    constructor (asym: bool)
      ensures Snap() == NewConn(asym)
    {
      settings := Fresh(asym);
      file, started, initialized, finished, pktRx, pendingCloses := false, false, false, false, 0, 0;
    }

    function Snap(): Conn
      reads this
    {
      Conn(settings, file, started, initialized, finished, pktRx, pendingCloses)
    }

    method LatchParams(p: Params, srv: Defaults)
      modifies `settings
      ensures settings == Latch(old(settings), p, srv)
    {
      var h, l, sampleLen := settings.h, settings.l, settings.sampleLen;
      var x, ax, c, j := settings.x, settings.ax, settings.c, settings.j;
      if p.h {
        h := true;
      }
      var d := if p.d then true else srv.stamps;
      var e := if p.e then true else srv.bitrate;
      var sendRate := if p.sendRate then true else srv.sendBitrate;
      if p.l {
        l, sampleLen := true, p.sampleMs * 1_000_000;
      }
      if p.x {
        x, ax := false, true;
      }
      if p.c {
        c := true;
      }
      if p.j {
        j := true;
      }
      settings := Settings(h, d, e, sendRate, l, x, ax, c, j, sampleLen);
    }

    /** The handler: it rewrites the code of a control message and calls itself on the new
        one. It leaves other types of messages alone. */
    method ProcessControlMessage(msg: PingMsg, env: Env, setup: Setup)
      modifies this, msg, setup`asym
      ensures msg.kind == CONTROL ==>
                Effect(msg.Contents(), Snap(), setup.asym)
                == old(Process(msg.Contents(), Snap(), setup.asym, env, setup.srv))
      ensures msg.kind != CONTROL ==>
                msg.Contents() == old(msg.Contents()) && Snap() == old(Snap()) && setup.asym == old(setup.asym)
      decreases Rank(msg.code)
    {
      if finished || msg.kind != CONTROL {
        return;
      }
      match msg.code {
        case FName =>
          if started && env.curTs < env.now + REPEAT_WINDOW {
            return;
          }
          if env.young {
            msg.code := Term;
            finished := true;
            return;
          }
          msg.code := FNameOk;
          if !env.opens {
            msg.code := Redirect;
          } else {
            file := true;
          }
          ProcessControlMessage(msg, env, setup);
        case NoFName =>
          if started && env.curTs < env.now + REPEAT_WINDOW {
            return;
          }
          msg.code := FNameOk;
          ProcessControlMessage(msg, env, setup);
        case Done =>
          msg.code := DoneOk;
          msg.count := pktRx;
          pendingCloses := pendingCloses + 1;
          ProcessControlMessage(msg, env, setup);
        case FNameOk =>
          LatchParams(msg.params, setup.srv);
          setup.asym := if msg.params.x then false else setup.srv.asym;
          started := true;
        case _ =>
      }
    }

    /** The branch of the receive loop for all but PING: handle, then initialise on first
        contact. The test that should spare a termination compares its code with the type of
        the message, so it never spares a control message, only one of type 8. */
    method Receive(msg: PingMsg, env: Env, setup: Setup) returns (init: bool)
      modifies this, msg, setup`asym
      ensures msg.kind == CONTROL ==>
                var r := old(Process(msg.Contents(), Snap(), setup.asym, env, setup.srv));
                msg.Contents() == r.msg && setup.asym == r.asym && Snap() == r.conn.(initialized := true)
      ensures msg.kind != CONTROL ==>
                && msg.Contents() == old(msg.Contents()) && setup.asym == old(setup.asym)
                && Snap() == old(Snap()).(initialized := old(initialized) || msg.kind != TERM_CODE)
      ensures init <==> !old(initialized) && msg.kind != TERM_CODE
      ensures msg.kind == CONTROL ==> initialized
    {
      KeepsInitialized(msg.Contents(), Snap(), setup.asym, env, setup.srv);
      ProcessControlMessage(msg, env, setup);
      init := false;
      if !initialized {
        if msg.kind != TERM_CODE {
          init := true;
          initialized := true;
        }
      }
    }
  }

  lemma KeepsInitialized(m: Msg, c: Conn, asym: bool, env: Env, srv: Defaults)
    ensures Process(m, c, asym, env, srv).conn.initialized == c.initialized
    decreases Rank(m.code)
  {
  }
}
