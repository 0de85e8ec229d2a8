/** The brokered tunnel as a step system: client agents (gateway/client.py), the gateway's bridge
    table (gateway/server.py) and server agents (tunnel/rixi_tunnel.py), over one WebSocket each.

    A stretch of code without an await is one step. Sends on a connection go through a lock that
    serves its waiters in order, so a send appends to the channel when it is called; on a closed
    WebSocket it raises. A channel is an ordered sequence of frames; after a connection is lost, a
    receive loop may still read frames that had arrived and then ends, leaving the rest unread.
    A sealed frame stands for its plaintext. */
module Tunnel {
  import opened Common
  import opened Policy

  /** One WebSocket connection (an AgentConn object); session ids stand for uuid4 strings. */
  type Conn = nat
  type Sid = nat

  /** One end of a session: the id a connection's agent knows it by. */
  datatype End = End(conn: Conn, sid: Sid)

  datatype Frame =
    | Open(sid: Sid, route: string)
    | Data(sid: Sid, bytes: Bytes)
    | Close(sid: Sid)

  /** What an agent says about itself when it dials in. */
  datatype Node = Node(id: string, client: bool, identity: Identity)

  /** Where the gateway task that serves a connection stands. A client's task waits (for the audit
      sink) between bridging a session and telling the server about it, and between two entries of
      its cleanup loop. Leaving: a send to its own client raised. */
  datatype Task =
    | Serving
    | Opening(sid: Sid, target: End)
    | Leaving
    | Cleaning(left: seq<Sid>)
    | Ended

  datatype Link = Link(
    node: Node,
    up: seq<Frame>,       // agent to gateway
    down: seq<Frame>,     // gateway to agent
    agentUp: bool,        // the agent's sends succeed
    gwUp: bool,           // the gateway's sends succeed
    agentLoop: bool,      // the agent's receive loop runs
    task: Task)

  /** An end's state at its agent, and what has happened to it so far. `writer` says that the agent's
      session map holds it, `pump` that pump_tcp_to_ws runs for it, `started` that it was ever set up.
      History: bytes read from its socket, relayed by the gateway to the peer, written to its socket;
      the end it was ever bridged to; whether the gateway dropped its bridge because the peer could
      not be reached (then nobody tells this end); Close frames sent by its agent and sent to it. */
  datatype Sess = Sess(
    started: bool, writer: bool, pump: bool,
    sent: Bytes, relayed: Bytes, delivered: Bytes,
    peer: Option<End>, orphan: bool, closes: nat, told: nat)

  datatype State = State(
    conns: map<Conn, Link>,
    bridges: map<End, End>,
    registry: map<string, Conn>,
    ends: map<End, Sess>)

  datatype Config = Config(glob: GlobalPolicy, catalog: map<string, Resource>, price: Prices)

  const EMPTY := State(map[], map[], map[], map[])

  /** How an agent's receive step goes: as intended, or with an exception (the target cannot be
      reached; a write or drain on the local socket fails, with the bytes handed over or not). */
  datatype Outcome = Fine | Fails(wrote: bool)

  datatype Event =
    | Accept(c: Conn, node: Node)
    | LocalOpen(c: Conn, sid: Sid, route: string)
    | PumpData(e: End, bytes: Bytes)
    | PumpEof(e: End)
    | AgentRecv(c: Conn, outcome: Outcome)
    | AgentDown(c: Conn)
    | AgentEnd(c: Conn)
    | GwRecv(c: Conn, newSid: Sid, usage: Usage)
    | GwOpenSend(c: Conn)
    | GwDown(c: Conn)
    | GwEnd(c: Conn, order: seq<Sid>)
    | CleanOne(c: Conn)
    | CleanDone(c: Conn)

  // ---- primitive updates ------------------------------------------------------

  function SetLink(s: State, c: Conn, l: Link): State {
    s.(conns := s.conns[c := l])
  }

  function SetSess(s: State, e: End, v: Sess): State {
    s.(ends := s.ends[e := v])
  }

  /** `conn.send(...)` by the agent; the exception of a dead WebSocket is the unchanged state. */
  function SendUp(s: State, c: Conn, f: Frame): State
    requires c in s.conns
  {
    if s.conns[c].agentUp then SetLink(s, c, s.conns[c].(up := s.conns[c].up + [f])) else s
  }

  function SendDown(s: State, c: Conn, f: Frame): State
    requires c in s.conns
  {
    if s.conns[c].gwUp then SetLink(s, c, s.conns[c].(down := s.conns[c].down + [f])) else s
  }

  function SetTask(s: State, c: Conn, t: Task): State
    requires c in s.conns
  {
    SetLink(s, c, s.conns[c].(task := t))
  }

  function PopUp(s: State, c: Conn): State
    requires c in s.conns && s.conns[c].up != []
  {
    SetLink(s, c, s.conns[c].(up := s.conns[c].up[1..]))
  }

  function PopDown(s: State, c: Conn): State
    requires c in s.conns && s.conns[c].down != []
  {
    SetLink(s, c, s.conns[c].(down := s.conns[c].down[1..]))
  }

  // ---- the agents -------------------------------------------------------------

  const FRESH := Sess(false, false, false, [], [], [], None, false, 0, 0)

  /** close_session / _close_session with notify: forget the writer, then tell the gateway. */
  function CloseAndNotify(s: State, e: End): State
    requires e in s.ends && e.conn in s.conns
  {
    var v := s.ends[e];
    var told := if s.conns[e.conn].agentUp then 1 else 0;
    SendUp(SetSess(s, e, v.(writer := false, closes := v.closes + told)), e.conn, Close(e.sid))
  }

  /** serve_local's on_local: a local TCP connection becomes a routed session. */
  function LocalOpenStep(s: State, c: Conn, sid: Sid, route: string): State
    requires c in s.conns
  {
    var up := s.conns[c].agentUp;
    SendUp(SetSess(s, End(c, sid), FRESH.(started := true, writer := up, pump := up)), c, Open(sid, route))
  }

  /** One read of pump_tcp_to_ws. */
  function PumpDataStep(s: State, e: End, bytes: Bytes): State
    requires e in s.ends && e.conn in s.conns
  {
    var v := s.ends[e].(sent := s.ends[e].sent + bytes);
    if s.conns[e.conn].agentUp then SendUp(SetSess(s, e, v), e.conn, Data(e.sid, bytes))
    else SetSess(s, e, v.(pump := false, writer := false))
  }

  /** The pump ends (end of file, or the read raised): its `finally` closes the session. */
  function PumpEofStep(s: State, e: End): State
    requires e in s.ends && e.conn in s.conns
  {
    CloseAndNotify(SetSess(s, e, s.ends[e].(pump := false)), e)
  }

  /** on_session_data at an agent. */
  function Deliver(s: State, e: End, bytes: Bytes, outcome: Outcome): State
    requires e in s.ends && e.conn in s.conns
  {
    var v := s.ends[e];
    if !v.writer then s
    else if outcome.Fine? then SetSess(s, e, v.(delivered := v.delivered + bytes))
    else CloseAndNotify(SetSess(s, e, v.(delivered := if outcome.wrote then v.delivered + bytes else v.delivered)), e)
  }

  /** _open_target. */
  function OpenTarget(s: State, e: End, outcome: Outcome): State
    requires e in s.ends && e.conn in s.conns
  {
    var v := s.ends[e].(started := true);
    if outcome.Fine? then SetSess(s, e, v.(writer := true, pump := true))
    else CloseAndNotify(SetSess(s, e, v), e)
  }

  /** One frame of the agents' receive loops (_recv_loop, _connect_once). A frame of a session the
      agent has never heard of finds no writer. */
  function AgentRecvStep(s: State, c: Conn, outcome: Outcome): State
    requires c in s.conns && s.conns[c].down != []
  {
    var f := s.conns[c].down[0];
    var e := End(c, f.sid);
    var p := PopDown(s, c);
    if e !in s.ends then p
    else
      match f
      case Open(_, _) => if s.conns[c].node.client then p else OpenTarget(p, e, outcome)
      case Data(_, bytes) => Deliver(p, e, bytes, outcome)
      case Close(_) => SetSess(p, e, p.ends[e].(writer := false))
  }

  /** close_all */
  function CloseAll(s: State, c: Conn): State {
    s.(ends := map e | e in s.ends :: if e.conn == c then s.ends[e].(writer := false) else s.ends[e])
  }

  /** The agent's receive loop ends; a server agent then runs close_all. */
  function AgentEndStep(s: State, c: Conn): State
    requires c in s.conns
  {
    var ended := SetLink(s, c, s.conns[c].(agentLoop := false));
    if s.conns[c].node.client then ended else CloseAll(ended, c)
  }

  // ---- the gateway ------------------------------------------------------------

  /** The gateway sends session_close to an end whose connection is up. */
  function Tell(s: State, e: End): State
    requires e in s.ends && e.conn in s.conns
  {
    SendDown(SetSess(s, e, s.ends[e].(told := s.ends[e].told + 1)), e.conn, Close(e.sid))
  }

  /** _unbridge */
  function Unbridge(s: State, e: End): State
    requires e in s.bridges ==> s.bridges[e] in s.ends && s.bridges[e].conn in s.conns
  {
    if e !in s.bridges then s
    else
      var p := s.bridges[e];
      var cut := s.(bridges := s.bridges - {e, p});
      if s.conns[p.conn].gwUp then Tell(cut, p) else cut
  }

  /** _unbridge from the handler of a failed send: the peer is unreachable, and `e` is not told. */
  function Abandon(s: State, e: End): State
    requires e in s.ends
    requires e in s.bridges ==> s.bridges[e] in s.ends && s.bridges[e].conn in s.conns
  {
    if e !in s.bridges then s
    else
      var cut := Unbridge(s, e);
      SetSess(cut, e, cut.ends[e].(orphan := true))
  }

  /** _on_session_data */
  function Relay(s: State, e: End, bytes: Bytes): State
    requires e in s.ends
    requires e in s.bridges ==> s.bridges[e] in s.ends && s.bridges[e].conn in s.conns
  {
    if e !in s.bridges then s
    else
      var p := s.bridges[e];
      if s.conns[p.conn].gwUp then
        SendDown(SetSess(s, e, s.ends[e].(relayed := s.ends[e].relayed + bytes)), p.conn, Data(p.sid, bytes))
      else Abandon(s, e)
  }

  predicate Registered(s: State, c: Conn)
    requires c in s.conns
  {
    s.conns[c].node.id in s.registry && s.registry[s.conns[c].node.id] == c
  }

  /** Does the gateway count sessions of connection `c` for `actor`? */
  predicate CountedFor(s: State, c: Conn, actor: string) {
    c in s.conns && s.conns[c].node.client && Registered(s, c) && s.conns[c].node.identity.Actor() == actor
  }

  /** The bridge table's keys that belong to client connections of `actor`. */
  function SessionsOf(s: State, actor: string): set<End> {
    set e | e in s.bridges && CountedFor(s, e.conn, actor)
  }

  function Actors(s: State): set<string> {
    set c | c in s.conns :: s.conns[c].node.identity.Actor()
  }

  /** The per-identity part of _usage. */
  function Concurrent(s: State): map<string, nat> {
    map actor | actor in Actors(s) :: |SessionsOf(s, actor)|
  }

  /** _resource_name_for, looked up in the catalog. */
  function CatalogEntry(cfg: Config, route: string): Option<Resource> {
    if |route| < 4 || route[..4] != "res-" then None
    else if route[4..] in cfg.catalog && cfg.catalog[route[4..]].reuse then Some(cfg.catalog[route[4..]])
    else None
  }

  predicate Routable(s: State, route: string) {
    route in s.registry && s.registry[route] in s.conns && !s.conns[s.registry[route]].node.client
  }

  function RouteDecision(cfg: Config, s: State, c: Conn, route: string, usage: Usage): Decision
    requires c in s.conns
  {
    Evaluate(cfg.glob, s.conns[c].node.identity, "route", CatalogEntry(cfg, route), NO_REQUEST,
             usage.(concurrent := Concurrent(s)), cfg.price)
  }

  /** A refused session_open: tell the client, or leave when that raises. */
  function Refuse(s: State, e: End): State
    requires e in s.ends && e.conn in s.conns
  {
    if s.conns[e.conn].gwUp then Tell(s, e) else SetTask(s, e.conn, Leaving)
  }

  /** _bridge; the server's end comes into being. */
  function Bridge(s: State, e: End, p: End): State
    requires e in s.ends
  {
    s.(bridges := s.bridges[e := p][p := e],
       ends := s.ends[e := s.ends[e].(peer := Some(p))][p := FRESH.(peer := Some(e))])
  }

  /** _open_routed up to its first await. */
  function OpenRouted(cfg: Config, s: State, e: End, route: string, newSid: Sid, usage: Usage): State
    requires e in s.ends && e.conn in s.conns
  {
    if !Routable(s, route) then Refuse(s, e)
    else if !RouteDecision(cfg, s, e.conn, route, usage).allow then Refuse(s, e)
    else SetTask(Bridge(s, e, End(s.registry[route], newSid)), e.conn, Opening(e.sid, End(s.registry[route], newSid)))
  }

  /** One frame of the gateway's loop for connection `c` (_serve_client, _serve_server). */
  function GwRecvStep(cfg: Config, s: State, c: Conn, newSid: Sid, usage: Usage): State
    requires c in s.conns && s.conns[c].up != []
    requires forall e :: e in s.bridges ==> s.bridges[e] in s.ends && s.bridges[e].conn in s.conns
  {
    var f := s.conns[c].up[0];
    var e := End(c, f.sid);
    var p := PopUp(s, c);
    if e !in s.ends then p
    else
      match f
      case Open(_, route) => if s.conns[c].node.client then OpenRouted(cfg, p, e, route, newSid, usage) else p
      case Data(_, bytes) => Relay(p, e, bytes)
      case Close(_) => Unbridge(p, e)
  }

  /** _open_routed after the audit: announce the session to the server. */
  function GwOpenSendStep(s: State, c: Conn): State
    requires c in s.conns && s.conns[c].task.Opening?
    requires End(c, s.conns[c].task.sid) in s.ends && s.conns[c].task.target.conn in s.conns
    requires forall e :: e in s.bridges ==> s.bridges[e] in s.ends && s.bridges[e].conn in s.conns
  {
    var Opening(sid, p) := s.conns[c].task;
    var t := SetTask(s, c, Serving);
    if s.conns[p.conn].gwUp then SendDown(t, p.conn, Open(p.sid, ""))
    else Abandon(t, End(c, sid))
  }

  /** registry.unregister(node_id) */
  function Unregister(s: State, c: Conn): State
    requires c in s.conns
  {
    s.(registry := s.registry - {s.conns[c].node.id})
  }

  /** The gateway's loop for `c` ends. A client's bridges are listed for removal; a server's
      sessions stay in the table, only its registration goes. */
  function GwEndStep(s: State, c: Conn, order: seq<Sid>): State
    requires c in s.conns
  {
    if s.conns[c].node.client then SetTask(s, c, Cleaning(order))
    else Unregister(SetTask(s, c, Ended), c)
  }

  function CleanOneStep(s: State, c: Conn): State
    requires c in s.conns && s.conns[c].task.Cleaning? && s.conns[c].task.left != []
    requires forall e :: e in s.bridges ==> s.bridges[e] in s.ends && s.bridges[e].conn in s.conns
  {
    var left := s.conns[c].task.left;
    SetTask(Unbridge(s, End(c, left[0])), c, Cleaning(left[1..]))
  }

  function NewLink(node: Node): Link {
    Link(node, [], [], true, true, true, Serving)
  }

  /** The keys of the bridge table that belong to `c`. */
  function Owned(s: State, c: Conn): set<Sid> {
    set e | e in s.bridges && e.conn == c :: e.sid
  }

  ghost predicate Lists(order: seq<Sid>, sids: set<Sid>) {
    (forall x :: x in order <==> x in sids) && forall i, j :: 0 <= i < j < |order| ==> order[i] != order[j]
  }

  /** When a step can happen. */
  ghost predicate Enabled(s: State, ev: Event) {
    match ev
    case Accept(c, node) => c !in s.conns
    case LocalOpen(c, sid, route) => c in s.conns && s.conns[c].node.client && End(c, sid) !in s.ends
    case PumpData(e, bytes) => e in s.ends && e.conn in s.conns && s.ends[e].pump && bytes != []
    case PumpEof(e) => e in s.ends && e.conn in s.conns && s.ends[e].pump
    case AgentRecv(c, outcome) => c in s.conns && s.conns[c].agentLoop && s.conns[c].down != []
    case AgentDown(c) => c in s.conns && s.conns[c].agentUp
    case AgentEnd(c) => c in s.conns && s.conns[c].agentLoop && !s.conns[c].agentUp
    case GwRecv(c, newSid, usage) =>
      c in s.conns && s.conns[c].task.Serving? && s.conns[c].up != [] && (forall d :: End(d, newSid) !in s.ends)
    case GwOpenSend(c) => c in s.conns && s.conns[c].task.Opening?
    case GwDown(c) => c in s.conns && s.conns[c].gwUp
    case GwEnd(c, order) =>
      c in s.conns && (s.conns[c].task.Serving? || s.conns[c].task.Leaving?) && Lists(order, Owned(s, c))
    case CleanOne(c) => c in s.conns && s.conns[c].task.Cleaning? && s.conns[c].task.left != []
    case CleanDone(c) => c in s.conns && s.conns[c].task.Cleaning? && s.conns[c].task.left == []
  }

  /** What the steps need from the tables to make sense; part of the invariant. */
  ghost predicate Wired(s: State) {
    && (forall e :: e in s.ends ==> e.conn in s.conns)
    && (forall e :: e in s.bridges ==> e in s.ends && s.bridges[e] in s.ends)
    && (forall c :: c in s.conns && s.conns[c].task.Opening? ==>
         End(c, s.conns[c].task.sid) in s.bridges
         && s.bridges[End(c, s.conns[c].task.sid)] == s.conns[c].task.target)
  }

  ghost function Step(cfg: Config, s: State, ev: Event): State
    requires Wired(s) && Enabled(s, ev)
  {
    match ev
    case Accept(c, node) => SetLink(s, c, NewLink(node)).(registry := s.registry[node.id := c])
    case LocalOpen(c, sid, route) => LocalOpenStep(s, c, sid, route)
    case PumpData(e, bytes) => PumpDataStep(s, e, bytes)
    case PumpEof(e) => PumpEofStep(s, e)
    case AgentRecv(c, outcome) => AgentRecvStep(s, c, outcome)
    case AgentDown(c) => SetLink(s, c, s.conns[c].(agentUp := false))
    case AgentEnd(c) => AgentEndStep(s, c)
    case GwRecv(c, newSid, usage) => GwRecvStep(cfg, s, c, newSid, usage)
    case GwOpenSend(c) => GwOpenSendStep(s, c)
    case GwDown(c) => SetLink(s, c, s.conns[c].(gwUp := false))
    case GwEnd(c, order) => GwEndStep(s, c, order)
    case CleanOne(c) => CleanOneStep(s, c)
    case CleanDone(c) => Unregister(SetTask(s, c, Ended), c)
  }
}
