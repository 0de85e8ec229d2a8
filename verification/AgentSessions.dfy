/** An agent's end of its tunnel as the program keeps it: the connection object with its map from
    session ids to local writers (gateway/protocol.py, and its twin in tunnel/rixi_tunnel.py), and the
    code around it that opens sessions (gateway/client.py, tunnel/rixi_tunnel.py). Each method is one
    await-free stretch. It is specified by a function on the connection's own value. In a state of the whole
    tunnel, AgentAt is the value of one connection; the functions are proved to be what the tunnel's steps
    do to it, while every other connection's value, the bridge table and the registry stay. */
module AgentSessions {
  import opened Common
  import opened Tunnel

  /** A connection on its own: its link, and the sessions it has been told of or has made. */
  datatype Agent = Agent(link: Link, known: map<Sid, Sess>)

  // ---- what each stretch does to the connection ---------------------------------------------------

  function Sent(a: Agent, f: Frame): Agent {
    if a.link.agentUp then a.(link := a.link.(up := a.link.up + [f])) else a
  }

  function With(a: Agent, sid: Sid, v: Sess): Agent {
    a.(known := a.known[sid := v])
  }

  /** A session's writer is forgotten; a close frame that is about to be sent is counted. */
  function Forgotten(a: Agent, sid: Sid, telling: bool): Agent {
    if sid !in a.known then a
    else
      var v := a.known[sid];
      With(a, sid, v.(writer := false, closes := v.closes + if telling && a.link.agentUp then 1 else 0))
  }

  /** close_session: forget the writer, if there is one, and if asked to, tell the gateway. */
  function Closed(a: Agent, sid: Sid, notify: bool): Agent {
    var b := Forgotten(a, sid, notify);
    if notify then Sent(b, Close(sid)) else b
  }

  function Opened(a: Agent, sid: Sid, route: string): Agent {
    var up := a.link.agentUp;
    Sent(With(a, sid, FRESH.(started := true, writer := up, pump := up)), Open(sid, route))
  }

  /** A round of the pump: data, or the end. */
  function Pumped(a: Agent, sid: Sid, data: Option<Bytes>): Agent
    requires sid in a.known
  {
    var v := a.known[sid];
    if data.Some? && a.link.agentUp then Sent(With(a, sid, v.(sent := v.sent + data.value)), Data(sid, data.value))
    else Closed(With(a, sid, v.(pump := false, sent := v.sent + data.GetOr([]))), sid, true)
  }

  /** on_session_data: an id without a writer is ignored, known or not. */
  function Taken(a: Agent, sid: Sid, bytes: Bytes, outcome: Outcome): Agent {
    if sid !in a.known || !a.known[sid].writer then a
    else
      var v := a.known[sid];
      var got := if outcome.Fine? || outcome.wrote then v.delivered + bytes else v.delivered;
      var b := With(a, sid, v.(delivered := got));
      if outcome.Fine? then b else Closed(b, sid, true)
  }

  /** What is known of a session; nothing yet of a new one. */
  function Known(a: Agent, sid: Sid): Sess {
    if sid in a.known then a.known[sid] else FRESH
  }

  /** _open_target */
  function Reached(a: Agent, sid: Sid, outcome: Outcome): Agent {
    var v := Known(a, sid).(started := true);
    if outcome.Fine? then With(a, sid, v.(writer := true, pump := true)) else Closed(With(a, sid, v), sid, true)
  }

  function AllClosed(a: Agent): Agent {
    a.(known := map sid | sid in a.known :: a.known[sid].(writer := false))
  }

  /** One frame of the receive loop. */
  function Received(a: Agent, outcome: Outcome): Agent
    requires a.link.down != []
  {
    var f := a.link.down[0];
    var p := a.(link := a.link.(down := a.link.down[1..]));
    match f
    case Open(sid, _) => if a.link.node.client then p else Reached(p, sid, outcome)
    case Data(sid, bytes) => Taken(p, sid, bytes, outcome)
    case Close(sid) => Closed(p, sid, false)
  }

  /** A frame from the gateway arrives; a session_open makes its session known. */
  function Arrived(a: Agent, f: Frame): Agent {
    var b := a.(link := a.link.(down := a.link.down + [f]));
    if f.Open? then With(b, f.sid, Known(b, f.sid)) else b
  }

  /** The receive loop of a server agent ends. */
  function Stopped(a: Agent): Agent {
    var b := a.(link := a.link.(agentLoop := false));
    if a.link.node.client then b else AllClosed(b)
  }

  /** The WebSocket is gone: it takes no more sends. */
  function Lost(a: Agent): Agent {
    a.(link := a.link.(agentUp := false))
  }

  /** The gateway has read the oldest frame. */
  function Fetched(a: Agent): Agent
    requires a.link.up != []
  {
    a.(link := a.link.(up := a.link.up[1..]))
  }

  // ---- these are the steps of the tunnel --------------------------------------------------------

  /** One connection of a state of the tunnel. */
  function AgentAt(s: State, c: Conn): Agent
    requires c in s.conns
  {
    Agent(s.conns[c], map e | e in s.ends && e.conn == c :: e.sid := s.ends[e])
  }

  lemma KnownAt(s: State, e: End)
    requires e.conn in s.conns
    ensures e.sid in AgentAt(s, e.conn).known <==> e in s.ends
    ensures e in s.ends ==> AgentAt(s, e.conn).known[e.sid] == s.ends[e]
  {
    if e.sid in AgentAt(s, e.conn).known {
      var d :| d in s.ends && d.conn == e.conn && d.sid == e.sid;
      assert d == e;
    }
  }

  /** Between the states only this connection's part differs. */
  ghost predicate Alone(s: State, t: State, c: Conn) {
    && t.bridges == s.bridges && t.registry == s.registry && t.conns.Keys == s.conns.Keys
    && (forall d :: d in s.conns && d != c ==> t.conns[d] == s.conns[d])
    && (forall e: End :: e.conn != c ==> (e in t.ends <==> e in s.ends) && (e in s.ends && e in t.ends ==> t.ends[e] == s.ends[e]))
  }

  /** Then every other connection's value is the same. */
  lemma OthersKeepTheirValue(s: State, t: State, c: Conn, d: Conn)
    requires Alone(s, t, c) && d in s.conns && d != c
    ensures AgentAt(t, d) == AgentAt(s, d)
  {
    var a, b := AgentAt(s, d).known, AgentAt(t, d).known;
    forall sid ensures sid in a <==> sid in b
      ensures sid in a ==> sid in b && a[sid] == b[sid]
    {
      KnownAt(s, End(d, sid));
      KnownAt(t, End(d, sid));
    }
  }

  lemma AloneThen(s: State, t: State, u: State, c: Conn)
    requires Alone(s, t, c) && Alone(t, u, c)
    ensures Alone(s, u, c)
  {
  }

  /** The step takes the state to one whose part at `c` is `b`, and leaves the rest. */
  ghost predicate StepsTo(s: State, t: State, c: Conn, b: Agent) {
    c in t.conns && AgentAt(t, c) == b && Alone(s, t, c)
  }

  lemma SetSessAt(s: State, e: End, v: Sess)
    requires e.conn in s.conns
    ensures StepsTo(s, SetSess(s, e, v), e.conn, With(AgentAt(s, e.conn), e.sid, v))
  {
    var t := SetSess(s, e, v);
    var a, b := AgentAt(s, e.conn).known[e.sid := v], AgentAt(t, e.conn).known;
    forall sid ensures sid in a <==> sid in b
      ensures sid in a ==> sid in b && a[sid] == b[sid]
    {
      KnownAt(s, End(e.conn, sid));
      KnownAt(t, End(e.conn, sid));
    }
    assert a == b;
  }

  lemma SetLinkAt(s: State, c: Conn, l: Link)
    requires c in s.conns
    ensures StepsTo(s, SetLink(s, c, l), c, AgentAt(s, c).(link := l))
  {
    var t := SetLink(s, c, l);
    assert AgentAt(t, c).known == AgentAt(s, c).known;
  }

  lemma SendUpAt(s: State, c: Conn, f: Frame)
    requires c in s.conns
    ensures StepsTo(s, SendUp(s, c, f), c, Sent(AgentAt(s, c), f))
  {
    if s.conns[c].agentUp {
      SetLinkAt(s, c, s.conns[c].(up := s.conns[c].up + [f]));
    }
  }

  /** A session set, and then a frame sent. */
  lemma SetAndSend(s: State, e: End, v: Sess, f: Frame)
    requires e.conn in s.conns
    ensures StepsTo(s, SendUp(SetSess(s, e, v), e.conn, f), e.conn, Sent(With(AgentAt(s, e.conn), e.sid, v), f))
  {
    SetSessAt(s, e, v);
    SendUpAt(SetSess(s, e, v), e.conn, f);
    AloneThen(s, SetSess(s, e, v), SendUp(SetSess(s, e, v), e.conn, f), e.conn);
  }

  /** close_session with notify is the tunnel's close. */
  lemma CloseIsAStep(s: State, e: End)
    requires e in s.ends && e.conn in s.conns
    ensures StepsTo(s, CloseAndNotify(s, e), e.conn, Closed(AgentAt(s, e.conn), e.sid, true))
  {
    KnownAt(s, e);
    var v := s.ends[e];
    var told := if s.conns[e.conn].agentUp then 1 else 0;
    SetAndSend(s, e, v.(writer := false, closes := v.closes + told), Close(e.sid));
  }

  /** Without notify it is what a session_close from the gateway does. */
  lemma ForgetIsAStep(s: State, e: End)
    requires e in s.ends && e.conn in s.conns
    ensures StepsTo(s, SetSess(s, e, s.ends[e].(writer := false)), e.conn, Closed(AgentAt(s, e.conn), e.sid, false))
  {
    KnownAt(s, e);
    SetSessAt(s, e, s.ends[e].(writer := false));
  }

  /** on_local is the tunnel's local open. */
  lemma OpenIsAStep(s: State, c: Conn, sid: Sid, route: string)
    requires c in s.conns
    ensures StepsTo(s, LocalOpenStep(s, c, sid, route), c, Opened(AgentAt(s, c), sid, route))
  {
    var up := s.conns[c].agentUp;
    SetAndSend(s, End(c, sid), FRESH.(started := true, writer := up, pump := up), Open(sid, route));
  }

  /** A session set, and then closed. */
  lemma SetAndClose(s: State, e: End, v: Sess)
    requires e in s.ends && e.conn in s.conns
    ensures StepsTo(s, CloseAndNotify(SetSess(s, e, v), e), e.conn, Closed(With(AgentAt(s, e.conn), e.sid, v), e.sid, true))
  {
    SetSessAt(s, e, v);
    CloseIsAStep(SetSess(s, e, v), e);
    AloneThen(s, SetSess(s, e, v), CloseAndNotify(SetSess(s, e, v), e), e.conn);
  }

  /** A round of the pump is one step of the tunnel. */
  lemma PumpIsAStep(s: State, e: End, data: Option<Bytes>)
    requires e in s.ends && e.conn in s.conns
    ensures e.sid in AgentAt(s, e.conn).known
    ensures StepsTo(s, if data.Some? then PumpDataStep(s, e, data.value) else PumpEofStep(s, e), e.conn,
                    Pumped(AgentAt(s, e.conn), e.sid, data))
  {
    KnownAt(s, e);
    var v := s.ends[e];
    if data.Some? && s.conns[e.conn].agentUp {
      SetAndSend(s, e, v.(sent := v.sent + data.value), Data(e.sid, data.value));
    } else {
      PumpEndIsAStep(s, e, data);
    }
  }

  lemma PumpEndIsAStep(s: State, e: End, data: Option<Bytes>)
    requires e in s.ends && e.conn in s.conns && (data.Some? ==> !s.conns[e.conn].agentUp)
    ensures e.sid in AgentAt(s, e.conn).known
    ensures StepsTo(s, if data.Some? then PumpDataStep(s, e, data.value) else PumpEofStep(s, e), e.conn,
                    Pumped(AgentAt(s, e.conn), e.sid, data))
  {
    KnownAt(s, e);
    var v := s.ends[e];
    var w := v.(pump := false, sent := v.sent + data.GetOr([]));
    if data.Some? {
      SetSessAt(s, e, w.(writer := false));
      assert AgentAt(s, e.conn).known[e.sid := w][e.sid := w.(writer := false)] == AgentAt(s, e.conn).known[e.sid := w.(writer := false)];
    } else {
      assert v.sent + [] == v.sent;
      SetAndClose(s, e, w);
    }
  }

  /** on_session_data, at an end there is. */
  lemma DeliveryIsAStep(s: State, e: End, bytes: Bytes, outcome: Outcome)
    requires e in s.ends && e.conn in s.conns
    ensures StepsTo(s, Deliver(s, e, bytes, outcome), e.conn, Taken(AgentAt(s, e.conn), e.sid, bytes, outcome))
  {
    KnownAt(s, e);
    var v := s.ends[e];
    if v.writer {
      var got := if outcome.Fine? || outcome.wrote then v.delivered + bytes else v.delivered;
      if outcome.Fine? {
        SetSessAt(s, e, v.(delivered := got));
      } else {
        SetAndClose(s, e, v.(delivered := got));
      }
    }
  }

  lemma ReachIsAStep(s: State, e: End, outcome: Outcome)
    requires e in s.ends && e.conn in s.conns
    ensures StepsTo(s, OpenTarget(s, e, outcome), e.conn, Reached(AgentAt(s, e.conn), e.sid, outcome))
  {
    KnownAt(s, e);
    var v := s.ends[e].(started := true);
    if outcome.Fine? {
      SetSessAt(s, e, v.(writer := true, pump := true));
    } else {
      SetAndClose(s, e, v);
    }
  }

  lemma PopDownAt(s: State, c: Conn)
    requires c in s.conns && s.conns[c].down != []
    ensures StepsTo(s, PopDown(s, c), c, AgentAt(s, c).(link := s.conns[c].(down := s.conns[c].down[1..])))
  {
    SetLinkAt(s, c, s.conns[c].(down := s.conns[c].down[1..]));
  }

  lemma UnknownFrame(s: State, c: Conn, outcome: Outcome)
    requires c in s.conns && s.conns[c].down != [] && End(c, s.conns[c].down[0].sid) !in s.ends && !s.conns[c].down[0].Open?
    ensures StepsTo(s, AgentRecvStep(s, c, outcome), c, Received(AgentAt(s, c), outcome))
  {
    PopDownAt(s, c);
    KnownAt(s, End(c, s.conns[c].down[0].sid));
  }

  lemma KnownFrame(p: State, c: Conn, f: Frame, outcome: Outcome)
    requires c in p.conns && End(c, f.sid) in p.ends
    ensures f.Open? ==> StepsTo(p, OpenTarget(p, End(c, f.sid), outcome), c, Reached(AgentAt(p, c), f.sid, outcome))
    ensures f.Data? ==> StepsTo(p, Deliver(p, End(c, f.sid), f.bytes, outcome), c, Taken(AgentAt(p, c), f.sid, f.bytes, outcome))
    ensures f.Close? ==>
      StepsTo(p, SetSess(p, End(c, f.sid), p.ends[End(c, f.sid)].(writer := false)), c, Closed(AgentAt(p, c), f.sid, false))
  {
    var e := End(c, f.sid);
    ReachIsAStep(p, e, outcome);
    if f.Data? {
      DeliveryIsAStep(p, e, f.bytes, outcome);
    }
    ForgetIsAStep(p, e);
  }

  /** A frame of the receive loops is the tunnel's step. A session_open is only ever for a session that the
      gateway has made, as TunnelInvariant's Frames says; other frames may be of unknown sessions. */
  lemma ReceiveIsAStep(s: State, c: Conn, outcome: Outcome)
    requires c in s.conns && s.conns[c].down != []
    requires s.conns[c].down[0].Open? ==> End(c, s.conns[c].down[0].sid) in s.ends
    ensures StepsTo(s, AgentRecvStep(s, c, outcome), c, Received(AgentAt(s, c), outcome))
  {
    var f := s.conns[c].down[0];
    var p := PopDown(s, c);
    PopDownAt(s, c);
    if End(c, f.sid) in s.ends {
      KnownFrame(p, c, f, outcome);
      AloneThen(s, p, AgentRecvStep(s, c, outcome), c);
    } else {
      UnknownFrame(s, c, outcome);
    }
  }

  /** close_all is the tunnel's. */
  lemma CloseAllIsAStep(s: State, c: Conn)
    requires c in s.conns
    ensures StepsTo(s, CloseAll(s, c), c, AllClosed(AgentAt(s, c)))
  {
    var t := CloseAll(s, c);
    var a, b := AllClosed(AgentAt(s, c)).known, AgentAt(t, c).known;
    forall sid ensures sid in a <==> sid in b
      ensures sid in a ==> sid in b && a[sid] == b[sid]
    {
      KnownAt(s, End(c, sid));
      KnownAt(t, End(c, sid));
    }
    assert a == b;
  }

  /** The end of a receive loop is the tunnel's. */
  lemma EndIsAStep(s: State, c: Conn)
    requires c in s.conns
    ensures StepsTo(s, AgentEndStep(s, c), c, Stopped(AgentAt(s, c)))
  {
    var t := SetLink(s, c, s.conns[c].(agentLoop := false));
    SetLinkAt(s, c, s.conns[c].(agentLoop := false));
    if !s.conns[c].node.client {
      CloseAllIsAStep(t, c);
      AloneThen(s, t, CloseAll(t, c), c);
    }
  }

  /** A frame arrives when the gateway sends it; its session_open is for a session it has made. */
  lemma ArrivalIsASend(s: State, c: Conn, f: Frame)
    requires c in s.conns && s.conns[c].gwUp && (f.Open? ==> End(c, f.sid) in s.ends)
    ensures StepsTo(s, SendDown(s, c, f), c, Arrived(AgentAt(s, c), f))
  {
    SetLinkAt(s, c, s.conns[c].(down := s.conns[c].down + [f]));
    KnownAt(s, End(c, f.sid));
    if f.Open? {
      assert AgentAt(s, c).known[f.sid := AgentAt(s, c).known[f.sid]] == AgentAt(s, c).known;
    }
  }

  // ---- the object ---------------------------------------------------------------------------------

  /** The writing side of a local TCP socket. */
  class Writer {
    ghost const sid: Sid         // the session it was opened for
    var written: Bytes
    var closed: bool

    constructor (ghost sid: Sid)
      ensures this.sid == sid && written == [] && !closed
    {
      this.sid := sid;
      written, closed := [], false;
    }
  }

  function Read(a: Agent, sid: Sid, bytes: Bytes): Agent
    requires sid in a.known
  {
    With(a, sid, a.known[sid].(sent := a.known[sid].sent + bytes))
  }

  function PumpEnded(a: Agent, sid: Sid): Agent
    requires sid in a.known
  {
    Closed(With(a, sid, a.known[sid].(pump := false)), sid, true)
  }

  lemma PumpedInParts(a: Agent, sid: Sid, data: Option<Bytes>)
    requires sid in a.known
    ensures Pumped(a, sid, data) ==
      if data.None? then PumpEnded(a, sid)
      else if a.link.agentUp then Sent(Read(a, sid, data.value), Data(sid, data.value))
      else PumpEnded(Read(a, sid, data.value), sid)
  {
    var v := a.known[sid];
    if data.None? {
      assert v.sent + [] == v.sent;
    } else {
      var w := v.(sent := v.sent + data.value);
      assert a.known[sid := w][sid := w.(pump := false)] == a.known[sid := w.(pump := false)];
    }
  }

  function Wrote(a: Agent, sid: Sid, bytes: Bytes): Agent
    requires sid in a.known
  {
    With(a, sid, a.known[sid].(delivered := a.known[sid].delivered + bytes))
  }

  lemma WrittenIsTaken(a: Agent, sid: Sid, bytes: Bytes, outcome: Outcome)
    requires sid in a.known && a.known[sid].writer
    ensures var b := if outcome.Fine? || outcome.wrote then Wrote(a, sid, bytes) else a;
      Taken(a, sid, bytes, outcome) == if outcome.Fine? then b else Closed(b, sid, true)
  {
    assert a.known[sid := a.known[sid]] == a.known;
  }

  const OPENED := FRESH.(started := true, writer := true, pump := true)

  lemma OpenedWhenUp(a: Agent, sid: Sid, route: string)
    ensures a.link.agentUp ==> Opened(a, sid, route) == Sent(With(a, sid, OPENED), Open(sid, route))
  {
  }

  lemma OpenedWhenDown(a: Agent, sid: Sid, route: string)
    requires !a.link.agentUp
    ensures Opened(a, sid, route) == Forgotten(With(With(a, sid, OPENED), sid, OPENED.(pump := false)), sid, false)
  {
    assert a.known[sid := OPENED][sid := OPENED.(pump := false)][sid := FRESH.(started := true)]
        == a.known[sid := FRESH.(started := true)];
  }

  lemma PutAndTaken(writers: map<Sid, Writer>, sid: Sid, w: Writer)
    requires sid !in writers
    ensures writers[sid := w] - {sid} == writers
  {
  }

  class AgentConn {
    const client: bool
    var sessions: map<Sid, Writer>
    var up: bool                 // the WebSocket takes sends
    var wire: seq<Frame>         // sent, and not yet read by the gateway
    var inbox: seq<Frame>        // arrived, and not yet handled
    ghost var value: Agent

    ghost function Writers(): set<Writer>
      reads this
    {
      set sid | sid in sessions :: sessions[sid]
    }

    /** The map holds the open writers, each with the bytes delivered to it. */
    ghost predicate Valid()
      reads this, Writers()
    {
      && client == value.link.node.client && up == value.link.agentUp
      && wire == value.link.up && inbox == value.link.down
      && (forall sid :: sid in sessions ==> Holds(sid, sessions[sid]))
      && (forall sid :: sid in value.known && value.known[sid].writer ==> sid in sessions)
    }

    ghost predicate Holds(sid: Sid, w: Writer)
      reads this, w
    {
      w.sid == sid && sid in value.known && value.known[sid].writer && w.written == value.known[sid].delivered && !w.closed
    }

    constructor (node: Node)
      ensures Valid() && value == Agent(NewLink(node), map[])
    {
      client, sessions, up, wire, inbox := node.client, map[], true, [], [];
      value := Agent(NewLink(node), map[]);
    }

    /** send; false is the exception of a WebSocket that is gone. */
    method Send(f: Frame) returns (ok: bool)
      requires Valid()
      modifies this`wire, this`value
      ensures Valid() && ok == up && value == Sent(old(value), f)
      ensures wire == if up then old(wire) + [f] else old(wire)
    {
      ok := up;
      value := Sent(value, f);
      if up {
        wire := wire + [f];
      }
    }

    /** A session's writer, if it has one, leaves the map and is closed. */
    method Forget(sid: Sid, ghost telling: bool)
      requires Valid()
      modifies this`sessions, this`value, if sid in sessions then {sessions[sid]} else {}
      ensures Valid() && value == Forgotten(old(value), sid, telling) && sessions == old(sessions) - {sid}
      ensures sid in old(sessions) ==> old(sessions)[sid].closed && old(sessions)[sid].written == old(sessions[sid].written)
    {
      value := Forgotten(value, sid, telling);
      if sid in sessions {
        var w := sessions[sid];
        sessions := sessions - {sid};
        w.closed := true;
      }
    }

    /** close_session */
    method CloseSession(sid: Sid, notify: bool)
      requires Valid()
      modifies this`sessions, this`wire, this`value, Writers()
      ensures Valid() && value == Closed(old(value), sid, notify)
      ensures sessions == old(sessions) - {sid}
      ensures sid in old(sessions) ==> old(sessions)[sid].closed && old(sessions)[sid].written == old(sessions[sid].written)
    {
      Forget(sid, notify);
      if notify {
        var _ := Send(Close(sid));
      }
    }

    /** sessions[sid] = writer, for a session without one. */
    method Enter(sid: Sid, ghost v: Sess) returns (writer: Writer)
      requires Valid() && sid !in sessions && v.writer && v.delivered == []
      modifies this`sessions, this`value
      ensures Valid() && value == With(old(value), sid, v)
      ensures fresh(writer) && !writer.closed && writer.written == [] && sessions == old(sessions)[sid := writer]
    {
      writer := new Writer(sid);
      sessions := sessions[sid := writer];
      value := With(value, sid, v);
    }

    /** on_local's handler of a failed send; `before` is the connection as it was without the session. */
    method GiveUp(sid: Sid, ghost before: Agent, ghost route: string)
      requires Valid() && sid in sessions && value == With(before, sid, OPENED) && !before.link.agentUp
      modifies this`sessions, this`value, sessions[sid]
      ensures Valid() && sessions == old(sessions) - {sid} && old(sessions)[sid].closed
      ensures value == Opened(before, sid, route)
    {
      OpenedWhenDown(before, sid, route);
      value := With(value, sid, OPENED.(pump := false));
      Forget(sid, false);
    }

    /** serve_local's on_local, as far as its pump. */
    method OnLocal(sid: Sid, route: string) returns (writer: Writer, pumping: bool)
      requires Valid() && sid !in sessions
      modifies this`sessions, this`wire, this`value
      ensures Valid() && value == Opened(old(value), sid, route)
      ensures pumping == up && writer.closed == !pumping && fresh(writer)
      ensures sessions == if pumping then old(sessions)[sid := writer] else old(sessions)
    {
      ghost var before, writers := value, sessions;
      OpenedWhenUp(before, sid, route);
      writer := Enter(sid, OPENED);
      PutAndTaken(writers, sid, writer);
      pumping := Send(Open(sid, route));
      if !pumping {
        GiveUp(sid, before, route);
      }
    }

    /** One round of pump_tcp_to_ws: what the local socket gave, or nothing for its end or an exception. */
    method PumpRound(sid: Sid, data: Option<Bytes>) returns (pumping: bool)
      requires Valid() && sid in value.known
      modifies this`sessions, this`wire, this`value, Writers()
      ensures Valid() && value == Pumped(old(value), sid, data)
      ensures pumping == (data.Some? && up)
      ensures sessions == if pumping then old(sessions) else old(sessions) - {sid}
    {
      ghost var before := value;
      pumping := false;
      if data.Some? {
        value := Read(value, sid, data.value);
        pumping := Send(Data(sid, data.value));
      }
      if !pumping {
        EndPump(sid);
      }
      PumpedInParts(before, sid, data);
    }

    /** The pump's finally. */
    method EndPump(sid: Sid)
      requires Valid() && sid in value.known
      modifies this`sessions, this`wire, this`value, Writers()
      ensures Valid() && value == PumpEnded(old(value), sid) && sessions == old(sessions) - {sid}
    {
      value := With(value, sid, value.known[sid].(pump := false));
      CloseSession(sid, true);
    }

    /** on_session_data; the outcome says how write and drain go. */
    method OnSessionData(sid: Sid, bytes: Bytes, outcome: Outcome)
      requires Valid()
      modifies this`sessions, this`wire, this`value, Writers()
      ensures Valid() && value == Taken(old(value), sid, bytes, outcome)
      ensures sessions == old(sessions) || sessions == old(sessions) - {sid}
    {
      if sid in sessions {
        assert Holds(sid, sessions[sid]);
        WrittenIsTaken(value, sid, bytes, outcome);
        if outcome.Fine? || outcome.wrote {
          Write(sid, bytes);
        }
        if outcome.Fails? {
          CloseSession(sid, true);
        }
      }
    }

    /** writer.write and drain. */
    method Write(sid: Sid, bytes: Bytes)
      requires Valid() && sid in sessions
      modifies this`value, sessions[sid]
      ensures Valid() && sid in old(value).known && value == Wrote(old(value), sid, bytes)
    {
      var w := sessions[sid];
      assert Holds(sid, w);
      w.written := w.written + bytes;
      value := Wrote(value, sid, bytes);
    }

    /** _open_target: connect to the target, and if that works start a pump. The id is a new one. */
    method OpenTarget(sid: Sid, outcome: Outcome)
      requires Valid() && sid !in sessions && Known(value, sid).delivered == []
      modifies this`sessions, this`wire, this`value, Writers()
      ensures Valid() && value == Reached(old(value), sid, outcome)
      ensures fresh(Writers() - old(Writers()))
    {
      ghost var v := Known(value, sid).(started := true);
      if outcome.Fails? {
        value := With(value, sid, v);
        CloseSession(sid, true);
      } else {
        var _ := Enter(sid, v.(writer := true, pump := true));
      }
    }

    /** A frame from the gateway arrives, of a session that it knows or not. */
    method Arrive(f: Frame)
      requires Valid()
      modifies this`inbox, this`value
      ensures Valid() && value == Arrived(old(value), f) && inbox == old(inbox) + [f]
    {
      inbox := inbox + [f];
      value := Arrived(value, f);
    }

    /** One frame of the receive loops (_recv_loop for a client, _connect_once for a server). The id of a
        session_open is a new one; other frames may have any id. */
    method Receive(outcome: Outcome)
      requires Valid() && inbox != []
      requires inbox[0].Open? ==> inbox[0].sid !in sessions && Known(value, inbox[0].sid).delivered == []
      modifies this`sessions, this`wire, this`inbox, this`value, Writers()
      ensures Valid() && value == Received(old(value), outcome) && inbox == old(inbox)[1..]
      ensures fresh(Writers() - old(Writers()))
    {
      var f := inbox[0];
      inbox := inbox[1..];
      value := value.(link := value.link.(down := value.link.down[1..]));
      match f
      case Open(sid, _) =>
        if !client {
          OpenTarget(sid, outcome);
        }
      case Data(sid, bytes) => OnSessionData(sid, bytes, outcome);
      case Close(sid) => CloseSession(sid, false);
    }

    /** close_all: over a copy of the keys, since the loop removes them. */
    method CloseAllSessions()
      requires Valid()
      modifies this`sessions, this`wire, this`value, Writers()
      ensures Valid() && value == AllClosed(old(value)) && sessions == map[]
    {
      ghost var start := value;
      var keys := sessions.Keys;
      while keys != {}
        invariant Valid() && keys == sessions.Keys && Writers() <= old(Writers())
        invariant AllClosed(value) == AllClosed(start)
        decreases |keys|
      {
        var sid :| sid in keys;
        CloseKeepsAllClosed(value, sid);
        CloseSession(sid, false);
        keys := keys - {sid};
      }
      NothingIsOpen(value);
    }

    /** The receive loop ends; a server agent then runs close_all. */
    method Stop()
      requires Valid()
      modifies this`sessions, this`wire, this`value, Writers()
      ensures Valid() && value == Stopped(old(value)) && sessions == if client then old(sessions) else map[]
    {
      value := value.(link := value.link.(agentLoop := false));
      if !client {
        CloseAllSessions();
      }
    }

    /** The WebSocket closes. */
    method Lose()
      requires Valid()
      modifies this`up, this`value
      ensures Valid() && !up && value == Lost(old(value))
    {
      up := false;
      value := Lost(value);
    }

    /** The gateway reads the oldest frame. */
    method Fetch() returns (f: Frame)
      requires Valid() && wire != []
      modifies this`wire, this`value
      ensures Valid() && [f] + wire == old(wire) && value == Fetched(old(value))
    {
      f, wire := wire[0], wire[1..];
      value := Fetched(value);
    }
  }

  lemma NothingIsOpen(a: Agent)
    requires forall sid :: sid in a.known ==> !a.known[sid].writer
    ensures AllClosed(a) == a
  {
    assert AllClosed(a).known == a.known;
  }

  lemma CloseKeepsAllClosed(a: Agent, sid: Sid)
    requires sid in a.known
    ensures AllClosed(Closed(a, sid, false)) == AllClosed(a)
  {
    assert AllClosed(Closed(a, sid, false)).known == AllClosed(a).known;
  }
}
