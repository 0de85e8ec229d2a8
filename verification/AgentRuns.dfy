/** One agent's connection over whole runs of the tunnel: what a run means to it is a sequence of calls to
    the connection object of AgentSessions, with the frames that arrive in between. Whatever all the others
    do, carrying out these calls leaves the object with what the tunnel's state says of the connection. */
module AgentRuns {
  import opened Common
  import Policy
  import opened Tunnel
  import opened TunnelInvariant
  import opened TunnelRuns
  import opened TunnelPairing
  import opened AgentSessions

  /** The methods of the object that tasks call, and what happens at the other end of its WebSocket. */
  datatype Call =
    | OnLocal(sid: Sid, route: string)
    | PumpRound(sid: Sid, data: Option<Bytes>)
    | Receive(outcome: Outcome)
    | Stop
    | Lose
    | Fetch
    | Arrive(frame: Frame)

  /** When a call can be made: the id of a new session is a new one, a pump runs, there is a frame to read. */
  predicate Fits(a: Agent, call: Call) {
    match call
    case OnLocal(sid, _) => !Known(a, sid).writer
    case PumpRound(sid, _) => Known(a, sid).pump
    case Receive(_) =>
      && a.link.down != []
      && (a.link.down[0].Open? ==> var v := Known(a, a.link.down[0].sid); !v.writer && v.delivered == [])
    case Fetch => a.link.up != []
    case _ => true
  }

  function Acted(a: Agent, call: Call): Agent
    requires Fits(a, call)
  {
    match call
    case OnLocal(sid, route) => Opened(a, sid, route)
    case PumpRound(sid, data) => Pumped(a, sid, data)
    case Receive(outcome) => Received(a, outcome)
    case Stop => Stopped(a)
    case Lose => Lost(a)
    case Fetch => Fetched(a)
    case Arrive(f) => Arrived(a, f)
  }

  ghost predicate FitsAll(a: Agent, calls: seq<Call>)
    decreases |calls|
  {
    calls == [] || (Fits(a, calls[0]) && FitsAll(Acted(a, calls[0]), calls[1..]))
  }

  ghost function ActedAll(a: Agent, calls: seq<Call>): Agent
    requires FitsAll(a, calls)
    decreases |calls|
  {
    if calls == [] then a else ActedAll(Acted(a, calls[0]), calls[1..])
  }

  // ---- what the agent can see ------------------------------------------------------------------------

  /** An end without what only the gateway knows of it. */
  function Own(v: Sess): Sess {
    v.(relayed := [], peer := None, orphan := false, told := 0)
  }

  ghost predicate SameWire(l: Link, m: Link) {
    l.node == m.node && l.up == m.up && l.down == m.down && l.agentUp == m.agentUp && l.agentLoop == m.agentLoop
  }

  /** The agent cannot tell them apart. */
  ghost predicate Alike(a: Agent, b: Agent) {
    SameWire(a.link, b.link) && forall sid :: Own(Known(a, sid)) == Own(Known(b, sid))
  }

  lemma AlikeTransitive(a: Agent, b: Agent, c: Agent)
    requires Alike(a, b) && Alike(b, c)
    ensures Alike(a, c)
  {
    forall sid ensures Own(Known(a, sid)) == Own(Known(c, sid)) {
      assert Own(Known(a, sid)) == Own(Known(b, sid));
    }
  }

  lemma WithAlike(a: Agent, b: Agent, sid: Sid, v: Sess, w: Sess)
    requires Alike(a, b) && Own(v) == Own(w)
    ensures Alike(With(a, sid, v), With(b, sid, w))
  {
    forall x ensures Own(Known(With(a, sid, v), x)) == Own(Known(With(b, sid, w), x)) {
      assert Own(Known(a, x)) == Own(Known(b, x));
    }
  }

  lemma LinkAlike(a: Agent, b: Agent, l: Link, m: Link)
    requires Alike(a, b) && SameWire(l, m)
    ensures Alike(a.(link := l), b.(link := m))
  {
    forall x ensures Own(Known(a.(link := l), x)) == Own(Known(b.(link := m), x)) {
      assert Own(Known(a, x)) == Own(Known(b, x));
    }
  }

  lemma SentAlike(a: Agent, b: Agent, f: Frame)
    requires Alike(a, b)
    ensures Alike(Sent(a, f), Sent(b, f))
  {
    LinkAlike(a, b, a.link.(up := a.link.up + [f]), b.link.(up := b.link.up + [f]));
  }

  /** What forgetting a writer leaves known of a session; an unknown one has no writer to forget. */
  lemma ForgottenAt(a: Agent, sid: Sid, telling: bool, x: Sid)
    requires telling ==> sid in a.known
    ensures var v := Own(Known(a, x));
      Own(Known(Forgotten(a, sid, telling), x))
      == if x == sid then v.(writer := false, closes := v.closes + if telling && a.link.agentUp then 1 else 0) else v
  {
  }

  lemma ForgottenAlike(a: Agent, b: Agent, sid: Sid, telling: bool)
    requires Alike(a, b) && (telling ==> sid in a.known && sid in b.known)
    ensures Alike(Forgotten(a, sid, telling), Forgotten(b, sid, telling))
  {
    forall x ensures Own(Known(Forgotten(a, sid, telling), x)) == Own(Known(Forgotten(b, sid, telling), x)) {
      ForgottenAt(a, sid, telling, x);
      ForgottenAt(b, sid, telling, x);
      assert Own(Known(a, x)) == Own(Known(b, x));
    }
  }

  lemma ClosedAlike(a: Agent, b: Agent, sid: Sid, notify: bool)
    requires Alike(a, b) && (notify ==> sid in a.known && sid in b.known)
    ensures Alike(Closed(a, sid, notify), Closed(b, sid, notify))
  {
    ForgottenAlike(a, b, sid, notify);
    if notify {
      SentAlike(Forgotten(a, sid, true), Forgotten(b, sid, true), Close(sid));
    }
  }

  lemma OpenedAlike(a: Agent, b: Agent, sid: Sid, route: string)
    requires Alike(a, b)
    ensures Alike(Opened(a, sid, route), Opened(b, sid, route))
  {
    var up := a.link.agentUp;
    var v := FRESH.(started := true, writer := up, pump := up);
    WithAlike(a, b, sid, v, v);
    SentAlike(With(a, sid, v), With(b, sid, v), Open(sid, route));
  }

  lemma PumpedAlike(a: Agent, b: Agent, sid: Sid, data: Option<Bytes>)
    requires Alike(a, b) && sid in a.known && sid in b.known
    ensures Alike(Pumped(a, sid, data), Pumped(b, sid, data))
  {
    var v, w := a.known[sid], b.known[sid];
    assert Own(Known(a, sid)) == Own(Known(b, sid));
    var read := data.GetOr([]);
    if data.Some? && a.link.agentUp {
      WithAlike(a, b, sid, v.(sent := v.sent + read), w.(sent := w.sent + read));
      SentAlike(With(a, sid, v.(sent := v.sent + read)), With(b, sid, w.(sent := w.sent + read)), Data(sid, read));
    } else {
      var v', w' := v.(pump := false, sent := v.sent + read), w.(pump := false, sent := w.sent + read);
      WithAlike(a, b, sid, v', w');
      ClosedAlike(With(a, sid, v'), With(b, sid, w'), sid, true);
    }
  }

  lemma TakenAlike(a: Agent, b: Agent, sid: Sid, bytes: Bytes, outcome: Outcome)
    requires Alike(a, b)
    ensures Alike(Taken(a, sid, bytes, outcome), Taken(b, sid, bytes, outcome))
  {
    var v, w := Known(a, sid), Known(b, sid);
    assert Own(v) == Own(w);
    if v.writer {
      var got := if outcome.Fine? || outcome.wrote then v.delivered + bytes else v.delivered;
      WithAlike(a, b, sid, v.(delivered := got), w.(delivered := got));
      ClosedAlike(With(a, sid, v.(delivered := got)), With(b, sid, w.(delivered := got)), sid, true);
    }
  }

  lemma ReachedAlike(a: Agent, b: Agent, sid: Sid, outcome: Outcome)
    requires Alike(a, b)
    ensures Alike(Reached(a, sid, outcome), Reached(b, sid, outcome))
  {
    var v, w := Known(a, sid).(started := true), Known(b, sid).(started := true);
    assert Own(Known(a, sid)) == Own(Known(b, sid));
    WithAlike(a, b, sid, v.(writer := true, pump := true), w.(writer := true, pump := true));
    WithAlike(a, b, sid, v, w);
    ClosedAlike(With(a, sid, v), With(b, sid, w), sid, true);
  }

  lemma AllClosedAlike(a: Agent, b: Agent)
    requires Alike(a, b)
    ensures Alike(AllClosed(a), AllClosed(b))
  {
    forall x ensures Own(Known(AllClosed(a), x)) == Own(Known(AllClosed(b), x)) {
      assert Own(Known(a, x)) == Own(Known(b, x));
    }
  }

  lemma ReceivedAlike(a: Agent, b: Agent, outcome: Outcome)
    requires Alike(a, b) && a.link.down != []
    ensures b.link.down != [] && Alike(Received(a, outcome), Received(b, outcome))
  {
    var l, m := a.link.(down := a.link.down[1..]), b.link.(down := b.link.down[1..]);
    LinkAlike(a, b, l, m);
    var p, q := a.(link := l), b.(link := m);
    match a.link.down[0]
    case Open(sid, _) => ReachedAlike(p, q, sid, outcome);
    case Data(sid, bytes) => TakenAlike(p, q, sid, bytes, outcome);
    case Close(sid) => ClosedAlike(p, q, sid, false);
  }

  lemma ArrivedAlike(a: Agent, b: Agent, f: Frame)
    requires Alike(a, b)
    ensures Alike(Arrived(a, f), Arrived(b, f))
  {
    var l, m := a.link.(down := a.link.down + [f]), b.link.(down := b.link.down + [f]);
    LinkAlike(a, b, l, m);
    assert Own(Known(a, f.sid)) == Own(Known(b, f.sid));
    WithAlike(a.(link := l), b.(link := m), f.sid, Known(a, f.sid), Known(b, f.sid));
  }

  lemma EndedAlike(a: Agent, b: Agent)
    requires Alike(a, b)
    ensures Alike(Stopped(a), Stopped(b))
  {
    var l, m := a.link.(agentLoop := false), b.link.(agentLoop := false);
    LinkAlike(a, b, l, m);
    AllClosedAlike(a.(link := l), b.(link := m));
  }

  /** What a call does depends on nothing that the agent cannot see. */
  lemma ActedAlike(a: Agent, b: Agent, call: Call)
    requires Alike(a, b) && Fits(a, call)
    ensures Fits(b, call) && Alike(Acted(a, call), Acted(b, call))
  {
    match call
    case OnLocal(sid, route) =>
      assert Own(Known(a, sid)) == Own(Known(b, sid));
      OpenedAlike(a, b, sid, route);
    case PumpRound(sid, data) =>
      assert Own(Known(a, sid)) == Own(Known(b, sid));
      PumpedAlike(a, b, sid, data);
    case Receive(outcome) =>
      assert Own(Known(a, a.link.down[0].sid)) == Own(Known(b, a.link.down[0].sid));
      ReceivedAlike(a, b, outcome);
    case Stop => EndedAlike(a, b);
    case Lose => LinkAlike(a, b, a.link.(agentUp := false), b.link.(agentUp := false));
    case Fetch => LinkAlike(a, b, a.link.(up := a.link.up[1..]), b.link.(up := b.link.up[1..]));
    case Arrive(f) => ArrivedAlike(a, b, f);
  }

  lemma {:induction false} ActedAllAlike(a: Agent, b: Agent, calls: seq<Call>)
    requires Alike(a, b) && FitsAll(a, calls)
    ensures FitsAll(b, calls) && Alike(ActedAll(a, calls), ActedAll(b, calls))
    decreases |calls|
  {
    if calls != [] {
      ActedAlike(a, b, calls[0]);
      ActedAllAlike(Acted(a, calls[0]), Acted(b, calls[0]), calls[1..]);
    }
  }

  // ---- whose step it is ----------------------------------------------------------------------------

  predicate OfAgent(ev: Event) {
    ev.LocalOpen? || ev.PumpData? || ev.PumpEof? || ev.AgentRecv? || ev.AgentDown? || ev.AgentEnd?
  }

  /** The connection at which an agent's step happens. */
  function AgentOf(ev: Event): Conn
    requires OfAgent(ev)
  {
    match ev
    case PumpData(e, _) => e.conn
    case PumpEof(e) => e.conn
    case LocalOpen(c, _, _) => c
    case AgentRecv(c, _) => c
    case AgentDown(c) => c
    case AgentEnd(c) => c
  }

  function CallOf(ev: Event): Call
    requires OfAgent(ev)
  {
    match ev
    case PumpData(e, bytes) => PumpRound(e.sid, Some(bytes))
    case PumpEof(e) => PumpRound(e.sid, None)
    case LocalOpen(_, sid, route) => OnLocal(sid, route)
    case AgentRecv(_, outcome) => Receive(outcome)
    case AgentDown(_) => Lose
    case AgentEnd(_) => Stop
  }

  // ---- what a gateway task does to a connection ------------------------------------------------------

  function Of(s: State, e: End): Sess {
    if e in s.ends then s.ends[e] else FRESH
  }

  /** At most `n` frames have come to the agent; the rest of what it can see is as it was. */
  ghost predicate Moves(s: State, t: State, n: nat) {
    && t.conns.Keys == s.conns.Keys
    && (forall c :: c in s.conns ==> LinkMoves(s.conns[c], t.conns[c], n))
    && (forall e :: Own(Of(s, e)) == Own(Of(t, e)))
  }

  ghost predicate LinkMoves(l: Link, m: Link, n: nat) {
    && SameWire(l, m.(down := l.down))
    && l.down <= m.down && |m.down| <= |l.down| + n
  }

  lemma MovesThen(s: State, t: State, u: State, m: nat, n: nat)
    requires Moves(s, t, m) && Moves(t, u, n)
    ensures Moves(s, u, m + n)
  {
    forall c | c in s.conns ensures LinkMoves(s.conns[c], u.conns[c], m + n) {
      assert LinkMoves(s.conns[c], t.conns[c], m) && LinkMoves(t.conns[c], u.conns[c], n);
    }
    forall e ensures Own(Of(s, e)) == Own(Of(u, e)) {
      assert Own(Of(s, e)) == Own(Of(t, e));
    }
  }

  lemma SessMoves(s: State, e: End, v: Sess)
    requires Own(v) == Own(Of(s, e))
    ensures Moves(s, SetSess(s, e, v), 0)
  {
  }

  lemma DownMoves(s: State, c: Conn, f: Frame)
    requires c in s.conns
    ensures Moves(s, SendDown(s, c, f), 1)
  {
  }

  lemma TaskMoves(s: State, c: Conn, task: Task)
    requires c in s.conns
    ensures Moves(s, SetTask(s, c, task), 0)
  {
  }

  lemma TellSends(s: State, e: End) returns (u: State)
    requires e in s.ends && e.conn in s.conns
    ensures Moves(s, u, 0) && e.conn in u.conns && Tell(s, e) == SendDown(u, e.conn, Close(e.sid))
  {
    u := SetSess(s, e, s.ends[e].(told := s.ends[e].told + 1));
    SessMoves(s, e, s.ends[e].(told := s.ends[e].told + 1));
  }

  lemma TellMoves(s: State, e: End)
    requires e in s.ends && e.conn in s.conns
    ensures Moves(s, Tell(s, e), 1)
  {
    var u := TellSends(s, e);
    DownMoves(u, e.conn, Close(e.sid));
    MovesThen(s, u, SendDown(u, e.conn, Close(e.sid)), 0, 1);
  }

  lemma CutMoves(s: State, cut: set<End>)
    ensures Moves(s, s.(bridges := s.bridges - cut), 0)
  {
  }

  lemma UnbridgeMoves(s: State, e: End)
    requires e in s.bridges ==> s.bridges[e] in s.ends && s.bridges[e].conn in s.conns
    ensures Moves(s, Unbridge(s, e), 1)
  {
    if e in s.bridges {
      var p := s.bridges[e];
      var cut := s.(bridges := s.bridges - {e, p});
      CutMoves(s, {e, p});
      TellMoves(cut, p);
      MovesThen(s, cut, Tell(cut, p), 0, 1);
    }
  }

  lemma AbandonMoves(s: State, e: End)
    requires e in s.ends
    requires e in s.bridges ==> s.bridges[e] in s.ends && s.bridges[e].conn in s.conns
    ensures Moves(s, Abandon(s, e), 1)
  {
    if e in s.bridges {
      var cut := Unbridge(s, e);
      UnbridgeMoves(s, e);
      SessMoves(cut, e, cut.ends[e].(orphan := true));
      MovesThen(s, cut, Abandon(s, e), 1, 0);
    }
  }

  lemma RelayMoves(s: State, e: End, bytes: Bytes)
    requires e in s.ends
    requires e in s.bridges ==> s.bridges[e] in s.ends && s.bridges[e].conn in s.conns
    ensures Moves(s, Relay(s, e, bytes), 1)
  {
    if e in s.bridges {
      var p := s.bridges[e];
      var v := s.ends[e].(relayed := s.ends[e].relayed + bytes);
      AbandonMoves(s, e);
      SessMoves(s, e, v);
      DownMoves(SetSess(s, e, v), p.conn, Data(p.sid, bytes));
      MovesThen(s, SetSess(s, e, v), SendDown(SetSess(s, e, v), p.conn, Data(p.sid, bytes)), 0, 1);
    }
  }

  lemma RefuseMoves(s: State, e: End)
    requires e in s.ends && e.conn in s.conns
    ensures Moves(s, Refuse(s, e), 1)
  {
    TellMoves(s, e);
    TaskMoves(s, e.conn, Leaving);
  }

  lemma BridgeMoves(s: State, e: End, p: End)
    requires e in s.ends && p !in s.ends
    ensures Moves(s, Bridge(s, e, p), 0)
  {
    forall x ensures Own(Of(s, x)) == Own(Of(Bridge(s, e, p), x)) {
      assert x != e && x != p ==> Of(Bridge(s, e, p), x) == Of(s, x);
    }
  }

  lemma OpenMoves(cfg: Config, s: State, e: End, route: string, newSid: Sid, usage: Policy.Usage)
    requires e in s.ends && e.conn in s.conns && forall d :: End(d, newSid) !in s.ends
    ensures Moves(s, OpenRouted(cfg, s, e, route, newSid, usage), 1)
  {
    RefuseMoves(s, e);
    if Routable(s, route) {
      GrantMoves(s, e, End(s.registry[route], newSid));
    }
  }

  lemma GrantMoves(s: State, e: End, p: End)
    requires e in s.ends && e.conn in s.conns && p !in s.ends
    ensures Moves(s, SetTask(Bridge(s, e, p), e.conn, Opening(e.sid, p)), 0)
  {
    BridgeMoves(s, e, p);
    TaskMoves(Bridge(s, e, p), e.conn, Opening(e.sid, p));
    MovesThen(s, Bridge(s, e, p), SetTask(Bridge(s, e, p), e.conn, Opening(e.sid, p)), 0, 0);
  }

  lemma HeardMoves(cfg: Config, s: State, c: Conn, newSid: Sid, usage: Policy.Usage)
    requires Wired(s) && Enabled(s, GwRecv(c, newSid, usage))
    ensures Moves(PopUp(s, c), GwRecvStep(cfg, s, c, newSid, usage), 1)
  {
    var f := s.conns[c].up[0];
    var e := End(c, f.sid);
    var p := PopUp(s, c);
    PopUpWired(s, c);
    if e in s.ends {
      match f
      case Open(_, route) => OpenMoves(cfg, p, e, route, newSid, usage);
      case Data(_, bytes) => RelayMoves(p, e, bytes);
      case Close(_) => UnbridgeMoves(p, e);
    }
  }

  lemma AnnouncedMoves(s: State, c: Conn)
    requires Wired(s) && Enabled(s, GwOpenSend(c))
    ensures Moves(s, GwOpenSendStep(s, c), 1)
  {
    var Opening(sid, p) := s.conns[c].task;
    var t := SetTask(s, c, Serving);
    ServingWired(s, c);
    TaskMoves(s, c, Serving);
    if s.conns[p.conn].gwUp {
      AnnouncedSends(s, c);
      DownMoves(t, p.conn, Open(p.sid, ""));
      MovesThen(s, t, SendDown(t, p.conn, Open(p.sid, "")), 0, 1);
    } else {
      AbandonMoves(t, End(c, sid));
      MovesThen(s, t, Abandon(t, End(c, sid)), 0, 1);
    }
  }

  lemma AnnouncedSends(s: State, c: Conn)
    requires Wired(s) && Enabled(s, GwOpenSend(c)) && s.conns[s.conns[c].task.target.conn].gwUp
    ensures var p := s.conns[c].task.target;
      GwOpenSendStep(s, c) == SendDown(SetTask(s, c, Serving), p.conn, Open(p.sid, ""))
  {
  }

  lemma CleanedMoves(s: State, c: Conn)
    requires Wired(s) && Enabled(s, CleanOne(c))
    ensures Moves(s, CleanOneStep(s, c), 1)
  {
    var left := s.conns[c].task.left;
    var t := Unbridge(s, End(c, left[0]));
    UnbridgeMoves(s, End(c, left[0]));
    TaskMoves(t, c, Cleaning(left[1..]));
    MovesThen(s, t, SetTask(t, c, Cleaning(left[1..])), 1, 0);
  }

  lemma EndedMoves(s: State, c: Conn)
    requires c in s.conns
    ensures Moves(s, Unregister(SetTask(s, c, Ended), c), 0)
  {
    TaskMoves(s, c, Ended);
  }

  lemma GwDownMoves(s: State, c: Conn)
    requires c in s.conns
    ensures Moves(s, SetLink(s, c, s.conns[c].(gwUp := false)), 0)
  {
  }

  /** Another connection comes in. */
  lemma AcceptKeepsOthers(s: State, d: Conn, node: Node, c: Conn)
    requires d !in s.conns && c in s.conns
    ensures var t := SetLink(s, d, NewLink(node)).(registry := s.registry[node.id := d]);
      t.conns[c] == s.conns[c] && AgentAt(t, c) == AgentAt(s, c)
  {
  }

  lemma GatewayMoves(cfg: Config, s: State, ev: Event)
    requires Wired(s) && Enabled(s, ev) && !OfAgent(ev) && !ev.GwRecv? && !ev.Accept?
    ensures Moves(s, Step(cfg, s, ev), 1)
  {
    match ev
    case GwOpenSend(c) => AnnouncedMoves(s, c);
    case CleanOne(c) => CleanedMoves(s, c);
    case GwEnd(c, order) =>
      TaskMoves(s, c, Cleaning(order));
      EndedMoves(s, c);
    case CleanDone(c) => EndedMoves(s, c);
    case GwDown(c) => GwDownMoves(s, c);
  }

  // ---- a step of the tunnel as calls at one connection -------------------------------------------------

  function News(l: Link, m: Link): seq<Call> {
    if |l.down| < |m.down| then [Arrive(m.down[|l.down|])] else []
  }

  /** What the step is to connection `c`. */
  ghost function CallsOf(cfg: Config, s: State, ev: Event, c: Conn): seq<Call>
    requires Wired(s) && Enabled(s, ev) && c in s.conns
  {
    if OfAgent(ev) then if AgentOf(ev) == c then [CallOf(ev)] else []
    else if ev.GwRecv? && ev.c == c then [Fetch] + NewsOf(cfg, s, ev, c)
    else NewsOf(cfg, s, ev, c)
  }

  /** The frame that the step sends to connection `c`, if it does. */
  ghost function NewsOf(cfg: Config, s: State, ev: Event, c: Conn): seq<Call>
    requires Wired(s) && Enabled(s, ev) && c in s.conns
  {
    if c in Step(cfg, s, ev).conns then News(s.conns[c], Step(cfg, s, ev).conns[c]) else []
  }

  /** Carrying out the calls takes connection `c` from the one state's value to what the other says of it. */
  ghost predicate Explains(s: State, t: State, c: Conn, calls: seq<Call>)
    requires c in s.conns
  {
    && c in t.conns && FitsAll(AgentAt(s, c), calls)
    && Alike(AgentAt(t, c), ActedAll(AgentAt(s, c), calls))
  }

  lemma KnownIs(s: State, c: Conn, sid: Sid)
    requires c in s.conns
    ensures Known(AgentAt(s, c), sid) == Of(s, End(c, sid))
  {
    KnownAt(s, End(c, sid));
  }

  lemma OneCall(a: Agent, call: Call)
    requires Fits(a, call)
    ensures FitsAll(a, [call]) && ActedAll(a, [call]) == Acted(a, call)
  {
    assert FitsAll(Acted(a, call), [call][1..]);
  }

  lemma MovedKnows(s: State, t: State, c: Conn)
    requires Moves(s, t, 1) && c in s.conns && c in t.conns
    ensures forall sid :: Own(Known(AgentAt(s, c), sid)) == Own(Known(AgentAt(t, c), sid))
  {
    forall sid ensures Own(Known(AgentAt(s, c), sid)) == Own(Known(AgentAt(t, c), sid)) {
      KnownIs(s, c, sid);
      KnownIs(t, c, sid);
    }
  }

  lemma MovedByOne(l: Link, m: Link)
    requires LinkMoves(l, m, 1)
    ensures m.down == if |l.down| < |m.down| then l.down + [m.down[|l.down|]] else l.down
  {
  }

  /** At most one frame has come in. */
  lemma NewsIsAll(a: Agent, b: Agent)
    requires LinkMoves(a.link, b.link, 1) && forall sid :: Own(Known(a, sid)) == Own(Known(b, sid))
    ensures FitsAll(a, News(a.link, b.link)) && Alike(b, ActedAll(a, News(a.link, b.link)))
  {
    MovedByOne(a.link, b.link);
    if |a.link.down| < |b.link.down| {
      var f := b.link.down[|a.link.down|];
      OneCall(a, Arrive(f));
      ArrivedKnows(a, f);
    }
  }

  lemma MovedIsNews(s: State, t: State, c: Conn)
    requires Moves(s, t, 1) && c in s.conns
    ensures c in t.conns && Explains(s, t, c, News(s.conns[c], t.conns[c]))
  {
    MovedKnows(s, t, c);
    NewsIsAll(AgentAt(s, c), AgentAt(t, c));
  }

  lemma ArrivedKnows(a: Agent, f: Frame)
    ensures forall sid :: Known(Arrived(a, f), sid) == Known(a, sid)
  {
  }

  /** The gateway's receive loop takes a frame off the channel, and then does something. */
  lemma FetchedThen(s: State, t: State, c: Conn, news: seq<Call>)
    requires c in s.conns && s.conns[c].up != [] && Explains(PopUp(s, c), t, c, news)
    ensures Explains(s, t, c, [Fetch] + news)
  {
    assert AgentAt(PopUp(s, c), c) == Fetched(AgentAt(s, c)) by {
      SetLinkAt(s, c, s.conns[c].(up := s.conns[c].up[1..]));
    }
    assert ([Fetch] + news)[1..] == news;
  }

  lemma GatewayStepIsNews(cfg: Config, s: State, ev: Event, c: Conn)
    requires Wired(s) && Enabled(s, ev) && !OfAgent(ev) && c in s.conns
    ensures Explains(s, Step(cfg, s, ev), c, CallsOf(cfg, s, ev, c))
  {
    if ev.GwRecv? {
      HeardMoves(cfg, s, ev.c, ev.newSid, ev.usage);
      HeardIsNews(s, Step(cfg, s, ev), ev.c, c);
    } else if ev.Accept? {
      AcceptKeepsOthers(s, ev.c, ev.node, c);
    } else {
      GatewayMoves(cfg, s, ev);
      MovedIsNews(s, Step(cfg, s, ev), c);
    }
  }

  lemma HeardIsNews(s: State, t: State, d: Conn, c: Conn)
    requires c in s.conns && d in s.conns && s.conns[d].up != [] && Moves(PopUp(s, d), t, 1)
    ensures c in t.conns
    ensures Explains(s, t, c, if c == d then [Fetch] + News(s.conns[c], t.conns[c]) else News(s.conns[c], t.conns[c]))
  {
    MovedIsNews(PopUp(s, d), t, c);
    if c == d {
      FetchedThen(s, t, c, News(s.conns[c], t.conns[c]));
    } else {
      OthersKeepTheirValue(s, PopUp(s, d), d, c);
    }
  }

  /** A session_open that an agent reads is of a session it has nothing of. */
  lemma OpensAreNew(s: State, c: Conn)
    requires Inv(s) && c in s.conns && s.conns[c].down != [] && s.conns[c].down[0].Open?
    ensures var e := End(c, s.conns[c].down[0].sid);
      e in s.ends && !s.ends[e].writer && s.ends[e].delivered == []
  {
    var e := End(c, s.conns[c].down[0].sid);
    assert FramesKnown(s, c, s.conns[c].down);
    assert OkAt(s, e);
    assert Only(s.conns[c].down, e.sid)[0] == s.conns[c].down[0];
    assert ViewOf(s, e).down.opens > 0;
  }

  lemma FrameFits(s: State, c: Conn, outcome: Outcome)
    requires Inv(s) && c in s.conns && s.conns[c].down != []
    ensures Fits(AgentAt(s, c), Receive(outcome))
    ensures s.conns[c].down[0].Open? ==> End(c, s.conns[c].down[0].sid) in s.ends
  {
    KnownIs(s, c, s.conns[c].down[0].sid);
    if s.conns[c].down[0].Open? {
      OpensAreNew(s, c);
    }
  }

  lemma PumpIsCall(s: State, e: End, data: Option<Bytes>)
    requires e in s.ends && e.conn in s.conns && s.ends[e].pump
    ensures IsCall(s, if data.Some? then PumpDataStep(s, e, data.value) else PumpEofStep(s, e), e.conn,
                   PumpRound(e.sid, data))
  {
    KnownIs(s, e.conn, e.sid);
    PumpIsAStep(s, e, data);
  }

  ghost predicate IsCall(s: State, t: State, c: Conn, call: Call) {
    c in s.conns && Fits(AgentAt(s, c), call) && StepsTo(s, t, c, Acted(AgentAt(s, c), call))
  }

  lemma ConnectionIsCall(s: State, c: Conn)
    requires c in s.conns
    ensures IsCall(s, SetLink(s, c, s.conns[c].(agentUp := false)), c, Lose)
    ensures IsCall(s, AgentEndStep(s, c), c, Stop)
  {
    SetLinkAt(s, c, s.conns[c].(agentUp := false));
    EndIsAStep(s, c);
  }

  lemma OpenIsCall(s: State, c: Conn, sid: Sid, route: string)
    requires c in s.conns && End(c, sid) !in s.ends
    ensures IsCall(s, LocalOpenStep(s, c, sid, route), c, OnLocal(sid, route))
  {
    KnownIs(s, c, sid);
    OpenIsAStep(s, c, sid, route);
  }

  lemma ReceiveIsCall(s: State, c: Conn, outcome: Outcome)
    requires Inv(s) && c in s.conns && s.conns[c].down != []
    ensures IsCall(s, AgentRecvStep(s, c, outcome), c, Receive(outcome))
  {
    FrameFits(s, c, outcome);
    ReceiveIsAStep(s, c, outcome);
  }

  /** An agent's step is its call. */
  lemma AgentStepIsCall(cfg: Config, s: State, ev: Event)
    requires Inv(s) && Wired(s) && Enabled(s, ev) && OfAgent(ev)
    ensures IsCall(s, Step(cfg, s, ev), AgentOf(ev), CallOf(ev))
  {
    match ev
    case LocalOpen(c, sid, route) => OpenIsCall(s, c, sid, route);
    case PumpData(e, bytes) => PumpIsCall(s, e, Some(bytes));
    case PumpEof(e) => PumpIsCall(s, e, None);
    case AgentRecv(c, outcome) => ReceiveIsCall(s, c, outcome);
    case AgentDown(c) => ConnectionIsCall(s, c);
    case AgentEnd(c) => ConnectionIsCall(s, c);
  }

  lemma CallExplains(s: State, t: State, d: Conn, call: Call, c: Conn)
    requires c in s.conns && IsCall(s, t, d, call)
    ensures Explains(s, t, c, if d == c then [call] else [])
  {
    if d == c {
      OneCall(AgentAt(s, c), call);
    } else {
      OthersKeepTheirValue(s, t, d, c);
    }
  }

  /** Every step of the tunnel is these calls, to every connection. */
  lemma StepIsCalls(cfg: Config, s: State, ev: Event, c: Conn)
    requires Inv(s) && Wired(s) && Enabled(s, ev) && c in s.conns
    ensures Explains(s, Step(cfg, s, ev), c, CallsOf(cfg, s, ev, c))
  {
    if OfAgent(ev) {
      AgentStepIsCall(cfg, s, ev);
      CallExplains(s, Step(cfg, s, ev), AgentOf(ev), CallOf(ev), c);
    } else {
      GatewayStepIsNews(cfg, s, ev, c);
    }
  }

  // ---- whole runs ------------------------------------------------------------------------------------------

  lemma {:induction false} ActedBoth(a: Agent, x: seq<Call>, y: seq<Call>)
    requires FitsAll(a, x) && FitsAll(ActedAll(a, x), y)
    ensures FitsAll(a, x + y) && ActedAll(a, x + y) == ActedAll(ActedAll(a, x), y)
    decreases |x|
  {
    if x == [] {
      assert x + y == y;
    } else {
      ActedBoth(Acted(a, x[0]), x[1..], y);
      assert (x + y)[1..] == x[1..] + y;
    }
  }

  /** All the calls of a run to connection `c`, from its coming in on. */
  ghost function CallsOver(cfg: Config, s: State, evs: seq<Event>, t: State, c: Conn): seq<Call>
    requires Run(cfg, s, evs, t)
    decreases |evs|
  {
    if evs == [] then []
    else (if c in s.conns then CallsOf(cfg, s, evs[0], c) else []) + CallsOver(cfg, Step(cfg, s, evs[0]), evs[1..], t, c)
  }

  /** A value that the agent cannot tell from the first is taken on as the run takes the connection. */
  ghost predicate Follows(a: Agent, calls: seq<Call>, t: State, c: Conn) {
    c in t.conns && FitsAll(a, calls) && Alike(AgentAt(t, c), ActedAll(a, calls))
  }

  lemma ExplainedFollows(s: State, t: State, c: Conn, calls: seq<Call>, a: Agent)
    requires c in s.conns && Explains(s, t, c, calls) && Alike(AgentAt(s, c), a)
    ensures Follows(a, calls, t, c)
  {
    ActedAllAlike(AgentAt(s, c), a, calls);
    AlikeTransitive(AgentAt(t, c), ActedAll(AgentAt(s, c), calls), ActedAll(a, calls));
  }

  lemma FollowsThen(a: Agent, x: seq<Call>, y: seq<Call>, t: State, c: Conn)
    requires FitsAll(a, x) && Follows(ActedAll(a, x), y, t, c)
    ensures Follows(a, x + y, t, c)
  {
    ActedBoth(a, x, y);
  }

  lemma {:induction false} RunFollows(cfg: Config, s: State, evs: seq<Event>, t: State, c: Conn, a: Agent)
    requires Inv(s) && Run(cfg, s, evs, t) && c in s.conns && Alike(AgentAt(s, c), a)
    ensures Follows(a, CallsOver(cfg, s, evs, t, c), t, c)
    decreases |evs|
  {
    if evs != [] {
      var u, calls := Step(cfg, s, evs[0]), CallsOf(cfg, s, evs[0], c);
      StepIsCalls(cfg, s, evs[0], c);
      ExplainedFollows(s, u, c, calls, a);
      StepKeepsInv(cfg, s, evs[0]);
      RunFollows(cfg, u, evs[1..], t, c, ActedAll(a, calls));
      FollowsThen(a, calls, CallsOver(cfg, u, evs[1..], t, c), t, c);
    }
  }

  function New(node: Node): Agent {
    Agent(NewLink(node), map[])
  }

  /** A connection that comes in has no sessions. */
  lemma AcceptedIsNew(cfg: Config, s: State, c: Conn, node: Node)
    requires Wired(s) && Enabled(s, Accept(c, node))
    ensures c in Step(cfg, s, Accept(c, node)).conns && AgentAt(Step(cfg, s, Accept(c, node)), c) == New(node)
  {
    assert AgentAt(Step(cfg, s, Accept(c, node)), c).known == map[];
  }

  lemma OnlyAcceptAdds(cfg: Config, s: State, ev: Event)
    requires Inv(s) && Wired(s) && Enabled(s, ev) && !ev.Accept?
    ensures Step(cfg, s, ev).conns.Keys == s.conns.Keys
  {
    if OfAgent(ev) {
      AgentStepIsCall(cfg, s, ev);
    } else if ev.GwRecv? {
      HeardMoves(cfg, s, ev.c, ev.newSid, ev.usage);
    } else {
      GatewayMoves(cfg, s, ev);
    }
  }

  lemma {:induction false} ActedKeepsNode(a: Agent, calls: seq<Call>)
    requires FitsAll(a, calls)
    ensures ActedAll(a, calls).link.node == a.link.node
    decreases |calls|
  {
    if calls != [] {
      ActedKeepsNode(Acted(a, calls[0]), calls[1..]);
    }
  }

  /** The connection comes in, and the run goes on. */
  lemma AcceptedFollows(cfg: Config, s: State, evs: seq<Event>, t: State, c: Conn, node: Node)
    requires Inv(s) && Wired(s) && Enabled(s, Accept(c, node)) && Run(cfg, Step(cfg, s, Accept(c, node)), evs, t)
    ensures Follows(New(node), CallsOver(cfg, Step(cfg, s, Accept(c, node)), evs, t, c), t, c)
    ensures t.conns[c].node == node
  {
    var u := Step(cfg, s, Accept(c, node));
    StepKeepsInv(cfg, s, Accept(c, node));
    AcceptedIsNew(cfg, s, c, node);
    RunFollows(cfg, u, evs, t, c, New(node));
    ActedKeepsNode(New(node), CallsOver(cfg, u, evs, t, c));
  }

  /** In any run, whoever else connects, sends and goes: what the tunnel says of a connection that has come in
      is, as far as its agent can see, what the run's calls make of a new one. */
  lemma {:induction false} RunIsCalls(cfg: Config, s: State, evs: seq<Event>, t: State, c: Conn)
    requires Inv(s) && Run(cfg, s, evs, t) && c !in s.conns && c in t.conns
    ensures Follows(New(t.conns[c].node), CallsOver(cfg, s, evs, t, c), t, c)
    decreases |evs|
  {
    if evs[0].Accept? && evs[0].c == c {
      AcceptedFollows(cfg, s, evs[1..], t, c, evs[0].node);
      NotYetCalled(cfg, s, evs, t, c);
    } else {
      StepKeepsInv(cfg, s, evs[0]);
      StillOut(cfg, s, evs[0], c);
      RunIsCalls(cfg, Step(cfg, s, evs[0]), evs[1..], t, c);
      NotYetCalled(cfg, s, evs, t, c);
    }
  }

  lemma StillOut(cfg: Config, s: State, ev: Event, c: Conn)
    requires Inv(s) && Wired(s) && Enabled(s, ev) && c !in s.conns && !(ev.Accept? && ev.c == c)
    ensures c !in Step(cfg, s, ev).conns
  {
    if !ev.Accept? {
      OnlyAcceptAdds(cfg, s, ev);
    }
  }

  lemma NotYetCalled(cfg: Config, s: State, evs: seq<Event>, t: State, c: Conn)
    requires Run(cfg, s, evs, t) && evs != [] && c !in s.conns
    ensures CallsOver(cfg, s, evs, t, c) == CallsOver(cfg, Step(cfg, s, evs[0]), evs[1..], t, c)
  {
    assert [] + CallsOver(cfg, Step(cfg, s, evs[0]), evs[1..], t, c) == CallsOver(cfg, Step(cfg, s, evs[0]), evs[1..], t, c);
  }

  // ---- the object itself ----------------------------------------------------------------------------------

  method Perform(conn: AgentConn, call: Call)
    requires conn.Valid() && Fits(conn.value, call)
    modifies conn, conn.Writers()
    ensures conn.Valid() && conn.value == Acted(old(conn.value), call)
    ensures fresh(conn.Writers() - old(conn.Writers()))
  {
    match call
    case OnLocal(sid, route) => var _, _ := conn.OnLocal(sid, route);
    case PumpRound(sid, data) => var _ := conn.PumpRound(sid, data);
    case Receive(outcome) => conn.Receive(outcome);
    case Stop => conn.Stop();
    case Lose => conn.Lose();
    case Fetch => var _ := conn.Fetch();
    case Arrive(f) => conn.Arrive(f);
  }

  method PerformAll(conn: AgentConn, calls: seq<Call>)
    requires conn.Valid() && FitsAll(conn.value, calls)
    modifies conn, conn.Writers()
    ensures conn.Valid() && conn.value == ActedAll(old(conn.value), calls)
  {
    for i := 0 to |calls|
      invariant conn.Valid() && fresh(conn.Writers() - old(conn.Writers()))
      invariant FitsAll(conn.value, calls[i..]) && ActedAll(conn.value, calls[i..]) == ActedAll(old(conn.value), calls)
    {
      assert calls[i..][1..] == calls[i + 1..];
      Perform(conn, calls[i]);
    }
  }

  /** A connection object made for the node, and given the calls of any run: its map holds exactly the open
      writers of the connection's ends, each with what was delivered to it. */
  method Follow(ghost cfg: Config, ghost evs: seq<Event>, ghost t: State, ghost c: Conn, node: Node, calls: seq<Call>)
      returns (conn: AgentConn)
    requires Run(cfg, EMPTY, evs, t) && c in t.conns && node == t.conns[c].node
    requires calls == CallsOver(cfg, EMPTY, evs, t, c)
    ensures fresh(conn) && conn.Valid() && Alike(AgentAt(t, c), conn.value)
    ensures conn.up == t.conns[c].agentUp && conn.wire == t.conns[c].up && conn.inbox == t.conns[c].down
    ensures forall sid :: sid in conn.sessions <==> End(c, sid) in t.ends && t.ends[End(c, sid)].writer
    ensures forall sid :: sid in conn.sessions ==> conn.sessions[sid].written == t.ends[End(c, sid)].delivered
  {
    RunIsCalls(cfg, EMPTY, evs, t, c);
    conn := new AgentConn(node);
    PerformAll(conn, calls);
    HoldsTheOpen(t, c, conn);
  }

  lemma HoldsTheOpen(t: State, c: Conn, conn: AgentConn)
    requires c in t.conns && conn.Valid() && Alike(AgentAt(t, c), conn.value)
    ensures forall sid :: sid in conn.sessions <==> End(c, sid) in t.ends && t.ends[End(c, sid)].writer
    ensures forall sid :: sid in conn.sessions ==> conn.sessions[sid].written == t.ends[End(c, sid)].delivered
  {
    forall sid ensures sid in conn.sessions <==> End(c, sid) in t.ends && t.ends[End(c, sid)].writer
      ensures sid in conn.sessions ==> conn.sessions[sid].written == t.ends[End(c, sid)].delivered
    {
      KnownIs(t, c, sid);
      assert Own(Known(AgentAt(t, c), sid)) == Own(Known(conn.value, sid));
      assert sid in conn.sessions ==> conn.Holds(sid, conn.sessions[sid]);
    }
  }
}
