/** The gateway's recount of an identity's sessions, taken from its bridge table and its registry: exactly
    when it misses none, and exactly which steps keep it so. */
module TunnelRecount {
  import opened Common
  import opened Policy
  import opened Tunnel
  import opened TunnelInvariant
  import opened TunnelLifetimes
  import opened TunnelRuns
  import opened TunnelPairing

  /** Is `c` a client connection of `actor`? */
  predicate ClientOf(s: State, c: Conn, actor: string) {
    c in s.conns && s.conns[c].node.client && s.conns[c].node.identity.Actor() == actor
  }

  /** All bridged sessions of an actor, over all its connections. */
  function AllSessionsOf(s: State, actor: string): set<End> {
    set e | e in s.bridges && ClientOf(s, e.conn, actor)
  }

  /** Does `c` hold a bridged session for `actor`? */
  ghost predicate Holds(s: State, c: Conn, actor: string) {
    ClientOf(s, c, actor) && exists e :: e in s.bridges && e.conn == c
  }

  /** The recount finds every bridged session of the actor. */
  ghost predicate Exact(s: State, actor: string) {
    SessionsOf(s, actor) == AllSessionsOf(s, actor)
  }

  /** The recount is exact if and only if every connection that holds a session for the actor is the one
      registered under its node id. */
  lemma ExactlyWhenHoldersAreRegistered(s: State, actor: string)
    ensures Exact(s, actor) <==> forall c :: Holds(s, c, actor) ==> Registered(s, c)
  {
    if Exact(s, actor) {
      forall c | Holds(s, c, actor) ensures Registered(s, c) {
        var e :| e in s.bridges && e.conn == c;
        assert e in AllSessionsOf(s, actor);
      }
    }
    if forall c :: Holds(s, c, actor) ==> Registered(s, c) {
      forall e | e in AllSessionsOf(s, actor) ensures e in SessionsOf(s, actor) {
        assert Holds(s, e.conn, actor);
      }
    }
  }

  // ---- steps that open nothing -------------------------------------------------------------------

  /** The registry, the nodes and their tasks' ends stay; bridges and questions only go away. */
  ghost predicate Quiet(s: State, t: State) {
    && t.registry == s.registry && t.conns.Keys == s.conns.Keys && t.bridges.Keys <= s.bridges.Keys
    && forall c :: c in s.conns ==> QuietLink(s.conns[c], t.conns[c])
  }

  ghost predicate QuietLink(l: Link, m: Link) {
    && m.node == l.node && (m.task.Ended? <==> l.task.Ended?)
    && forall f :: f in m.up && f.Open? ==> f in l.up
  }

  lemma QuietThen(s: State, t: State, u: State)
    requires Quiet(s, t) && Quiet(t, u)
    ensures Quiet(s, u)
  {
    forall c | c in s.conns
      ensures QuietLink(s.conns[c], u.conns[c])
    {
      assert QuietLink(s.conns[c], t.conns[c]) && QuietLink(t.conns[c], u.conns[c]);
    }
  }

  lemma QuietSend(s: State, c: Conn, f: Frame)
    requires c in s.conns && !f.Open?
    ensures Quiet(s, SendUp(s, c, f))
  {
  }

  lemma QuietSendDown(s: State, c: Conn, f: Frame)
    requires c in s.conns
    ensures Quiet(s, SendDown(s, c, f))
  {
  }

  lemma QuietClose(s: State, e: End)
    requires e in s.ends && e.conn in s.conns
    ensures Quiet(s, CloseAndNotify(s, e))
  {
    var v := s.ends[e].(writer := false, closes := s.ends[e].closes + One(s.conns[e.conn].agentUp));
    QuietSend(SetSess(s, e, v), e.conn, Close(e.sid));
  }

  lemma QuietPump(s: State, e: End, bytes: Bytes)
    requires e in s.ends && e.conn in s.conns
    ensures Quiet(s, PumpDataStep(s, e, bytes)) && Quiet(s, PumpEofStep(s, e))
  {
    QuietSend(SetSess(s, e, s.ends[e].(sent := s.ends[e].sent + bytes)), e.conn, Data(e.sid, bytes));
    QuietClose(SetSess(s, e, s.ends[e].(pump := false)), e);
  }

  lemma QuietDeliver(s: State, e: End, bytes: Bytes, outcome: Outcome)
    requires e in s.ends && e.conn in s.conns
    ensures Quiet(s, Deliver(s, e, bytes, outcome))
  {
    var v := s.ends[e];
    QuietClose(SetSess(s, e, if outcome.Fine? || outcome.wrote then v.(delivered := v.delivered + bytes) else v), e);
  }

  lemma QuietOpenTarget(s: State, e: End, outcome: Outcome)
    requires e in s.ends && e.conn in s.conns
    ensures Quiet(s, OpenTarget(s, e, outcome))
  {
    QuietClose(SetSess(s, e, s.ends[e].(started := true)), e);
  }

  lemma QuietAgentRecv(s: State, c: Conn, outcome: Outcome)
    requires Wired(s) && c in s.conns && s.conns[c].down != []
    ensures Quiet(s, AgentRecvStep(s, c, outcome))
  {
    var f := s.conns[c].down[0];
    var e := End(c, f.sid);
    var p := PopDown(s, c);
    assert Quiet(s, p);
    if e in s.ends {
      QuietOpenTarget(p, e, outcome);
      QuietThen(s, p, OpenTarget(p, e, outcome));
      if f.Data? {
        QuietDeliver(p, e, f.bytes, outcome);
        QuietThen(s, p, Deliver(p, e, f.bytes, outcome));
      }
    }
  }

  lemma QuietTell(s: State, e: End)
    requires e in s.ends && e.conn in s.conns
    ensures Quiet(s, Tell(s, e))
  {
    QuietSendDown(SetSess(s, e, s.ends[e].(told := s.ends[e].told + 1)), e.conn, Close(e.sid));
  }

  lemma QuietUnbridge(s: State, e: End)
    requires Wired(s)
    ensures Quiet(s, Unbridge(s, e))
  {
    if e in s.bridges {
      var p := s.bridges[e];
      var cut := s.(bridges := s.bridges - {e, p});
      assert Quiet(s, cut);
      if s.conns[p.conn].gwUp {
        QuietTell(cut, p);
        QuietThen(s, cut, Tell(cut, p));
      }
    }
  }

  lemma QuietAbandon(s: State, e: End)
    requires Wired(s) && e in s.ends
    ensures Quiet(s, Abandon(s, e))
  {
    QuietUnbridge(s, e);
  }

  lemma QuietRelay(s: State, e: End, bytes: Bytes)
    requires Wired(s) && e in s.ends
    ensures Quiet(s, Relay(s, e, bytes))
  {
    if e in s.bridges && !s.conns[s.bridges[e].conn].gwUp {
      QuietAbandon(s, e);
    } else if e in s.bridges {
      QuietSendDown(SetSess(s, e, s.ends[e].(relayed := s.ends[e].relayed + bytes)), s.bridges[e].conn,
                    Data(s.bridges[e].sid, bytes));
    }
  }

  lemma QuietTask(s: State, c: Conn, task: Task)
    requires c in s.conns && !s.conns[c].task.Ended? && !task.Ended?
    ensures Quiet(s, SetTask(s, c, task))
  {
  }

  lemma QuietRefuse(s: State, e: End)
    requires e in s.ends && e.conn in s.conns && s.conns[e.conn].task.Serving?
    ensures Quiet(s, Refuse(s, e))
  {
    QuietTell(s, e);
    QuietTask(s, e.conn, Leaving);
  }

  lemma QuietUngranted(cfg: Config, s: State, c: Conn, newSid: Sid, usage: Usage)
    requires Wired(s) && Enabled(s, GwRecv(c, newSid, usage)) && !Grants(cfg, s, c, usage)
    ensures Quiet(s, GwRecvStep(cfg, s, c, newSid, usage))
  {
    var t := PopUp(s, c);
    PopUpWired(s, c);
    QuietPop(s, c);
    if s.conns[c].up[0].Open? {
      QuietRefused(cfg, s, c, newSid, usage);
    } else {
      QuietPassed(cfg, s, c, newSid, usage);
    }
    QuietThen(s, t, GwRecvStep(cfg, s, c, newSid, usage));
  }

  lemma QuietPop(s: State, c: Conn)
    requires c in s.conns && s.conns[c].up != []
    ensures Quiet(s, PopUp(s, c))
  {
  }

  lemma QuietRefused(cfg: Config, s: State, c: Conn, newSid: Sid, usage: Usage)
    requires Wired(s) && Enabled(s, GwRecv(c, newSid, usage)) && !Grants(cfg, s, c, usage)
    requires Wired(PopUp(s, c)) && s.conns[c].up[0].Open?
    ensures Quiet(PopUp(s, c), GwRecvStep(cfg, s, c, newSid, usage))
  {
    var e := End(c, s.conns[c].up[0].sid);
    if e in s.ends {
      QuietRefuse(PopUp(s, c), e);
    }
  }

  lemma QuietPassed(cfg: Config, s: State, c: Conn, newSid: Sid, usage: Usage)
    requires Wired(s) && Enabled(s, GwRecv(c, newSid, usage))
    requires Wired(PopUp(s, c)) && !s.conns[c].up[0].Open?
    ensures Quiet(PopUp(s, c), GwRecvStep(cfg, s, c, newSid, usage))
  {
    var f := s.conns[c].up[0];
    var e := End(c, f.sid);
    if e in s.ends {
      match f
      case Data(_, bytes) => QuietRelay(PopUp(s, c), e, bytes);
      case Close(_) => QuietUnbridge(PopUp(s, c), e);
    }
  }

  lemma QuietOpenSend(s: State, c: Conn)
    requires Wired(s) && c in s.conns && s.conns[c].task.Opening?
    ensures Quiet(s, GwOpenSendStep(s, c))
  {
    var Opening(sid, p) := s.conns[c].task;
    var t := SetTask(s, c, Serving);
    ServingWired(s, c);
    QuietTask(s, c, Serving);
    if s.conns[p.conn].gwUp {
      QuietSendDown(t, p.conn, Open(p.sid, ""));
      QuietThen(s, t, SendDown(t, p.conn, Open(p.sid, "")));
    } else {
      QuietAbandon(t, End(c, sid));
      QuietThen(s, t, Abandon(t, End(c, sid)));
    }
  }

  lemma QuietCleanOne(s: State, c: Conn)
    requires Tables(s) && Wired(s) && Enabled(s, CleanOne(c))
    ensures Quiet(s, CleanOneStep(s, c))
  {
    var left := s.conns[c].task.left;
    var t := Unbridge(s, End(c, left[0]));
    QuietUnbridge(s, End(c, left[0]));
    UnbridgeTasks(s, End(c, left[0]));
    QuietTask(t, c, Cleaning(left[1..]));
    QuietThen(s, t, SetTask(t, c, Cleaning(left[1..])));
  }

  lemma QuietDown(s: State, c: Conn)
    requires c in s.conns
    ensures Quiet(s, SetLink(s, c, s.conns[c].(agentUp := false)))
    ensures Quiet(s, SetLink(s, c, s.conns[c].(gwUp := false)))
  {
  }

  lemma QuietAgentEnd(s: State, c: Conn)
    requires c in s.conns
    ensures Quiet(s, AgentEndStep(s, c))
  {
  }

  lemma QuietStep(cfg: Config, s: State, ev: Event)
    requires Inv(s) && Wired(s) && Enabled(s, ev)
    requires !ev.Accept? && !ev.LocalOpen? && !ev.CleanDone? && !(ev.GwEnd? && !s.conns[ev.c].node.client)
    requires ev.GwRecv? ==> !Grants(cfg, s, ev.c, ev.usage)
    ensures Quiet(s, Step(cfg, s, ev))
  {
    if ev.PumpData? {
      QuietPump(s, ev.e, ev.bytes);
    } else if ev.PumpEof? {
      QuietPump(s, ev.e, []);
    } else if ev.AgentRecv? {
      QuietAgentRecv(s, ev.c, ev.outcome);
    } else if ev.GwRecv? {
      QuietUngranted(cfg, s, ev.c, ev.newSid, ev.usage);
    } else if ev.GwOpenSend? {
      QuietOpenSend(s, ev.c);
    } else if ev.GwEnd? {
      QuietTask(s, ev.c, Cleaning(ev.order));
    } else if ev.CleanOne? {
      QuietCleanOne(s, ev.c);
    } else if ev.AgentEnd? {
      QuietAgentEnd(s, ev.c);
    } else {
      QuietDown(s, ev.c);
    }
  }

  // ---- exactly which steps keep the recount exact --------------------------------------------------

  /** No connection that holds a session for the actor has this node id. */
  ghost predicate NoHolderHas(s: State, id: string, actor: string) {
    forall d :: Holds(s, d, actor) ==> s.conns[d].node.id != id
  }

  /** A connection that comes in, or that is unregistered, does not share its node id with a holder; and
      a client that is granted a session is itself registered. */
  ghost predicate KeepsRecount(cfg: Config, s: State, ev: Event, actor: string)
    requires Enabled(s, ev)
  {
    match ev
    case Accept(c, node) => NoHolderHas(s, node.id, actor)
    case GwEnd(c, order) => s.conns[c].node.client || NoHolderHas(s, s.conns[c].node.id, actor)
    case CleanDone(c) => NoHolderHas(s, s.conns[c].node.id, actor)
    case GwRecv(c, newSid, usage) => Grants(cfg, s, c, usage) && ClientOf(s, c, actor) ==> Registered(s, c)
    case _ => true
  }

  lemma QuietKeepsExact(s: State, t: State, actor: string)
    requires Quiet(s, t) && Exact(s, actor)
    ensures Exact(t, actor)
  {
    ExactlyWhenHoldersAreRegistered(s, actor);
    forall c | Holds(t, c, actor) ensures Registered(t, c) {
      var e :| e in t.bridges && e.conn == c;
      assert QuietLink(s.conns[c], t.conns[c]);
      assert Holds(s, c, actor);
    }
    ExactlyWhenHoldersAreRegistered(t, actor);
  }

  function Accepted(s: State, c: Conn, node: Node): State {
    SetLink(s, c, NewLink(node)).(registry := s.registry[node.id := c])
  }

  lemma AcceptHolders(s: State, c: Conn, node: Node, actor: string, d: Conn)
    requires Tables(s) && c !in s.conns
    ensures Holds(Accepted(s, c, node), d, actor) <==> Holds(s, d, actor)
    ensures Holds(s, d, actor) ==>
      (Registered(Accepted(s, c, node), d) <==> Registered(s, d) && s.conns[d].node.id != node.id)
  {
  }

  lemma AcceptKeepsExactIff(s: State, c: Conn, node: Node, actor: string)
    requires Tables(s) && c !in s.conns && Exact(s, actor)
    ensures Exact(Accepted(s, c, node), actor) <==> NoHolderHas(s, node.id, actor)
  {
    var t := Accepted(s, c, node);
    ExactlyWhenHoldersAreRegistered(s, actor);
    ExactlyWhenHoldersAreRegistered(t, actor);
    forall d ensures Holds(t, d, actor) <==> Holds(s, d, actor)
      ensures Holds(s, d, actor) ==> (Registered(t, d) <==> s.conns[d].node.id != node.id)
    {
      AcceptHolders(s, c, node, actor, d);
    }
  }

  lemma EndHolders(s: State, c: Conn, actor: string, d: Conn)
    requires c in s.conns
    ensures var t := Unregister(SetTask(s, c, Ended), c);
      && (Holds(t, d, actor) <==> Holds(s, d, actor))
      && (Holds(s, d, actor) ==> (Registered(t, d) <==> Registered(s, d) && s.conns[d].node.id != s.conns[c].node.id))
  {
  }

  lemma EndKeepsExactIff(s: State, c: Conn, actor: string)
    requires c in s.conns && Exact(s, actor)
    ensures Exact(Unregister(SetTask(s, c, Ended), c), actor) <==> NoHolderHas(s, s.conns[c].node.id, actor)
  {
    var t := Unregister(SetTask(s, c, Ended), c);
    ExactlyWhenHoldersAreRegistered(s, actor);
    ExactlyWhenHoldersAreRegistered(t, actor);
    forall d ensures Holds(t, d, actor) <==> Holds(s, d, actor)
      ensures Holds(s, d, actor) ==> (Registered(t, d) <==> s.conns[d].node.id != s.conns[c].node.id)
    {
      EndHolders(s, c, actor, d);
    }
  }

  lemma OpenedSessions(t: State, e: End, p: End, actor: string)
    requires e in t.ends && e.conn in t.conns && p.conn in t.conns && !t.conns[p.conn].node.client
    ensures AllSessionsOf(Opened(t, e, p), actor)
            == AllSessionsOf(t, actor) + (if ClientOf(t, e.conn, actor) then {e} else {})
  {
  }

  lemma OpenedCounted(t: State, e: End, p: End, actor: string)
    requires e in t.ends && e.conn in t.conns && p.conn in t.conns && !t.conns[p.conn].node.client
    ensures SessionsOf(Opened(t, e, p), actor)
            == SessionsOf(t, actor) + (if CountedFor(t, e.conn, actor) then {e} else {})
  {
  }

  lemma OpeningKeepsExactIff(t: State, e: End, p: End, actor: string)
    requires e in t.ends && e.conn in t.conns && p.conn in t.conns && !t.conns[p.conn].node.client
    requires Exact(t, actor) && e !in t.bridges
    ensures Exact(Opened(t, e, p), actor) <==> (ClientOf(t, e.conn, actor) ==> Registered(t, e.conn))
  {
    OpenedSessions(t, e, p, actor);
    OpenedCounted(t, e, p, actor);
    assert e !in SessionsOf(t, actor);
  }

  lemma GrantIsOpened(cfg: Config, s: State, c: Conn, newSid: Sid, usage: Usage)
    requires Tables(s) && Wired(s) && Enabled(s, GwRecv(c, newSid, usage)) && Grants(cfg, s, c, usage)
    ensures var f := s.conns[c].up[0];
            && End(c, f.sid) in PopUp(s, c).ends
            && GwRecvStep(cfg, s, c, newSid, usage)
               == Opened(PopUp(s, c), End(c, f.sid), End(s.registry[f.route], newSid))
  {
    assert FramesKnown(s, c, s.conns[c].up);
  }

  /** A granted session_open comes from an end that is not bridged. */
  lemma AskerIsUnbridged(s: State, c: Conn)
    requires Inv(s) && c in s.conns && s.conns[c].up != [] && s.conns[c].up[0].Open?
    ensures var e := End(c, s.conns[c].up[0].sid); e in s.ends && e !in s.bridges
  {
    var e := End(c, s.conns[c].up[0].sid);
    assert FramesKnown(s, c, s.conns[c].up);
    assert OkAt(s, e);
    BridgedIsPaired(s, e);
    AskerUnpaired(s, c);
  }

  lemma BridgedIsPaired(s: State, e: End)
    requires Involution(s)
    ensures e in s.bridges ==> e in s.ends && s.ends[e].peer.Some?
  {
  }

  lemma GrantKeepsExactIff(cfg: Config, s: State, c: Conn, newSid: Sid, usage: Usage, actor: string)
    requires Inv(s) && Wired(s) && Enabled(s, GwRecv(c, newSid, usage)) && Grants(cfg, s, c, usage) && Exact(s, actor)
    ensures Exact(GwRecvStep(cfg, s, c, newSid, usage), actor) <==> (ClientOf(s, c, actor) ==> Registered(s, c))
  {
    var f := s.conns[c].up[0];
    var t := PopUp(s, c);
    GrantIsOpened(cfg, s, c, newSid, usage);
    AskerIsUnbridged(s, c);
    QuietPop(s, c);
    QuietKeepsExact(s, t, actor);
    OpeningKeepsExactIff(t, End(c, f.sid), End(s.registry[f.route], newSid), actor);
  }

  lemma LocalOpenKeepsExact(s: State, c: Conn, sid: Sid, route: string, actor: string)
    requires c in s.conns && Exact(s, actor)
    ensures Exact(LocalOpenStep(s, c, sid, route), actor)
  {
    assert SessionsOf(LocalOpenStep(s, c, sid, route), actor) == SessionsOf(s, actor);
    LocalOpenSessions(s, c, sid, route, actor);
  }

  /** From a state in which the recount is exact, a step of the system leaves it exact if and only if the
      step does not let a session's connection go unregistered, in one of the three ways there are. */
  lemma RecountStaysExactIff(cfg: Config, s: State, ev: Event, actor: string)
    requires Inv(s) && Wired(s) && Enabled(s, ev) && Exact(s, actor)
    ensures Exact(Step(cfg, s, ev), actor) <==> KeepsRecount(cfg, s, ev, actor)
  {
    if ev.Accept? {
      AcceptKeepsExactIff(s, ev.c, ev.node, actor);
    } else if ev.LocalOpen? {
      LocalOpenKeepsExact(s, ev.c, ev.sid, ev.route, actor);
    } else if ev.GwRecv? && Grants(cfg, s, ev.c, ev.usage) {
      GrantKeepsExactIff(cfg, s, ev.c, ev.newSid, ev.usage, actor);
    } else if ev.CleanDone? || (ev.GwEnd? && !s.conns[ev.c].node.client) {
      EndKeepsExactIff(s, ev.c, actor);
    } else {
      QuietStep(cfg, s, ev);
      QuietKeepsExact(s, Step(cfg, s, ev), actor);
    }
  }

  lemma AcceptKeepsSessions(s: State, c: Conn, node: Node, actor: string)
    requires Tables(s) && c !in s.conns
    ensures AllSessionsOf(Accepted(s, c, node), actor) == AllSessionsOf(s, actor)
  {
  }

  // ---- opens minus closes ----------------------------------------------------------------------------

  /** The step grants a session to a client of the actor. */
  ghost predicate OpensOne(cfg: Config, s: State, ev: Event, actor: string)
    requires Enabled(s, ev)
  {
    ev.GwRecv? && Grants(cfg, s, ev.c, ev.usage) && ClientOf(s, ev.c, actor)
  }

  /** A granted session is added to the actor's; no other step adds any. */
  lemma SessionsChange(cfg: Config, s: State, ev: Event, actor: string)
    requires Inv(s) && Wired(s) && Enabled(s, ev)
    ensures var t := Step(cfg, s, ev);
      if OpensOne(cfg, s, ev, actor)
      then exists e :: e !in AllSessionsOf(s, actor) && AllSessionsOf(t, actor) == AllSessionsOf(s, actor) + {e}
      else AllSessionsOf(t, actor) <= AllSessionsOf(s, actor)
  {
    if ev.GwRecv? && Grants(cfg, s, ev.c, ev.usage) {
      GrantChangesSessions(cfg, s, ev.c, ev.newSid, ev.usage, actor);
    } else {
      NoNewSessions(cfg, s, ev, actor);
    }
  }

  lemma NoNewSessions(cfg: Config, s: State, ev: Event, actor: string)
    requires Inv(s) && Wired(s) && Enabled(s, ev) && (ev.GwRecv? ==> !Grants(cfg, s, ev.c, ev.usage))
    ensures AllSessionsOf(Step(cfg, s, ev), actor) <= AllSessionsOf(s, actor)
  {
    if ev.Accept? {
      AcceptKeepsSessions(s, ev.c, ev.node, actor);
    } else if ev.LocalOpen? {
      LocalOpenSessions(s, ev.c, ev.sid, ev.route, actor);
    } else if ev.CleanDone? || (ev.GwEnd? && !s.conns[ev.c].node.client) {
      EndSessions(s, ev.c, actor);
    } else {
      QuietStep(cfg, s, ev);
      QuietSessions(s, Step(cfg, s, ev), actor);
    }
  }

  lemma LocalOpenSessions(s: State, c: Conn, sid: Sid, route: string, actor: string)
    requires c in s.conns
    ensures AllSessionsOf(LocalOpenStep(s, c, sid, route), actor) == AllSessionsOf(s, actor)
  {
  }

  lemma EndSessions(s: State, c: Conn, actor: string)
    requires c in s.conns
    ensures AllSessionsOf(Unregister(SetTask(s, c, Ended), c), actor) == AllSessionsOf(s, actor)
  {
  }

  lemma PopSessions(s: State, c: Conn, actor: string)
    requires c in s.conns && s.conns[c].up != []
    ensures AllSessionsOf(PopUp(s, c), actor) == AllSessionsOf(s, actor)
  {
  }

  lemma QuietSessions(s: State, t: State, actor: string)
    requires Quiet(s, t)
    ensures AllSessionsOf(t, actor) <= AllSessionsOf(s, actor)
  {
    forall e | e in AllSessionsOf(t, actor) ensures e in AllSessionsOf(s, actor) {
      assert QuietLink(s.conns[e.conn], t.conns[e.conn]);
    }
  }

  lemma GrantChangesSessions(cfg: Config, s: State, c: Conn, newSid: Sid, usage: Usage, actor: string)
    requires Inv(s) && Wired(s) && Enabled(s, GwRecv(c, newSid, usage)) && Grants(cfg, s, c, usage)
    ensures var e := End(c, s.conns[c].up[0].sid);
      && e !in AllSessionsOf(s, actor)
      && AllSessionsOf(GwRecvStep(cfg, s, c, newSid, usage), actor)
         == AllSessionsOf(s, actor) + (if ClientOf(s, c, actor) then {e} else {})
  {
    var f := s.conns[c].up[0];
    var e, p := End(c, f.sid), End(s.registry[f.route], newSid);
    var t := PopUp(s, c);
    GrantIsOpened(cfg, s, c, newSid, usage);
    AskerIsUnbridged(s, c);
    PopSessions(s, c, actor);
    OpenedSessions(t, e, p, actor);
  }

  /** The sessions granted to the actor over a run. */
  ghost function Opens(cfg: Config, s: State, evs: seq<Event>, t: State, actor: string): nat
    requires Run(cfg, s, evs, t)
    decreases |evs|
  {
    if evs == [] then 0
    else (if OpensOne(cfg, s, evs[0], actor) then 1 else 0) + Opens(cfg, Step(cfg, s, evs[0]), evs[1..], t, actor)
  }

  /** The actor's sessions that lost their bridge over a run. */
  ghost function Closes(cfg: Config, s: State, evs: seq<Event>, t: State, actor: string): nat
    requires Run(cfg, s, evs, t)
    decreases |evs|
  {
    if evs == [] then 0
    else
      |AllSessionsOf(s, actor) - AllSessionsOf(Step(cfg, s, evs[0]), actor)| + Closes(cfg, Step(cfg, s, evs[0]), evs[1..], t, actor)
  }

  lemma OneChange(a: set<End>, b: set<End>, opens: bool)
    requires if opens then exists e :: e !in a && b == a + {e} else b <= a
    ensures |b| == |a| + (if opens then 1 else 0) - |a - b|
    ensures opens ==> |b| == |a| + 1
  {
    if opens {
      assert a - b == {};
    } else {
      assert a == b + (a - b);
    }
  }

  lemma {:induction false} SessionsAreOpensMinusCloses(cfg: Config, s: State, evs: seq<Event>, t: State, actor: string)
    requires Inv(s) && Run(cfg, s, evs, t)
    ensures |AllSessionsOf(t, actor)|
            == |AllSessionsOf(s, actor)| + Opens(cfg, s, evs, t, actor) - Closes(cfg, s, evs, t, actor)
    decreases |evs|
  {
    if evs != [] {
      var u := Step(cfg, s, evs[0]);
      StepKeepsInv(cfg, s, evs[0]);
      SessionsChange(cfg, s, evs[0], actor);
      OneChange(AllSessionsOf(s, actor), AllSessionsOf(u, actor), OpensOne(cfg, s, evs[0], actor));
      SessionsAreOpensMinusCloses(cfg, u, evs[1..], t, actor);
    }
  }

  /** Whenever the recount is exact, it is the number of sessions granted minus the number closed. */
  lemma RecountIsOpensMinusCloses(cfg: Config, evs: seq<Event>, t: State, actor: string)
    requires Run(cfg, EMPTY, evs, t) && Exact(t, actor)
    ensures |SessionsOf(t, actor)| == Opens(cfg, EMPTY, evs, t, actor) - Closes(cfg, EMPTY, evs, t, actor)
  {
    assert AllSessionsOf(EMPTY, actor) == {};
    SessionsAreOpensMinusCloses(cfg, EMPTY, evs, t, actor);
  }

  // ---- distinct node ids ---------------------------------------------------------------------------------

  /** Node ids of live connections are distinct, as seen from the registry. */
  ghost predicate Registry(s: State) {
    && (forall c :: c in s.conns && !s.conns[c].task.Ended? ==> Registered(s, c))
    && (forall id :: id in s.registry ==>
         s.registry[id] in s.conns && s.conns[s.registry[id]].node.id == id
         && !s.conns[s.registry[id]].task.Ended?)
  }

  /** The recount of _usage is exact when node ids are distinct: every bridged session of the actor
      is counted. */
  lemma RecountIsExact(s: State, actor: string)
    requires Tables(s) && Registry(s)
    ensures SessionsOf(s, actor) == AllSessionsOf(s, actor)
  {
    forall e | e in s.bridges && ClientOf(s, e.conn, actor)
      ensures CountedFor(s, e.conn, actor)
    {
      assert TaskOk(s, e.conn);
    }
  }

  lemma AcceptKeepsRegistry(s: State, c: Conn, node: Node)
    requires Registry(s) && c !in s.conns && node.id !in s.registry
    ensures Registry(SetLink(s, c, NewLink(node)).(registry := s.registry[node.id := c]))
  {
  }

  lemma EndKeepsRegistry(s: State, c: Conn)
    requires Registry(s) && c in s.conns && !s.conns[c].task.Ended?
    ensures Registry(Unregister(SetTask(s, c, Ended), c))
  {
    assert Registered(s, c);
    var t := Unregister(SetTask(s, c, Ended), c);
    forall d | d in t.conns && !t.conns[d].task.Ended?
      ensures Registered(t, d)
    {
      assert Registered(s, d);
    }
  }

  lemma QuietKeepsRegistry(s: State, t: State)
    requires Registry(s) && Quiet(s, t)
    ensures Registry(t)
  {
    forall c | c in t.conns && !t.conns[c].task.Ended? ensures Registered(t, c) {
      assert QuietLink(s.conns[c], t.conns[c]) && Registered(s, c);
    }
  }

  /** Connections present node ids that are not in use. */
  predicate FreshId(s: State, ev: Event) {
    ev.Accept? ==> ev.node.id !in s.registry
  }

  lemma GrantKeepsRegistry(cfg: Config, s: State, c: Conn, newSid: Sid, usage: Usage)
    requires Inv(s) && Wired(s) && Enabled(s, GwRecv(c, newSid, usage)) && Grants(cfg, s, c, usage) && Registry(s)
    ensures Registry(GwRecvStep(cfg, s, c, newSid, usage))
  {
    GrantIsOpened(cfg, s, c, newSid, usage);
    QuietPop(s, c);
    QuietKeepsRegistry(s, PopUp(s, c));
    var f := s.conns[c].up[0];
    OpeningKeepsRegistry(PopUp(s, c), End(c, f.sid), End(s.registry[f.route], newSid));
  }

  lemma OpeningKeepsRegistry(t: State, e: End, p: End)
    requires Registry(t) && e in t.ends && e.conn in t.conns && t.conns[e.conn].task.Serving?
    ensures Registry(Opened(t, e, p))
  {
    var u := Opened(t, e, p);
    forall d | d in u.conns && !u.conns[d].task.Ended? ensures Registered(u, d) {
      assert Registered(t, d);
    }
  }

  lemma LocalOpenKeepsRegistry(s: State, c: Conn, sid: Sid, route: string)
    requires Registry(s) && c in s.conns
    ensures Registry(LocalOpenStep(s, c, sid, route))
  {
    var t := LocalOpenStep(s, c, sid, route);
    forall d | d in t.conns && !t.conns[d].task.Ended? ensures Registered(t, d) {
      assert Registered(s, d);
    }
  }

  lemma StepKeepsRegistry(cfg: Config, s: State, ev: Event)
    requires Inv(s) && Wired(s) && Enabled(s, ev) && Registry(s) && FreshId(s, ev)
    ensures Registry(Step(cfg, s, ev))
  {
    if ev.Accept? {
      AcceptKeepsRegistry(s, ev.c, ev.node);
    } else if ev.LocalOpen? {
      LocalOpenKeepsRegistry(s, ev.c, ev.sid, ev.route);
    } else if ev.GwRecv? && Grants(cfg, s, ev.c, ev.usage) {
      GrantKeepsRegistry(cfg, s, ev.c, ev.newSid, ev.usage);
    } else if ev.CleanDone? || (ev.GwEnd? && !s.conns[ev.c].node.client) {
      EndKeepsRegistry(s, ev.c);
    } else {
      QuietStep(cfg, s, ev);
      QuietKeepsRegistry(s, Step(cfg, s, ev));
    }
  }

  /** With distinct node ids, every step keeps every identity's recount exact. */
  lemma DistinctIdsKeepTheRecount(cfg: Config, s: State, ev: Event, actor: string)
    requires Inv(s) && Wired(s) && Enabled(s, ev) && Registry(s) && FreshId(s, ev)
    ensures KeepsRecount(cfg, s, ev, actor)
  {
    RecountIsExact(s, actor);
    StepKeepsInv(cfg, s, ev);
    StepKeepsRegistry(cfg, s, ev);
    RecountIsExact(Step(cfg, s, ev), actor);
    RecountStaysExactIff(cfg, s, ev, actor);
  }
}
