/** Runs of the brokered tunnel: the invariant holds in every reachable state. */
module TunnelRuns {
  import opened Common
  import opened Policy
  import opened Tunnel
  import opened TunnelInvariant
  import opened TunnelSteps
  import opened TunnelLifetimes
  import opened TunnelTables

  // ---- the gateway's receive step ------------------------------------------------------

  lemma OpenRoutedKeeps(cfg: Config, t: State, e: End, f: Frame, newSid: Sid, usage: Usage)
    requires Tables(t) && (forall x :: OkBefore(t, e, f, x)) && f.Open? && f.sid == e.sid
    requires e in t.ends && t.conns[e.conn].task.Serving? && t.conns[e.conn].node.client
    requires forall d :: End(d, newSid) !in t.ends
    ensures Inv(OpenRouted(cfg, t, e, f.route, newSid, usage))
  {
    assert OkBefore(t, e, f, e);
    if Routable(t, f.route) && RouteDecision(cfg, t, e.conn, f.route, usage).allow {
      var p := End(t.registry[f.route], newSid);
      assert TaskOk(t, p.conn);
      assert t.ends[e].peer.None?;
      TablesOpened(t, e, p);
      forall x ensures OkAt(Opened(t, e, p), x) { OpenedAt(t, e, f, p, x); }
    } else {
      TablesRefuse(t, e);
      forall x ensures OkAt(Refuse(t, e), x) { RefuseAt(t, e, f, x); }
    }
  }

  lemma RelayKeeps(t: State, e: End, f: Frame)
    requires Tables(t) && (forall x :: OkBefore(t, e, f, x)) && f.Data? && f.sid == e.sid
    requires e in t.ends && t.conns[e.conn].task.Serving?
    ensures Inv(Relay(t, e, f.bytes))
  {
    HeardAnnounced(t, e, f);
    TablesRelay(t, e, f.bytes);
    forall x ensures OkAt(Relay(t, e, f.bytes), x) { RelayAt(t, e, f, x); }
  }

  lemma UnbridgeKeeps(t: State, e: End, f: Frame)
    requires Tables(t) && (forall x :: OkBefore(t, e, f, x)) && f.Close? && f.sid == e.sid
    requires e in t.ends && t.conns[e.conn].task.Serving?
    ensures Inv(Unbridge(t, e))
  {
    HeardAnnounced(t, e, f);
    TablesUnbridge(t, e);
    forall x ensures OkAt(Unbridge(t, e), x) { UnbridgeAt(t, e, f, x); }
  }

  /** Servers do not send session_open. */
  lemma ClientsAsk(t: State, e: End, f: Frame)
    requires OkBefore(t, e, f, e) && f.Open? && e in t.ends
    ensures t.conns[e.conn].node.client
  {
  }

  lemma GwRecvKeeps(cfg: Config, s: State, c: Conn, newSid: Sid, usage: Usage)
    requires Inv(s) && Wired(s) && Enabled(s, GwRecv(c, newSid, usage))
    ensures Inv(GwRecvStep(cfg, s, c, newSid, usage))
  {
    var f := s.conns[c].up[0];
    var e := End(c, f.sid);
    var t := PopUp(s, c);
    TablesPopUp(s, c);
    forall x ensures OkBefore(t, e, f, x) { PopUpBefore(s, c, x); }
    match f
    case Open(_, _) =>
      ClientsAsk(t, e, f);
      OpenRoutedKeeps(cfg, t, e, f, newSid, usage);
    case Data(_, _) => RelayKeeps(t, e, f);
    case Close(_) => UnbridgeKeeps(t, e, f);
  }

  // ---- the other steps -------------------------------------------------------------------

  lemma AgentKeeps(cfg: Config, s: State, ev: Event)
    requires Inv(s) && Wired(s) && Enabled(s, ev)
    requires ev.PumpData? || ev.PumpEof? || ev.AgentRecv? || ev.LocalOpen?
    ensures Inv(Step(cfg, s, ev))
  {
    match ev
    case PumpData(e, bytes) =>
      TablesPumpData(s, e, bytes);
      forall x ensures OkAt(PumpDataStep(s, e, bytes), x) { PumpDataAt(s, e, bytes, x); }
    case PumpEof(e) =>
      TablesPumpEof(s, e);
      forall x ensures OkAt(PumpEofStep(s, e), x) { PumpEofAt(s, e, x); }
    case AgentRecv(c, outcome) =>
      TablesAgentRecv(s, c, outcome);
      forall x ensures OkAt(AgentRecvStep(s, c, outcome), x) { AgentRecvAt(s, c, outcome, x); }
    case LocalOpen(c, sid, route) =>
      TablesLocalOpen(s, c, sid, route);
      forall x ensures OkAt(LocalOpenStep(s, c, sid, route), x) { LocalOpenAt(s, c, sid, route, x); }
  }

  lemma ConnectionKeeps(cfg: Config, s: State, ev: Event)
    requires Inv(s) && Wired(s) && Enabled(s, ev)
    requires ev.Accept? || ev.AgentDown? || ev.AgentEnd? || ev.GwDown?
    ensures Inv(Step(cfg, s, ev))
  {
    match ev
    case Accept(c, node) =>
      var t := SetLink(s, c, NewLink(node));
      var u := t.(registry := s.registry[node.id := c]);
      TablesAccept(s, c, node);
      TablesSameEnds(t, u);
      forall x ensures OkAt(u, x) { AcceptAt(s, c, node, x); }
    case AgentDown(c) =>
      var l := s.conns[c];
      assert FramesKnown(s, c, l.up) && FramesKnown(s, c, l.down);
      TablesSetLink(s, c, l.(agentUp := false));
      forall x ensures OkAt(SetLink(s, c, l.(agentUp := false)), x) { AgentDownAt(s, c, x); }
    case AgentEnd(c) =>
      TablesAgentEnd(s, c);
      forall x ensures OkAt(AgentEndStep(s, c), x) { AgentEndAt(s, c, x); }
    case GwDown(c) =>
      var l := s.conns[c];
      assert FramesKnown(s, c, l.up) && FramesKnown(s, c, l.down);
      TablesSetLink(s, c, l.(gwUp := false));
      forall x ensures OkAt(SetLink(s, c, l.(gwUp := false)), x) { GwDownAt(s, c, x); }
  }

  /** The views do not read the registry. */
  lemma UnregisterAt(s: State, c: Conn, x: End)
    requires OkAt(s, x) && c in s.conns
    ensures OkAt(Unregister(s, c), x)
  {
    if x in s.ends {
      assert ViewOf(Unregister(s, c), x) == ViewOf(s, x);
    }
  }

  lemma OpenSendKeeps(s: State, c: Conn)
    requires Inv(s) && Wired(s) && c in s.conns && s.conns[c].task.Opening?
    ensures Inv(GwOpenSendStep(s, c))
  {
    assert TaskOk(s, c);
    var task := s.conns[c].task;
    assert s.ends[End(c, task.sid)].peer == Some(task.target);
    TablesGwOpenSend(s, c);
    forall x ensures OkAt(GwOpenSendStep(s, c), x) { GwOpenSendAt(s, c, x); }
  }

  lemma CleanOneKeeps(s: State, c: Conn)
    requires Inv(s) && Wired(s) && c in s.conns && s.conns[c].task.Cleaning? && s.conns[c].task.left != []
    ensures Inv(CleanOneStep(s, c))
  {
    assert TaskOk(s, c);
    var left := s.conns[c].task.left;
    TablesCleanOne(s, c);
    forall x ensures OkAt(CleanOneStep(s, c), x) { CleanOneAt(s, c, left[1..], End(c, left[0]), x); }
  }

  /** A task ends, and its node id is unregistered. */
  lemma EndKeeps(s: State, c: Conn)
    requires Inv(s) && c in s.conns && !s.conns[c].task.Opening?
    requires Tables(Unregister(SetTask(s, c, Ended), c))
    ensures Inv(Unregister(SetTask(s, c, Ended), c))
  {
    forall x ensures OkAt(Unregister(SetTask(s, c, Ended), c), x) {
      StoppingAt(s, c, Ended, x);
      UnregisterAt(SetTask(s, c, Ended), c, x);
    }
  }

  lemma GwEndKeeps(s: State, c: Conn, order: seq<Sid>)
    requires Inv(s) && Enabled(s, GwEnd(c, order))
    ensures Inv(GwEndStep(s, c, order))
  {
    TablesGwEnd(s, c, order);
    if s.conns[c].node.client {
      forall x ensures OkAt(SetTask(s, c, Cleaning(order)), x) { StoppingAt(s, c, Cleaning(order), x); }
    } else {
      EndKeeps(s, c);
    }
  }

  lemma CleanDoneKeeps(s: State, c: Conn)
    requires Inv(s) && Enabled(s, CleanDone(c))
    ensures Inv(Unregister(SetTask(s, c, Ended), c))
  {
    TablesCleanDone(s, c);
    EndKeeps(s, c);
  }

  lemma StepKeepsInv(cfg: Config, s: State, ev: Event)
    requires Inv(s) && Wired(s) && Enabled(s, ev)
    ensures Inv(Step(cfg, s, ev))
  {
    if ev.GwRecv? {
      GwRecvKeeps(cfg, s, ev.c, ev.newSid, ev.usage);
    } else if ev.Accept? || ev.AgentDown? || ev.AgentEnd? || ev.GwDown? {
      ConnectionKeeps(cfg, s, ev);
    } else if ev.GwOpenSend? {
      OpenSendKeeps(s, ev.c);
    } else if ev.GwEnd? {
      GwEndKeeps(s, ev.c, ev.order);
    } else if ev.CleanOne? {
      CleanOneKeeps(s, ev.c);
    } else if ev.CleanDone? {
      CleanDoneKeeps(s, ev.c);
    } else {
      AgentKeeps(cfg, s, ev);
    }
  }

  // ---- runs --------------------------------------------------------------------------------

  /** The events `evs`, in this order, lead from `s` to `t`. */
  ghost predicate Run(cfg: Config, s: State, evs: seq<Event>, t: State)
    decreases |evs|
  {
    if evs == [] then s == t
    else Wired(s) && Enabled(s, evs[0]) && Run(cfg, Step(cfg, s, evs[0]), evs[1..], t)
  }

  ghost predicate Reachable(cfg: Config, s: State) {
    exists evs :: Run(cfg, EMPTY, evs, s)
  }

  lemma {:induction false} RunKeepsInv(cfg: Config, s: State, evs: seq<Event>, t: State)
    requires Inv(s) && Run(cfg, s, evs, t)
    ensures Inv(t)
    decreases |evs|
  {
    if evs != [] {
      StepKeepsInv(cfg, s, evs[0]);
      RunKeepsInv(cfg, Step(cfg, s, evs[0]), evs[1..], t);
    }
  }

  lemma ReachableInv(cfg: Config, s: State)
    requires Reachable(cfg, s)
    ensures Inv(s)
  {
    var evs :| Run(cfg, EMPTY, evs, s);
    RunKeepsInv(cfg, EMPTY, evs, s);
  }

  /** Any enabled step from a reachable state can be taken, and leads to a reachable state. */
  lemma ReachableStep(cfg: Config, s: State, ev: Event)
    requires Reachable(cfg, s) && Enabled(s, ev)
    ensures Wired(s) && Reachable(cfg, Step(cfg, s, ev))
  {
    ReachableInv(cfg, s);
    TablesWired(s);
    var evs :| Run(cfg, EMPTY, evs, s);
    RunSnoc(cfg, EMPTY, evs, s, ev);
  }

  lemma {:induction false} RunSnoc(cfg: Config, s: State, evs: seq<Event>, t: State, ev: Event)
    requires Run(cfg, s, evs, t) && Wired(t) && Enabled(t, ev)
    ensures Run(cfg, s, evs + [ev], Step(cfg, t, ev))
    decreases |evs|
  {
    if evs == [] {
      assert evs + [ev] == [ev] && [ev][1..] == [];
    } else {
      RunSnoc(cfg, Step(cfg, s, evs[0]), evs[1..], t, ev);
      assert (evs + [ev])[1..] == evs[1..] + [ev];
    }
  }
}
