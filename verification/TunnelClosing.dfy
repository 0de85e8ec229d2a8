/** Sessions come to rest: every step that changes where a session stands uses up some of a budget
    that the session got when its client opened it. */
module TunnelClosing {
  import opened Common
  import opened Policy
  import opened Tunnel
  import opened TunnelInvariant
  import opened TunnelSteps
  import opened TunnelLifetimes
  import opened TunnelTables
  import opened TunnelRuns
  import opened TunnelPairing

  /** Where an end stands, apart from the bytes. */
  datatype Standing = Standing(
    started: bool, pump: bool, writer: bool, bridged: bool, pending: bool,
    asks: nat, upCloses: nat, opens: nat, downCloses: nat)

  function StandingOf(v: View): Standing {
    Standing(v.s.started, v.s.pump, v.s.writer, v.bridged, v.pending,
             v.up.opens, v.up.closes, v.down.opens, v.down.closes)
  }

  /** The steps an end can still cause. */
  function Budget(v: View): nat {
    9 * v.up.opens + 6 * One(v.pending) + 5 * v.down.opens + 2 * One(v.s.pump) + 2 * One(v.s.writer)
    + One(v.bridged) + v.up.closes + v.down.closes
  }

  /** The paired end, or the end itself. */
  function Partner(s: State, e: End): End
    requires e in s.ends
  {
    s.ends[e].peer.GetOr(e)
  }

  /** The steps a session can still cause at its two ends. */
  ghost function SessionBudget(s: State, e: End): nat
    requires Peers(s) && e in s.ends
  {
    Budget(ViewOf(s, e)) + if s.ends[e].peer.Some? then Budget(ViewOf(s, Partner(s, e))) else 0
  }

  /** Where a session stands at its two ends. */
  ghost function SessionStanding(s: State, e: End): (Standing, Standing)
    requires Peers(s) && e in s.ends
  {
    (StandingOf(ViewOf(s, e)), StandingOf(ViewOf(s, Partner(s, e))))
  }

  /** Between two states an end spends some of its budget, or stays where it is. */
  ghost predicate Spends(v: View, w: View) {
    Budget(w) < Budget(v) || StandingOf(w) == StandingOf(v)
  }

  /** The same for a session. */
  ghost predicate SessionSpends(s: State, t: State, e: End)
    requires Peers(s) && Peers(t)
  {
    && e in s.ends && e in t.ends
    && (|| SessionBudget(t, e) < SessionBudget(s, e)
        || (SessionBudget(t, e) == SessionBudget(s, e) && SessionStanding(t, e) == SessionStanding(s, e)))
  }

  /** A step that keeps the end's pairing and makes both ends spend, makes the session spend. */
  lemma BothSpend(s: State, t: State, e: End)
    requires Peers(s) && Peers(t) && e in s.ends && e in t.ends && t.ends[e].peer == s.ends[e].peer
    requires Spends(ViewOf(s, e), ViewOf(t, e))
    requires Partner(s, e) in t.ends && Spends(ViewOf(s, Partner(s, e)), ViewOf(t, Partner(s, e)))
    ensures SessionSpends(s, t, e)
  {
    SameStandingSameBudget(ViewOf(s, e), ViewOf(t, e));
    SameStandingSameBudget(ViewOf(s, Partner(s, e)), ViewOf(t, Partner(s, e)));
  }

  lemma SameStandingSameBudget(v: View, w: View)
    ensures StandingOf(v) == StandingOf(w) ==> Budget(v) == Budget(w)
  {
    var a, b := StandingOf(v), StandingOf(w);
    if a == b {
      assert v.s.pump == a.pump == w.s.pump && v.s.writer == a.writer == w.s.writer;
      assert v.up.opens == a.asks == w.up.opens && v.down.opens == a.opens == w.down.opens;
      assert v.up.closes == a.upCloses == w.up.closes && v.down.closes == a.downCloses == w.down.closes;
      assert v.bridged == a.bridged == w.bridged && v.pending == a.pending == w.pending;
    }
  }

  // ---- the agents -------------------------------------------------------------------------

  lemma CloseSpends(v: View, sid: Sid)
    requires v.s.pump || v.s.writer
    ensures Budget(CloseView(v.(s := v.s.(pump := false)), sid)) < Budget(v)
    ensures v.s.writer ==> Budget(CloseView(v, sid)) < Budget(v)
  {
    ClosingCosts(v, sid);
    ClosingCosts(v.(s := v.s.(pump := false)), sid);
  }

  lemma ClosingCosts(v: View, sid: Sid)
    ensures Budget(CloseView(v, sid)) <= Budget(v) + 1 - 2 * One(v.s.writer)
  {
    ClosingKeeps(v, sid);
  }

  lemma ClosingKeeps(v: View, sid: Sid)
    ensures var w := CloseView(v, sid);
      && w.pending == v.pending && w.bridged == v.bridged && w.down == v.down && w.s.pump == v.s.pump && !w.s.writer
      && w.up.opens == v.up.opens && w.up.closes <= v.up.closes + 1
  {
  }

  lemma OpenTargetSpends(v: View, f: Frame, outcome: Outcome)
    requires EndOk(v.(down := Unpopped(v.down, f))) && f.Open?
    ensures Budget(AgentRecvView(v, f, outcome)) < Budget(v.(down := Unpopped(v.down, f)))
  {
    assert !v.client && !v.s.started && !v.s.pump && !v.s.writer && v.down.opens == 0;
  }

  /** The bytes carried and delivered do not enter into where an end stands. */
  lemma BytesDoNotMatter(v: View, sid: Sid, bytes: Bytes, written: Bytes)
    ensures StandingOf(v.(down := Unpopped(v.down, Data(sid, bytes)))) == StandingOf(v)
    ensures StandingOf(v.(s := v.s.(delivered := written))) == StandingOf(v)
  {
  }

  lemma DeliverSpends(v: View, sid: Sid, bytes: Bytes, outcome: Outcome)
    ensures Spends(v, DeliverView(v, sid, bytes, outcome))
  {
    if v.s.writer && outcome.Fails? {
      var written := if outcome.wrote then v.s.delivered + bytes else v.s.delivered;
      DeliverViewFails(v, sid, bytes, outcome, written);
      FailedDeliverySpends(v, sid, bytes, written);
    } else {
      BytesDoNotMatter(v, sid, bytes, v.s.delivered + bytes);
    }
  }

  lemma FailedDeliverySpends(v: View, sid: Sid, bytes: Bytes, written: Bytes)
    requires v.s.writer
    ensures Budget(CloseView(v.(s := v.s.(delivered := written)), sid)) < Budget(v)
  {
    var w := v.(s := v.s.(delivered := written));
    BytesDoNotMatter(v, sid, bytes, written);
    SameStandingSameBudget(v, w);
    CloseSpends(w, sid);
  }

  /** A frame handled at the end it is for. */
  lemma AgentRecvSpends(v: View, f: Frame, outcome: Outcome)
    requires EndOk(v.(down := Unpopped(v.down, f)))
    ensures Spends(v.(down := Unpopped(v.down, f)), AgentRecvView(v, f, outcome))
  {
    match f
    case Open(_, _) => OpenTargetSpends(v, f, outcome);
    case Data(sid, bytes) =>
      BytesDoNotMatter(v, sid, bytes, []);
      SameStandingSameBudget(v, v.(down := Unpopped(v.down, f)));
      DeliverSpends(v, sid, bytes, outcome);
    case Close(_) => ForgetSpends(v, f, outcome);
  }

  lemma ForgetSpends(v: View, f: Frame, outcome: Outcome)
    requires f.Close?
    ensures Budget(AgentRecvView(v, f, outcome)) < Budget(v.(down := Unpopped(v.down, f)))
  {
  }

  /** A step seen by one end: its pairing stays, and it spends or stays where it is. */
  ghost predicate EndSpends(s: State, t: State, x: End) {
    && x in s.ends && x.conn in s.conns && x in t.ends && x.conn in t.conns
    && ViewOf(t, x).s.peer == ViewOf(s, x).s.peer
    && Spends(ViewOf(s, x), ViewOf(t, x))
  }

  lemma AgentRecvEndSpends(s: State, c: Conn, outcome: Outcome, x: End)
    requires Tables(s) && OkAt(s, x) && x in s.ends && c in s.conns && s.conns[c].down != []
    ensures EndSpends(s, AgentRecvStep(s, c, outcome), x)
  {
    var f := s.conns[c].down[0];
    var v := ViewOf(PopDown(s, c), x);
    AgentRecvViews(s, c, outcome, x);
    AgentRecvKnown(s, c, outcome, x);
    BeforeRecv(s, c, x);
    TablesWired(s);
    AgentRecvContinues(s, c, outcome, x);
    if x == End(c, f.sid) {
      AgentRecvSpends(v, f, outcome);
    }
  }

  lemma AgentRecvKnown(s: State, c: Conn, outcome: Outcome, x: End)
    requires Peers(s) && x in s.ends && c in s.conns && s.conns[c].down != []
    ensures x in AgentRecvStep(s, c, outcome).ends && x.conn in AgentRecvStep(s, c, outcome).conns
  {
  }

  lemma PumpDataSpends(v: View, sid: Sid, bytes: Bytes)
    requires v.s.pump
    ensures Spends(v, PumpDataView(v, sid, bytes))
  {
    var w := PumpDataView(v, sid, bytes);
    if v.agentUp {
      assert StandingOf(w) == StandingOf(v);
    } else {
      assert Budget(w) < Budget(v);
    }
  }

  lemma PumpDataEndSpends(s: State, e: End, bytes: Bytes, x: End)
    requires Tables(s) && x in s.ends && e in s.ends && s.ends[e].pump
    ensures EndSpends(s, PumpDataStep(s, e, bytes), x)
  {
    PumpDataViews(s, e, bytes, x);
    if x == e {
      PumpDataSpends(ViewOf(s, e), e.sid, bytes);
    }
  }

  lemma PumpEofEndSpends(s: State, e: End, x: End)
    requires Tables(s) && x in s.ends && e in s.ends && s.ends[e].pump
    ensures EndSpends(s, PumpEofStep(s, e), x)
  {
    PumpEofViews(s, e, x);
    PumpEofKnown(s, e, x);
    if x == e {
      CloseSpends(ViewOf(s, e), e.sid);
    }
  }

  lemma PumpEofKnown(s: State, e: End, x: End)
    requires x in s.ends && x.conn in s.conns && e in s.ends && e.conn in s.conns
    ensures x in PumpEofStep(s, e).ends && x.conn in PumpEofStep(s, e).conns && PumpEofStep(s, e).ends[x].peer == s.ends[x].peer
  {
  }

  lemma LocalOpenEndSpends(s: State, c: Conn, sid: Sid, route: string, x: End)
    requires Tables(s) && x in s.ends && c in s.conns && s.conns[c].node.client && End(c, sid) !in s.ends
    ensures EndSpends(s, LocalOpenStep(s, c, sid, route), x)
  {
    LocalOpenViews(s, c, sid, route, x);
  }

  // ---- connections and tasks --------------------------------------------------------------

  lemma AgentGoneEndSpends(s: State, c: Conn, x: End)
    requires Tables(s) && x in s.ends && c in s.conns
    ensures EndSpends(s, SetLink(s, c, s.conns[c].(agentUp := false)), x)
    ensures EndSpends(s, SetLink(s, c, s.conns[c].(gwUp := false)), x)
  {
    ViewSetLink(s, c, s.conns[c].(agentUp := false), x);
    GwDownViews(s, c, x);
  }

  lemma AgentEndEndSpends(s: State, c: Conn, x: End)
    requires Tables(s) && x in s.ends && c in s.conns
    ensures EndSpends(s, AgentEndStep(s, c), x)
  {
    AgentEndViews(s, c, x);
  }

  lemma AcceptEndSpends(s: State, c: Conn, node: Node, x: End)
    requires Tables(s) && x in s.ends && c !in s.conns
    ensures EndSpends(s, SetLink(s, c, NewLink(node)).(registry := s.registry[node.id := c]), x)
  {
    assert ViewOf(SetLink(s, c, NewLink(node)).(registry := s.registry[node.id := c]), x) == ViewOf(s, x);
  }

  lemma StoppingEndSpends(s: State, c: Conn, task: Task, x: End)
    requires Tables(s) && x in s.ends && c in s.conns && !s.conns[c].task.Opening? && !task.Opening?
    ensures EndSpends(s, SetTask(s, c, task), x)
  {
    ViewSetTask(s, c, task, x);
  }

  lemma UnregisterEndSpends(s: State, c: Conn, x: End)
    requires Peers(s) && x in s.ends && c in s.conns
    ensures EndSpends(s, Unregister(s, c), x)
  {
    assert ViewOf(Unregister(s, c), x) == ViewOf(s, x);
  }

  // ---- cutting a bridge ----------------------------------------------------------------------

  lemma CutSpends(v: View, w: View, sid: Sid, told: bool)
    requires v.bridged && w.bridged
    ensures Budget(CutOwnView(v, told)) + Budget(CutPeerView(w, sid)) < Budget(v) + Budget(w)
    ensures Budget(OrphanView(v)) + Budget(w.(bridged := false)) < Budget(v) + Budget(w)
  {
  }

  lemma UnbridgeSpends(s: State, e: End, x: End)
    requires Tables(s) && Peers(Unbridge(s, e)) && e in s.bridges && x in s.ends
    ensures SessionSpends(s, Unbridge(s, e), x)
  {
    var p := s.bridges[e];
    var t := Unbridge(s, e);
    UnbridgeKnown(s, e, x);
    UnbridgeViews(s, e, x);
    UnbridgeViews(s, e, Partner(s, x));
    PeerUnique(s, e, x);
    if x == e {
      assert Partner(s, e) == p;
      CutSpends(ViewOf(s, e), ViewOf(s, p), p.sid, s.conns[p.conn].gwUp);
    } else if x == p {
      assert Partner(s, p) == e;
      CutSpends(ViewOf(s, e), ViewOf(s, p), p.sid, s.conns[p.conn].gwUp);
    } else {
      assert Partner(s, x) != e && Partner(s, x) != p;
    }
  }

  lemma UnbridgeKnown(s: State, e: End, x: End)
    requires Tables(s) && e in s.bridges && x in s.ends
    ensures var t := Unbridge(s, e);
            x in t.ends && x.conn in t.conns && t.ends[x].peer == s.ends[x].peer
  {
    TablesWired(s);
    UnbridgeContinues(s, e, x);
    UnbridgeTasks(s, e);
  }

  // ---- the gateway's receive step ---------------------------------------------------------------

  lemma AbandonSpends(s: State, e: End, x: End)
    requires Tables(s) && e in s.bridges && x in s.ends && Peers(Abandon(s, e))
    requires !s.conns[s.bridges[e].conn].gwUp
    ensures SessionSpends(s, Abandon(s, e), x)
  {
    var p := s.bridges[e];
    var t := Abandon(s, e);
    AbandonKnown(s, e, x);
    AbandonViews(s, e, x);
    AbandonViews(s, e, Partner(s, x));
    PeerUnique(s, e, x);
    if x == e {
      assert Partner(s, e) == p;
      CutSpends(ViewOf(s, e), ViewOf(s, p), p.sid, false);
    } else if x == p {
      assert Partner(s, p) == e;
      CutSpends(ViewOf(s, e), ViewOf(s, p), p.sid, false);
    } else {
      assert Partner(s, x) != e && Partner(s, x) != p;
    }
  }

  lemma AbandonKnown(s: State, e: End, x: End)
    requires Tables(s) && e in s.bridges && x in s.ends
    ensures var t := Abandon(s, e);
            x in t.ends && x.conn in t.conns && t.ends[x].peer == s.ends[x].peer
  {
    UnbridgeKnown(s, e, x);
  }

  lemma RelayStands(v: View, sid: Sid, bytes: Bytes)
    ensures StandingOf(v.(s := v.s.(relayed := v.s.relayed + bytes))) == StandingOf(v)
    ensures StandingOf(v.(peerRelayed := v.peerRelayed + bytes, down := Pushed(v.down, Data(sid, bytes)))) == StandingOf(v)
  {
  }

  lemma RelayEndSpends(s: State, e: End, bytes: Bytes, x: End)
    requires Tables(s) && e in s.bridges && x in s.ends && s.conns[s.bridges[e].conn].gwUp
    ensures EndSpends(s, Relay(s, e, bytes), x)
  {
    RelayViews(s, e, bytes, x);
    RelayStands(ViewOf(s, x), x.sid, bytes);
  }

  /** Taking a frame off a channel uses up what the frame was worth. */
  lemma PopUpSpends(s: State, c: Conn, x: End)
    requires Tables(s) && x in s.ends && c in s.conns && s.conns[c].up != [] && Peers(PopUp(s, c))
    ensures EndSpends(s, PopUp(s, c), x)
    ensures x == End(c, s.conns[c].up[0].sid) && s.conns[c].up[0].Open? ==>
              Budget(ViewOf(s, x)) == Budget(ViewOf(PopUp(s, c), x)) + 9
  {
    ViewPopUp(s, c, x);
  }

  lemma RefuseSpends(t: State, e: End, x: End)
    requires Tables(t) && e in t.ends && t.ends[e].peer.None? && x in t.ends
    requires t.conns[e.conn].task.Serving? && Peers(Refuse(t, e))
    ensures x in Refuse(t, e).ends && Refuse(t, e).ends[x].peer == t.ends[x].peer
    ensures x != e ==> EndSpends(t, Refuse(t, e), x)
    ensures Budget(ViewOf(Refuse(t, e), e)) <= Budget(ViewOf(t, e)) + 1
  {
    if t.conns[e.conn].gwUp {
      TellViews(t, e, x);
      TellViews(t, e, e);
    } else {
      LeavingViews(t, e.conn, x);
      LeavingViews(t, e.conn, e);
    }
  }

  lemma OpenedSpends(t: State, e: End, p: End)
    requires Tables(t) && e in t.ends && t.ends[e].peer.None? && p !in t.ends && Tables(Opened(t, e, p))
    requires p.conn in t.conns && !t.conns[p.conn].node.client && t.conns[e.conn].node.client
    requires t.conns[e.conn].task.Serving? && !t.conns[p.conn].task.Opening?
    requires ViewOf(t, e).pending == false && !ViewOf(t, e).bridged
    ensures Opened(t, e, p).ends[e].peer == Some(p)
    ensures SessionBudget(Opened(t, e, p), e) == Budget(ViewOf(t, e)) + 8
  {
    OpenedClientView(t, e, p);
    OpenedServerView(t, e, p);
  }

  // ---- every step ---------------------------------------------------------------------------------

  lemma BothEndsSpend(s: State, t: State, e: End)
    requires Peers(s) && Peers(t) && e in s.ends && forall x :: x in s.ends ==> EndSpends(s, t, x)
    ensures SessionSpends(s, t, e)
  {
    assert EndSpends(s, t, e) && EndSpends(s, t, Partner(s, e));
    BothSpend(s, t, e);
  }

  lemma Then(s: State, t: State, u: State, e: End)
    requires Peers(s) && Peers(t) && Peers(u) && SessionSpends(s, t, e) && SessionSpends(t, u, e)
    ensures SessionSpends(s, u, e)
  {
  }

  /** The asking end's step: 9 for the question, against at most 8 for what it leads to. */
  lemma AskerSpends(s: State, t: State, u: State, e: End)
    requires Peers(s) && Peers(t) && Peers(u) && e in s.ends && e in t.ends && e in u.ends && s.ends[e].peer.None?
    requires Budget(ViewOf(s, e)) == Budget(ViewOf(t, e)) + 9
    requires SessionBudget(u, e) <= Budget(ViewOf(t, e)) + 8
    ensures SessionSpends(s, u, e)
  {
  }

  lemma AcceptedSpends(s: State, c: Conn, t: State, p: End, x: End)
    requires Tables(s) && c in s.conns && s.conns[c].up != [] && s.conns[c].up[0].Open? && t == PopUp(s, c) && Tables(t)
    requires var e := End(c, s.conns[c].up[0].sid);
             && e in t.ends && t.ends[e].peer.None? && !ViewOf(t, e).pending && !ViewOf(t, e).bridged
             && t.conns[c].task.Serving? && t.conns[c].node.client && Tables(Opened(t, e, p))
    requires p !in t.ends && p.conn in t.conns && !t.conns[p.conn].node.client && !t.conns[p.conn].task.Opening?
    requires x in s.ends && SessionSpends(s, t, x)
    ensures SessionSpends(s, Opened(t, End(c, s.conns[c].up[0].sid), p), x)
  {
    var e := End(c, s.conns[c].up[0].sid);
    var u := Opened(t, e, p);
    if x == e {
      PopUpSpends(s, c, e);
      OpenedSpends(t, e, p);
      AskerSpends(s, t, u, e);
    } else {
      OpenedLeavesOthers(t, e, p, x);
      Then(s, t, u, x);
    }
  }

  lemma RefusedSpends(s: State, c: Conn, t: State, x: End)
    requires Tables(s) && c in s.conns && s.conns[c].up != [] && s.conns[c].up[0].Open? && t == PopUp(s, c) && Tables(t)
    requires var e := End(c, s.conns[c].up[0].sid);
             && e in t.ends && t.ends[e].peer.None? && t.conns[c].task.Serving? && Peers(Refuse(t, e))
    requires x in s.ends && SessionSpends(s, t, x)
    ensures SessionSpends(s, Refuse(t, End(c, s.conns[c].up[0].sid)), x)
  {
    var e := End(c, s.conns[c].up[0].sid);
    var u := Refuse(t, e);
    RefuseSpends(t, e, x);
    if x == e {
      PopUpSpends(s, c, e);
      AskerSpends(s, t, u, e);
    } else {
      assert Partner(t, x) != e;
      RefuseSpends(t, e, Partner(t, x));
      BothSpend(t, u, x);
      Then(s, t, u, x);
    }
  }

  lemma OpenRoutedSpends(cfg: Config, s: State, c: Conn, newSid: Sid, usage: Usage, x: End)
    requires Inv(s) && Wired(s) && Enabled(s, GwRecv(c, newSid, usage)) && s.conns[c].up[0].Open? && x in s.ends
    ensures Inv(GwRecvStep(cfg, s, c, newSid, usage)) && SessionSpends(s, GwRecvStep(cfg, s, c, newSid, usage), x)
  {
    var f := s.conns[c].up[0];
    var e := End(c, f.sid);
    var t := PopUp(s, c);
    GwRecvKeeps(cfg, s, c, newSid, usage);
    TablesPopUp(s, c);
    PopUpBefore(s, c, e);
    ClientsAsk(t, e, f);
    AskerIsUnpaired(t, e, f);
    forall y | y in s.ends ensures EndSpends(s, t, y) { PopUpSpends(s, c, y); }
    BothEndsSpend(s, t, x);
    if Routable(t, f.route) && RouteDecision(cfg, t, c, f.route, usage).allow {
      var p := End(t.registry[f.route], newSid);
      assert TaskOk(t, p.conn);
      AcceptedSpends(s, c, t, p, x);
    } else {
      RefusedSpends(s, c, t, x);
    }
  }

  lemma AskerIsUnpaired(t: State, e: End, f: Frame)
    requires OkBefore(t, e, f, e) && f.Open? && e in t.ends
    ensures t.ends[e].peer.None? && !ViewOf(t, e).pending && !ViewOf(t, e).bridged
  {
  }

  lemma OpenedLeavesOthers(t: State, e: End, p: End, x: End)
    requires Tables(t) && e in t.ends && t.ends[e].peer.None? && p !in t.ends && x in t.ends && x != e
    requires t.conns[e.conn].task.Serving? && Peers(Opened(t, e, p))
    ensures SessionSpends(t, Opened(t, e, p), x)
  {
    var y := Partner(t, x);
    assert y != e && y in t.ends;
    OpenedOtherView(t, e, p, x);
    OpenedOtherView(t, e, p, y);
    BothSpend(t, Opened(t, e, p), x);
  }

  lemma PoppingSpends(s: State, c: Conn, x: End)
    requires Tables(s) && c in s.conns && s.conns[c].up != [] && x in s.ends && Tables(PopUp(s, c))
    ensures SessionSpends(s, PopUp(s, c), x)
  {
    forall y | y in s.ends ensures EndSpends(s, PopUp(s, c), y) { PopUpSpends(s, c, y); }
    BothEndsSpend(s, PopUp(s, c), x);
  }

  lemma RelaySpends(t: State, e: End, bytes: Bytes, x: End)
    requires Tables(t) && e in t.bridges && x in t.ends && t.conns[t.bridges[e].conn].gwUp && Tables(Relay(t, e, bytes))
    ensures SessionSpends(t, Relay(t, e, bytes), x)
  {
    forall y | y in t.ends ensures EndSpends(t, Relay(t, e, bytes), y) { RelayEndSpends(t, e, bytes, y); }
    BothEndsSpend(t, Relay(t, e, bytes), x);
  }

  lemma RelayOrCutSpends(cfg: Config, s: State, c: Conn, newSid: Sid, usage: Usage, x: End)
    requires Inv(s) && Wired(s) && Enabled(s, GwRecv(c, newSid, usage)) && !s.conns[c].up[0].Open? && x in s.ends
    ensures Inv(GwRecvStep(cfg, s, c, newSid, usage)) && SessionSpends(s, GwRecvStep(cfg, s, c, newSid, usage), x)
  {
    var f := s.conns[c].up[0];
    var e := End(c, f.sid);
    var t := PopUp(s, c);
    var u := GwRecvStep(cfg, s, c, newSid, usage);
    GwRecvKeeps(cfg, s, c, newSid, usage);
    TablesPopUp(s, c);
    PoppingSpends(s, c, x);
    if e in t.bridges {
      if f.Close? {
        UnbridgeSpends(t, e, x);
      } else if t.conns[t.bridges[e].conn].gwUp {
        RelaySpends(t, e, f.bytes, x);
      } else {
        AbandonSpends(t, e, x);
      }
      Then(s, t, u, x);
    }
  }

  lemma ServingSpends(s: State, c: Conn, x: End)
    requires Tables(s) && Announcing(s, c) && x in s.ends && Tables(SetTask(s, c, Serving))
    ensures SessionSpends(s, SetTask(s, c, Serving), x)
  {
    forall y | y in s.ends ensures EndSpends(s, SetTask(s, c, Serving), y) { ServingEndSpends(s, c, y); }
    BothEndsSpend(s, SetTask(s, c, Serving), x);
  }

  lemma OpenAbandonSpends(s: State, c: Conn, x: End)
    requires Tables(s) && Announcing(s, c) && x in s.ends && !s.conns[s.conns[c].task.target.conn].gwUp
    requires Peers(Abandon(SetTask(s, c, Serving), End(c, s.conns[c].task.sid)))
    ensures SessionSpends(s, Abandon(SetTask(s, c, Serving), End(c, s.conns[c].task.sid)), x)
  {
    var t := SetTask(s, c, Serving);
    TablesSetTask(s, c, Serving);
    ServingSpends(s, c, x);
    AbandonSpends(t, End(c, s.conns[c].task.sid), x);
    Then(s, t, Abandon(t, End(c, s.conns[c].task.sid)), x);
  }

  lemma ServingEndSpends(s: State, c: Conn, y: End)
    requires Tables(s) && Announcing(s, c) && y in s.ends
    ensures EndSpends(s, SetTask(s, c, Serving), y)
  {
    ServingViews(s, c, y);
  }

  lemma OpenSendSpends(s: State, c: Conn, x: End)
    requires Tables(s) && Wired(s) && Announcing(s, c) && x in s.ends
    requires Tables(GwOpenSendStep(s, c))
    ensures SessionSpends(s, GwOpenSendStep(s, c), x)
  {
    var p := s.conns[c].task.target;
    var u := GwOpenSendStep(s, c);
    if s.conns[p.conn].gwUp {
      forall y | y in s.ends ensures EndSpends(s, u, y) { AnnounceEndSpends(s, c, y); }
      BothEndsSpend(s, u, x);
    } else {
      OpenAbandonSpends(s, c, x);
    }
  }

  lemma AnnounceEndSpends(s: State, c: Conn, y: End)
    requires Tables(s) && Announcing(s, c) && y in s.ends && s.conns[s.conns[c].task.target.conn].gwUp
    ensures EndSpends(s, SendDown(SetTask(s, c, Serving), s.conns[c].task.target.conn,
                                  Open(s.conns[c].task.target.sid, "")), y)
  {
    var p := s.conns[c].task.target;
    ServingViews(s, c, y);
    ViewSendDown(SetTask(s, c, Serving), p.conn, Open(p.sid, ""), y);
  }

  lemma CleanOneSpends(s: State, c: Conn, x: End)
    requires Inv(s) && Wired(s) && Enabled(s, CleanOne(c)) && x in s.ends && Inv(CleanOneStep(s, c))
    ensures SessionSpends(s, CleanOneStep(s, c), x)
  {
    var left := s.conns[c].task.left;
    var e := End(c, left[0]);
    var t := Unbridge(s, e);
    var u := CleanOneStep(s, c);
    assert TaskOk(s, c);
    if e in s.bridges {
      ClientAnnounced(s, e);
    }
    TablesUnbridge(s, e);
    UnbridgeTasks(s, e);
    forall y | y in t.ends ensures EndSpends(t, u, y) { StoppingEndSpends(t, c, Cleaning(left[1..]), y); }
    UnbridgeTablesSpends(s, e, x);
    BothEndsSpend(t, u, x);
    Then(s, t, u, x);
  }

  lemma UnbridgeTablesSpends(s: State, e: End, x: End)
    requires Tables(s) && x in s.ends && Peers(Unbridge(s, e))
    ensures SessionSpends(s, Unbridge(s, e), x)
  {
    if e in s.bridges {
      UnbridgeSpends(s, e, x);
    }
  }

  lemma TaskEndSpends(s: State, c: Conn, order: seq<Sid>, x: End)
    requires Inv(s) && Enabled(s, GwEnd(c, order)) && x in s.ends
    ensures EndSpends(s, GwEndStep(s, c, order), x)
  {
    if s.conns[c].node.client {
      StoppingEndSpends(s, c, Cleaning(order), x);
    } else {
      EndedEndSpends(s, c, x);
    }
  }

  lemma EndedEndSpends(s: State, c: Conn, x: End)
    requires Tables(s) && x in s.ends && c in s.conns && !s.conns[c].task.Opening?
    ensures EndSpends(s, Unregister(SetTask(s, c, Ended), c), x)
  {
    ViewSetTask(s, c, Ended, x);
    PeersSetLink(s, c, s.conns[c].(task := Ended));
    UnregisterEndSpends(SetTask(s, c, Ended), c, x);
  }

  /** Every step of the system leaves a session where it stands, or uses up some of its budget. */
  lemma SessionNeverRegains(cfg: Config, s: State, ev: Event, e: End)
    requires Inv(s) && Wired(s) && Enabled(s, ev) && e in s.ends
    ensures Inv(Step(cfg, s, ev)) && SessionSpends(s, Step(cfg, s, ev), e)
  {
    StepKeepsInv(cfg, s, ev);
    if ev.GwRecv? {
      if s.conns[ev.c].up[0].Open? {
        OpenRoutedSpends(cfg, s, ev.c, ev.newSid, ev.usage, e);
      } else {
        RelayOrCutSpends(cfg, s, ev.c, ev.newSid, ev.usage, e);
      }
    } else if ev.GwOpenSend? {
      AnnouncingTask(s, ev.c);
      OpenSendSpends(s, ev.c, e);
    } else if ev.CleanOne? {
      CleanOneSpends(s, ev.c, e);
    } else {
      QuietSessionSpends(cfg, s, ev, e);
    }
  }

  lemma AnnouncingTask(s: State, c: Conn)
    requires Tables(s) && c in s.conns && s.conns[c].task.Opening?
    ensures Announcing(s, c)
  {
    assert TaskOk(s, c);
    assert s.ends[End(c, s.conns[c].task.sid)].peer == Some(s.conns[c].task.target);
  }

  lemma QuietSessionSpends(cfg: Config, s: State, ev: Event, e: End)
    requires Inv(s) && Wired(s) && Enabled(s, ev) && e in s.ends && Peers(Step(cfg, s, ev))
    requires !ev.GwRecv? && !ev.GwOpenSend? && !ev.CleanOne?
    ensures SessionSpends(s, Step(cfg, s, ev), e)
  {
    forall x | x in s.ends ensures EndSpends(s, Step(cfg, s, ev), x) { QuietStepSpends(cfg, s, ev, x); }
    BothEndsSpend(s, Step(cfg, s, ev), e);
  }

  /** The steps that do not touch the bridge table. */
  lemma QuietStepSpends(cfg: Config, s: State, ev: Event, x: End)
    requires Inv(s) && Wired(s) && Enabled(s, ev) && x in s.ends
    requires !ev.GwRecv? && !ev.GwOpenSend? && !ev.CleanOne?
    ensures EndSpends(s, Step(cfg, s, ev), x)
  {
    match ev
    case Accept(c, node) => AcceptEndSpends(s, c, node, x);
    case LocalOpen(c, sid, route) => LocalOpenEndSpends(s, c, sid, route, x);
    case PumpData(a, bytes) => PumpDataEndSpends(s, a, bytes, x);
    case PumpEof(a) => PumpEofEndSpends(s, a, x);
    case AgentRecv(c, outcome) => assert OkAt(s, x); AgentRecvEndSpends(s, c, outcome, x);
    case AgentDown(c) => AgentGoneEndSpends(s, c, x);
    case AgentEnd(c) => AgentEndEndSpends(s, c, x);
    case GwDown(c) => AgentGoneEndSpends(s, c, x);
    case GwEnd(c, order) => TaskEndSpends(s, c, order, x);
    case CleanDone(c) => EndedEndSpends(s, c, x);
  }

  // ---- whole runs ------------------------------------------------------------------------------------

  /** How many steps of a run change where the session of `e` stands. */
  ghost function Changes(cfg: Config, s: State, evs: seq<Event>, t: State, e: End): nat
    requires Inv(s) && Run(cfg, s, evs, t) && e in s.ends
    decreases |evs|
  {
    if evs == [] then 0
    else
      StepKeepsInv(cfg, s, evs[0]);
      SessionNeverRegains(cfg, s, evs[0], e);
      var u := Step(cfg, s, evs[0]);
      (if SessionStanding(u, e) == SessionStanding(s, e) then 0 else 1) + Changes(cfg, u, evs[1..], t, e)
  }

  /** Over any run, however long, the session of `e` changes where it stands at most as often as its
      budget allows. */
  lemma {:induction false} ChangesWithinBudget(cfg: Config, s: State, evs: seq<Event>, t: State, e: End)
    requires Inv(s) && Run(cfg, s, evs, t) && e in s.ends
    ensures Changes(cfg, s, evs, t, e) <= SessionBudget(s, e)
    decreases |evs|
  {
    if evs != [] {
      StepKeepsInv(cfg, s, evs[0]);
      SessionNeverRegains(cfg, s, evs[0], e);
      ChangesWithinBudget(cfg, Step(cfg, s, evs[0]), evs[1..], t, e);
    }
  }

  /** Opening, relaying and closing a session takes at most 13 steps in all, over any run that goes
      on from its opening: session_open and session_close frames and cuts cannot chase each other. */
  lemma AtMostThirteenSteps(cfg: Config, s: State, c: Conn, sid: Sid, route: string, evs: seq<Event>, t: State)
    requires Reachable(cfg, s) && Enabled(s, LocalOpen(c, sid, route))
    requires Run(cfg, LocalOpenStep(s, c, sid, route), evs, t)
    ensures Inv(LocalOpenStep(s, c, sid, route))
    ensures Changes(cfg, LocalOpenStep(s, c, sid, route), evs, t, End(c, sid)) <= 13
  {
    ReachableInv(cfg, s);
    TablesWired(s);
    StepKeepsInv(cfg, s, LocalOpen(c, sid, route));
    NewSessionBudget(s, c, sid, route);
    ChangesWithinBudget(cfg, LocalOpenStep(s, c, sid, route), evs, t, End(c, sid));
  }

  lemma NewSessionBudget(s: State, c: Conn, sid: Sid, route: string)
    requires Tables(s) && c in s.conns && s.conns[c].node.client && End(c, sid) !in s.ends
    requires Peers(LocalOpenStep(s, c, sid, route))
    ensures End(c, sid) in LocalOpenStep(s, c, sid, route).ends
    ensures SessionBudget(LocalOpenStep(s, c, sid, route), End(c, sid)) <= 13
  {
    LocalOpenViews(s, c, sid, route, End(c, sid));
    assert End(c, sid) !in s.bridges;
  }
}
