/** Two runs that show where the tunnel's promises end. */
module TunnelExamples {
  import opened Common
  import opened Policy
  import opened Tunnel
  import opened TunnelLifetimes
  import opened TunnelRuns
  import opened TunnelRecount
  import opened TunnelQuota

  const USER := Identity("alice", ["user"], false)
  const SERVER_NODE := Node("res-box", false, Identity("", [], true))
  const CLIENT_NODE := Node("client", true, USER)
  const BOX := Resource("box", "dummy", None, None, true, None)
  const IDLE := Usage(map[], map[], 0.0, 0.0)

  /** One concurrent session per identity, one box. */
  function OneEach(): Config {
    Config(GlobalPolicy(NO_SECURITY, "admin", "user", None, NO_QUOTAS.(maxConcurrent := Some(1)), map[]),
           map["box" := BOX], (p, t) => None)
  }

  lemma BoxEntry()
    ensures CatalogEntry(OneEach(), "res-box") == Some(BOX)
  {
    assert "res-box"[..4] == "res-" && "res-box"[4..] == "box";
  }

  /** The policy lets alice route to the box when it counts none of her sessions. */
  lemma AllowedWhenUncounted(s: State, c: Conn)
    requires c in s.conns && s.conns[c].node.identity == USER && SessionsOf(s, "alice") == {}
    ensures RouteDecision(OneEach(), s, c, "res-box", IDLE).allow
  {
    BoxEntry();
    var g := OneEach().glob;
    assert !IsAdmin(g, USER);
    var u := IDLE.(concurrent := Concurrent(s));
    assert Count(u.concurrent, "alice") == 0;
    assert RoleCheck(g, RoleOf(g, USER.roles), "route", Some("dummy")).None?;
    assert ResourceCheck(g, USER, RoleOf(g, USER.roles), BOX, u).None?;
  }

  // ---- one more step of a run ------------------------------------------------------------

  lemma Next(cfg: Config, s: State, ev: Event, t: State)
    requires Reachable(cfg, s) && Enabled(s, ev)
    requires Wired(s) ==> Step(cfg, s, ev) == t
    ensures Reachable(cfg, t)
  {
    ReachableStep(cfg, s, ev);
  }

  lemma NextAccept(cfg: Config, s: State, c: Conn, node: Node, t: State)
    requires Reachable(cfg, s) && c !in s.conns
    requires t == State(s.conns[c := NewLink(node)], s.bridges, s.registry[node.id := c], s.ends)
    ensures Reachable(cfg, t)
  {
    Next(cfg, s, Accept(c, node), t);
  }

  lemma NextLocalOpen(cfg: Config, s: State, c: Conn, sid: Sid, route: string, t: State)
    requires Reachable(cfg, s) && c in s.conns && s.conns[c].node.client && End(c, sid) !in s.ends
    requires t == LocalOpenStep(s, c, sid, route)
    ensures Reachable(cfg, t)
  {
    Next(cfg, s, LocalOpen(c, sid, route), t);
  }

  lemma NextGwRecv(cfg: Config, s: State, c: Conn, newSid: Sid, t: State)
    requires Reachable(cfg, s) && c in s.conns && s.conns[c].task.Serving? && s.conns[c].up != []
    requires forall d :: End(d, newSid) !in s.ends
    requires Wired(s) ==> GwRecvStep(cfg, s, c, newSid, IDLE) == t
    ensures Reachable(cfg, t)
  {
    Next(cfg, s, GwRecv(c, newSid, IDLE), t);
  }

  lemma NextAgentRecv(cfg: Config, s: State, c: Conn, t: State)
    requires Reachable(cfg, s) && c in s.conns && s.conns[c].agentLoop && s.conns[c].down != []
    requires t == AgentRecvStep(s, c, Fine)
    ensures Reachable(cfg, t)
  {
    Next(cfg, s, AgentRecv(c, Fine), t);
  }

  lemma NextPumpData(cfg: Config, s: State, e: End, bytes: Bytes, t: State)
    requires Reachable(cfg, s) && e in s.ends && e.conn in s.conns && s.ends[e].pump && bytes != []
    requires t == PumpDataStep(s, e, bytes)
    ensures Reachable(cfg, t)
  {
    Next(cfg, s, PumpData(e, bytes), t);
  }

  lemma NextGwDown(cfg: Config, s: State, c: Conn, t: State)
    requires Reachable(cfg, s) && c in s.conns && s.conns[c].gwUp
    requires t == SetLink(s, c, s.conns[c].(gwUp := false))
    ensures Reachable(cfg, t)
  {
    Next(cfg, s, GwDown(c), t);
  }

  const SERVER: Link := NewLink(SERVER_NODE)
  const CLIENT: Link := NewLink(CLIENT_NODE)
  const ASKED: Link := CLIENT.(up := [Open(7, "res-box")])
  const MINE := FRESH.(started := true, writer := true, pump := true)

  // ---- two clients under one node id: the second registration hides the first ---------------------

  const TWO := State(map[0 := SERVER, 1 := CLIENT, 2 := CLIENT], map[], map["res-box" := 0, "client" := 2], map[])

  const ALONE := State(map[0 := SERVER], map[], map["res-box" := 0], map[])
  const ONE := State(map[0 := SERVER, 1 := CLIENT], map[], map["res-box" := 0, "client" := 1], map[])

  lemma ServerConnects(cfg: Config)
    ensures Reachable(cfg, ALONE)
  {
    assert Run(cfg, EMPTY, [], EMPTY);
    NextAccept(cfg, EMPTY, 0, SERVER_NODE, ALONE);
  }

  lemma OneConnects(cfg: Config)
    ensures Reachable(cfg, ONE)
  {
    ServerConnects(cfg);
    NextAccept(cfg, ALONE, 1, CLIENT_NODE, ONE);
  }

  lemma TwoConnect(cfg: Config)
    ensures Reachable(cfg, TWO)
  {
    OneConnects(cfg);
    NextAccept(cfg, ONE, 2, CLIENT_NODE, TWO);
  }

  /** Both clients have asked for the box. */
  const TWO_ASK := TWO.(conns := map[0 := SERVER, 1 := ASKED, 2 := ASKED],
                        ends := map[End(1, 7) := MINE, End(2, 7) := MINE])

  const FIRST_ASKS := TWO.(conns := map[0 := SERVER, 1 := ASKED, 2 := CLIENT], ends := map[End(1, 7) := MINE])

  lemma AsksInTurn()
    ensures LocalOpenStep(TWO, 1, 7, "res-box") == FIRST_ASKS
    ensures LocalOpenStep(FIRST_ASKS, 2, 7, "res-box") == TWO_ASK
  {
    assert [] + [Open(7, "res-box")] == [Open(7, "res-box")];
  }

  lemma TwoAsk(cfg: Config)
    ensures Reachable(cfg, TWO_ASK)
  {
    TwoConnect(cfg);
    AsksInTurn();
    NextLocalOpen(cfg, TWO, 1, 7, "res-box", FIRST_ASKS);
    NextLocalOpen(cfg, FIRST_ASKS, 2, 7, "res-box", TWO_ASK);
  }

  /** The gateway grants whoever asks while it counts no session of alice. */
  lemma GrantWhenUncounted(s: State, c: Conn, newSid: Sid)
    requires c in s.conns && s.conns[c].node == CLIENT_NODE && s.conns[c].up == [Open(7, "res-box")]
    requires Wired(s) && End(c, 7) in s.ends
    requires Routable(s, "res-box") && SessionsOf(s, "alice") == {}
    ensures GwRecvStep(OneEach(), s, c, newSid, IDLE)
            == Opened(PopUp(s, c), End(c, 7), End(s.registry["res-box"], newSid))
  {
    var t := PopUp(s, c);
    assert SessionsOf(t, "alice") == {};
    AllowedWhenUncounted(t, c);
  }

  /** The first client's session is granted; the gateway finds nobody's id over it. */
  function FirstGranted(): State {
    Opened(PopUp(TWO_ASK, 1), End(1, 7), End(0, 100))
  }

  lemma NobodyCounted()
    ensures SessionsOf(TWO_ASK, "alice") == {}
    ensures SessionsOf(ONE_ASKS, "alice") == {}
  {
  }

  /** The registry leads to the second client; the session is the first's. */
  lemma FirstIsOverlooked()
    ensures SessionsOf(FirstGranted(), "alice") == {}
  {
  }

  lemma FirstIsGranted()
    ensures Reachable(OneEach(), FirstGranted())
  {
    TwoAsk(OneEach());
    NobodyCounted();
    if Wired(TWO_ASK) {
      GrantWhenUncounted(TWO_ASK, 1, 100);
    }
    NextGwRecv(OneEach(), TWO_ASK, 1, 100, FirstGranted());
  }

  function SecondGranted(): State {
    Opened(PopUp(FirstGranted(), 2), End(2, 7), End(0, 200))
  }

  lemma SecondMayAsk()
    ensures var s := FirstGranted();
      && 2 in s.conns && s.conns[2].task.Serving? && s.conns[2].up == [Open(7, "res-box")] && s.conns[2].node == CLIENT_NODE
      && (forall d :: End(d, 200) !in s.ends) && End(2, 7) in s.ends
      && Routable(s, "res-box") && s.registry["res-box"] == 0
  {
  }

  lemma SecondIsGranted()
    ensures Reachable(OneEach(), SecondGranted())
  {
    FirstIsGranted();
    FirstIsOverlooked();
    SecondMayAsk();
    if Wired(FirstGranted()) {
      GrantWhenUncounted(FirstGranted(), 2, 200);
    }
    NextGwRecv(OneEach(), FirstGranted(), 2, 200, SecondGranted());
  }

  /** Why the quota needs distinct node ids: with two connections of alice under the node id "client"
      (the default of the client program) and a ceiling of one session, both get one. */
  lemma SharedNodeIdBreaksTheQuota()
    ensures UnderQuota(OneEach().glob, USER, 1) && CatalogEntry(OneEach(), "res-box").Some?
    ensures exists s :: Reachable(OneEach(), s) && |AllSessionsOf(s, "alice")| == 2
  {
    BoxEntry();
    CeilingIsOne();
    SecondIsGranted();
    TwoSessions();
  }

  lemma CeilingIsOne()
    ensures UnderQuota(OneEach().glob, USER, 1)
  {
  }

  lemma TwoSessions()
    ensures AllSessionsOf(SecondGranted(), "alice") == {End(1, 7), End(2, 7)}
  {
  }

  // ---- a server left holding a session ---------------------------------------------------------------

  const ONE_ASKS := ONE.(conns := map[0 := SERVER, 1 := ASKED], ends := map[End(1, 7) := MINE])

  /** The session is bridged and announced; the server's target has sent a byte; then the gateway's
      side of the client's connection fails. */
  const CLIENT_END := MINE.(peer := Some(End(0, 100)))
  const SERVER_END := MINE.(peer := Some(End(1, 7)))
  const BRIDGED := map[End(1, 7) := End(0, 100), End(0, 100) := End(1, 7)]

  function Granted(): State {
    Opened(PopUp(ONE_ASKS, 1), End(1, 7), End(0, 100))
  }

  const RUNNING := State(map[0 := SERVER, 1 := CLIENT], BRIDGED, ONE.registry,
                         map[End(1, 7) := CLIENT_END, End(0, 100) := SERVER_END])

  const ANSWERING := RUNNING.(
    conns := map[0 := SERVER.(up := [Data(100, [42])]), 1 := CLIENT.(gwUp := false)],
    ends := map[End(1, 7) := CLIENT_END, End(0, 100) := SERVER_END.(sent := [42])])

  lemma SessionIsAsked()
    ensures Reachable(OneEach(), ONE_ASKS)
  {
    OneConnects(OneEach());
    assert [] + [Open(7, "res-box")] == [Open(7, "res-box")];
    NextLocalOpen(OneEach(), ONE, 1, 7, "res-box", ONE_ASKS);
  }

  lemma SessionIsGranted()
    ensures Reachable(OneEach(), Granted())
  {
    SessionIsAsked();
    NobodyCounted();
    if Wired(ONE_ASKS) {
      GrantWhenUncounted(ONE_ASKS, 1, 100);
    }
    NextGwRecv(OneEach(), ONE_ASKS, 1, 100, Granted());
  }

  lemma SessionIsAnnounced()
    ensures Reachable(OneEach(), GwOpenSendOf(Granted()))
  {
    SessionIsGranted();
    Next(OneEach(), Granted(), GwOpenSend(1), GwOpenSendOf(Granted()));
  }

  /** Announcing the session of client 1. */
  function GwOpenSendOf(s: State): State
    requires 1 in s.conns && 0 in s.conns
  {
    SendDown(SetTask(s, 1, Serving), 0, Open(100, ""))
  }

  lemma SessionRuns()
    ensures Reachable(OneEach(), RUNNING)
  {
    SessionIsAnnounced();
    AnnouncedIs();
    TargetIsOpened();
    NextAgentRecv(OneEach(), ANNOUNCED, 0, RUNNING);
  }

  const ANNOUNCED := State(map[0 := SERVER.(down := [Open(100, "")]), 1 := CLIENT], BRIDGED, ONE.registry,
                           map[End(1, 7) := CLIENT_END, End(0, 100) := FRESH.(peer := Some(End(1, 7)))])

  lemma GrantedIs()
    ensures Granted().conns == map[0 := SERVER, 1 := CLIENT.(task := Opening(7, End(0, 100)))]
    ensures Granted() == ANNOUNCED.(conns := Granted().conns)
  {
    assert [Open(7, "res-box")][1..] == [];
  }

  lemma AnnouncedIs()
    ensures GwOpenSendOf(Granted()) == ANNOUNCED
  {
    GrantedIs();
    assert [] + [Open(100, "")] == [Open(100, "")];
  }

  lemma TargetIsOpened()
    ensures AgentRecvStep(ANNOUNCED, 0, Fine) == RUNNING
  {
    assert [Open(100, "")][1..] == [];
  }

  lemma TargetAnswers()
    ensures Reachable(OneEach(), ANSWERING)
  {
    TargetSends();
    NextGwDown(OneEach(), SENDING, 1, ANSWERING);
  }

  const SENDING := RUNNING.(conns := map[0 := SERVER.(up := [Data(100, [42])]), 1 := CLIENT],
                            ends := map[End(1, 7) := CLIENT_END, End(0, 100) := SERVER_END.(sent := [42])])

  lemma TargetSends()
    ensures Reachable(OneEach(), SENDING)
  {
    SessionRuns();
    RunningSends();
    NextPumpData(OneEach(), RUNNING, End(0, 100), [42], SENDING);
  }

  lemma RunningSends()
    ensures PumpDataStep(RUNNING, End(0, 100), [42]) == SENDING
  {
    assert [] + [Data(100, [42])] == [Data(100, [42])];
    var byte: Byte := 42;
    assert [] + [byte] == [byte];
  }

  const LEFT_BEHIND := State(map[0 := SERVER, 1 := CLIENT.(gwUp := false)], map[], ONE.registry,
                             map[End(1, 7) := CLIENT_END, End(0, 100) := SERVER_END.(sent := [42], orphan := true)])

  /** A live, idle connection whose agent holds the writer of a session that is bridged nowhere. */
  ghost predicate HeldForNobody(s: State, e: End) {
    && e in s.ends && s.ends[e].writer && e !in s.bridges
    && e.conn in s.conns && s.conns[e.conn].agentUp && s.conns[e.conn].gwUp
    && s.conns[e.conn].up == [] && s.conns[e.conn].down == []
  }

  /** A client's disconnect closes its sessions at the server, unless the server's own data meets the
      dead connection first: then the gateway cuts the bridge and tells only the client. The server's
      connection is up, its channels are empty, and it goes on holding the session. */
  lemma ServerIsNotToldWhenItsDataFindsTheClientGone()
    ensures exists s, e :: Reachable(OneEach(), s) && HeldForNobody(s, e)
  {
    TargetAnswers();
    if Wired(ANSWERING) {
      AnswerIsAbandoned();
    }
    NextGwRecv(OneEach(), ANSWERING, 0, 300, LEFT_BEHIND);
    ServerHolds();
  }

  lemma AnswerIsAbandoned()
    requires Wired(ANSWERING)
    ensures GwRecvStep(OneEach(), ANSWERING, 0, 300, IDLE) == LEFT_BEHIND
  {
    AnswerIsTaken();
    AnswerFindsNobody();
  }

  lemma AnswerIsTaken()
    ensures PopUp(ANSWERING, 0) == ANSWERING.(conns := LEFT_BEHIND.conns)
  {
    assert [Data(100, [42])][1..] == [];
  }

  lemma AnswerFindsNobody()
    ensures Relay(ANSWERING.(conns := LEFT_BEHIND.conns), End(0, 100), [42]) == LEFT_BEHIND
  {
  }

  lemma ServerHolds()
    ensures HeldForNobody(LEFT_BEHIND, End(0, 100))
  {
  }
}
