/** What every session end sees when sessions are opened and announced, and when connections come, are
    lost and are cleaned up. */
module TunnelLifetimes {
  import opened Common
  import opened Tunnel
  import opened TunnelInvariant
  import opened TunnelSteps

  // ---- opening a session -----------------------------------------------------------

  lemma NoFrames(s: State, p: End)
    requires Frames(s) && p !in s.ends && p.conn in s.conns
    ensures Only(s.conns[p.conn].up, p.sid) == [] && Only(s.conns[p.conn].down, p.sid) == []
  {
    OnlyUnknown(s.conns[p.conn].up, p.sid);
    OnlyUnknown(s.conns[p.conn].down, p.sid);
  }

  /** The state right after _bridge, with the client's task waiting to announce the session. */
  function Opened(s: State, e: End, p: End): State
    requires e in s.ends && e.conn in s.conns
  {
    SetTask(Bridge(s, e, p), e.conn, Opening(e.sid, p))
  }

  lemma OpenedClientView(s: State, e: End, p: End)
    requires e in s.ends && e.conn in s.conns && p.conn in s.conns && p !in s.ends
    requires s.conns[e.conn].task.Serving? && !s.conns[p.conn].task.Opening? && p.conn != e.conn
    ensures ViewOf(Opened(s, e, p), e)
            == ViewOf(s, e).(bridged := true, s := s.ends[e].(peer := Some(p)), pending := false,
                             peerRelayed := [], peerTold := 0, peerGwUp := s.conns[p.conn].gwUp)
  {
  }

  lemma OpenedServerView(s: State, e: End, p: End)
    requires e in s.ends && e.conn in s.conns && p.conn in s.conns && p !in s.ends && Frames(s)
    requires !s.conns[p.conn].node.client && p.conn != e.conn
    ensures ViewOf(Opened(s, e, p), p)
            == View(false, FRESH.(peer := Some(e)), NOTHING, NOTHING, true,
                    s.conns[p.conn].agentUp, s.conns[p.conn].gwUp, false, true,
                    s.ends[e].relayed, s.ends[e].told, s.conns[e.conn].gwUp)
  {
    NoFrames(s, p);
  }

  lemma BridgeOtherView(s: State, e: End, p: End, x: End)
    requires Peers(s) && e in s.ends && p !in s.ends && x in s.ends && x != e && s.ends[e].peer.None?
    ensures ViewOf(Bridge(s, e, p), x) == ViewOf(s, x)
  {
    assert s.ends[x].peer != Some(e) && s.ends[x].peer != Some(p);
  }

  lemma OpenedOtherView(s: State, e: End, p: End, x: End)
    requires Peers(s) && e in s.ends && p !in s.ends && x in s.ends && x != e
    requires s.conns[e.conn].task.Serving? && s.ends[e].peer.None?
    ensures ViewOf(Opened(s, e, p), x) == ViewOf(s, x)
  {
    var t := Bridge(s, e, p);
    BridgeOtherView(s, e, p, x);
    ViewSetTask(t, e.conn, Opening(e.sid, p), x);
    assert t.ends[x] == s.ends[x] && t.conns == s.conns;
  }

  lemma OpenedAt(t: State, e: End, f: Frame, p: End, x: End)
    requires Peers(t) && Frames(t) && f.Open? && f.sid == e.sid && OkBefore(t, e, f, x) && OkBefore(t, e, f, e)
    requires e in t.ends && t.conns[e.conn].task.Serving? && t.conns[e.conn].node.client
    requires p !in t.ends && p.conn in t.conns && !t.conns[p.conn].node.client && !t.conns[p.conn].task.Opening?
    ensures OkAt(Opened(t, e, p), x)
  {
    assert t.ends[e].peer.None? && t.ends[e].relayed == [] && t.ends[e].told == 0;
    if x == e {
      OpenedClientView(t, e, p);
      BridgeClientOk(ViewOf(t, e), e.sid, f.route, p, t.conns[p.conn].gwUp);
    } else if x == p {
      OpenedServerView(t, e, p);
    } else if x in t.ends {
      OpenedOtherView(t, e, p, x);
    }
  }

  // ---- announcing it to the server ----------------------------------------------------

  lemma ServingViews(s: State, c: Conn, x: End)
    requires Peers(s) && Involution(s) && Announcing(s, c) && x in s.ends
    ensures ViewOf(SetTask(s, c, Serving), x)
            == if x == s.conns[c].task.target then ViewOf(s, x).(pending := false) else ViewOf(s, x)
    ensures ViewOf(s, s.conns[c].task.target).pending
  {
    var e, p := End(c, s.conns[c].task.sid), s.conns[c].task.target;
    assert s.ends[p].peer == Some(e) && s.ends[e].peer == Some(p);
    ViewSetTask(s, c, Serving, x);
  }

  ghost predicate Announcing(s: State, c: Conn) {
    c in s.conns && s.conns[c].task.Opening? && TaskOk(s, c)
    && s.conns[c].task.target in s.ends && s.conns[c].task.target.conn in s.conns
    && End(c, s.conns[c].task.sid) in s.ends
  }

  lemma OpenSendAt(s: State, c: Conn, x: End)
    requires Peers(s) && Involution(s) && Announcing(s, c) && OkAt(s, x)
    requires s.conns[s.conns[c].task.target.conn].gwUp
    ensures OkAt(SendDown(SetTask(s, c, Serving), s.conns[c].task.target.conn, Open(s.conns[c].task.target.sid, "")), x)
  {
    if x in s.ends {
      var p := s.conns[c].task.target;
      ServingViews(s, c, x);
      ViewSendDown(SetTask(s, c, Serving), p.conn, Open(p.sid, ""), x);
      if x == p {
        AnnounceOk(ViewOf(s, p), p.sid);
      }
    }
  }

  lemma AbandonedTables(s: State, c: Conn)
    requires Peers(s) && Involution(s) && Announcing(s, c)
    ensures Peers(SetTask(s, c, Serving)) && Involution(SetTask(s, c, Serving))
  {
    PeersSetLink(s, c, s.conns[c].(task := Serving));
  }

  lemma OpenAbandonAt(s: State, c: Conn, x: End)
    requires Peers(s) && Involution(s) && Announcing(s, c) && OkAt(s, x)
    requires !s.conns[s.conns[c].task.target.conn].gwUp
    ensures OkAt(Abandon(SetTask(s, c, Serving), End(c, s.conns[c].task.sid)), x)
  {
    if x in s.ends {
      var p := s.conns[c].task.target;
      var e := End(c, s.conns[c].task.sid);
      OpenAbandonViews(s, c, x);
      if x == e {
        PeerValues(s, p, e);
        OrphanAtOpenOk(ViewOf(s, e));
      } else if x == p {
        CutUnannouncedOk(ViewOf(s, p));
      }
    }
  }

  lemma OpenAbandonViews(s: State, c: Conn, x: End)
    requires Peers(s) && Involution(s) && Announcing(s, c) && x in s.ends
    requires !s.conns[s.conns[c].task.target.conn].gwUp
    ensures var t := Abandon(SetTask(s, c, Serving), End(c, s.conns[c].task.sid));
      && x in t.ends && x.conn in t.conns
      && ViewOf(t, x) == if x == End(c, s.conns[c].task.sid) then OrphanView(ViewOf(s, x))
                         else if x == s.conns[c].task.target then ViewOf(s, x).(pending := false, bridged := false)
                         else ViewOf(s, x)
    ensures ViewOf(s, s.conns[c].task.target).pending
  {
    AbandonedTables(s, c);
    ServingViews(s, c, x);
    AbandonViews(SetTask(s, c, Serving), End(c, s.conns[c].task.sid), x);
    PeerUnique(s, End(c, s.conns[c].task.sid), x);
  }

  lemma GwOpenSendAt(s: State, c: Conn, x: End)
    requires Peers(s) && Involution(s) && Wired(s) && Announcing(s, c) && OkAt(s, x)
    ensures OkAt(GwOpenSendStep(s, c), x)
  {
    if s.conns[s.conns[c].task.target.conn].gwUp {
      OpenSendAt(s, c, x);
    } else {
      OpenAbandonAt(s, c, x);
    }
  }

  // ---- losing connections ------------------------------------------------------------

  lemma AgentDownAt(s: State, c: Conn, x: End)
    requires OkAt(s, x) && c in s.conns
    ensures OkAt(SetLink(s, c, s.conns[c].(agentUp := false)), x)
  {
    if x in s.ends {
      ViewSetLink(s, c, s.conns[c].(agentUp := false), x);
    }
  }

  lemma CloseAllViews(s: State, c: Conn, x: End)
    requires Peers(s) && x in s.ends
    ensures x in CloseAll(s, c).ends
    ensures ViewOf(CloseAll(s, c), x)
            == if x.conn == c then ViewOf(s, x).(s := s.ends[x].(writer := false)) else ViewOf(s, x)
  {
    var t := CloseAll(s, c);
    assert t.ends.Keys == s.ends.Keys && t.conns == s.conns;
    var v := s.ends[x];
    if v.peer.Some? {
      var p := v.peer.value;
      assert t.ends[p].relayed == s.ends[p].relayed && t.ends[p].told == s.ends[p].told;
    }
  }

  lemma AgentEndViews(s: State, c: Conn, x: End)
    requires Peers(s) && c in s.conns && x in s.ends
    ensures x in AgentEndStep(s, c).ends
    ensures ViewOf(AgentEndStep(s, c), x)
            == if x.conn == c && !s.conns[c].node.client then ViewOf(s, x).(s := s.ends[x].(writer := false))
               else ViewOf(s, x)
  {
    var l := s.conns[c].(agentLoop := false);
    ViewSetLink(s, c, l, x);
    PeersSetLink(s, c, l);
    if !s.conns[c].node.client {
      CloseAllViews(SetLink(s, c, l), c, x);
    }
  }

  lemma CloseAllOk(v: View)
    requires EndOk(v) && !v.agentUp
    ensures EndOk(v.(s := v.s.(writer := false)))
  {
    assert v.s.delivered <= v.s.delivered + v.down.payload;
  }

  lemma AgentEndAt(s: State, c: Conn, x: End)
    requires Peers(s) && OkAt(s, x) && c in s.conns && !s.conns[c].agentUp
    ensures OkAt(AgentEndStep(s, c), x)
  {
    if x in s.ends {
      AgentEndViews(s, c, x);
      if x.conn == c && !s.conns[c].node.client {
        CloseAllOk(ViewOf(s, x));
      }
    }
  }

  lemma GwDownViews(s: State, c: Conn, x: End)
    requires c in s.conns && x in s.ends && x.conn in s.conns
    ensures var v := ViewOf(s, x);
            ViewOf(SetLink(s, c, s.conns[c].(gwUp := false)), x)
            == v.(gwUp := v.gwUp && x.conn != c,
                  peerGwUp := v.peerGwUp && s.ends[x].peer.value.conn != c)
  {
  }

  lemma GwDownAt(s: State, c: Conn, x: End)
    requires OkAt(s, x) && c in s.conns
    ensures OkAt(SetLink(s, c, s.conns[c].(gwUp := false)), x)
  {
    if x in s.ends {
      GwDownViews(s, c, x);
    }
  }

  /** A task that stops or goes on cleaning; no session waits for its announcement in it. */
  lemma StoppingAt(s: State, c: Conn, task: Task, x: End)
    requires OkAt(s, x) && c in s.conns && !s.conns[c].task.Opening? && !task.Opening?
    requires s.conns[c].task.Cleaning? || s.conns[c].task.Ended? ==> task.Cleaning? || task.Ended?
    ensures OkAt(SetTask(s, c, task), x)
  {
    if x in s.ends {
      ViewSetTask(s, c, task, x);
    }
  }

  lemma CleanUnbridgeAt(s: State, e: End, x: End)
    requires Peers(s) && Involution(s) && e in s.bridges && OkAt(s, x)
    requires s.conns[e.conn].task.Cleaning? && s.conns[e.conn].node.client
    ensures OkAt(Unbridge(s, e), x)
  {
    if x == e {
      CleanedOwn(s, e);
    } else if x == s.bridges[e] {
      CleanedPartner(s, e);
    } else if x in s.ends {
      UnbridgeViews(s, e, x);
    }
  }

  lemma CleanedOwn(s: State, e: End)
    requires Peers(s) && Involution(s) && e in s.bridges && OkAt(s, e)
    requires s.conns[e.conn].task.Cleaning? && s.conns[e.conn].node.client
    ensures OkAt(Unbridge(s, e), e)
  {
    UnbridgeViews(s, e, e);
    CutByCleanupOk(ViewOf(s, e), s.conns[s.bridges[e].conn].gwUp);
  }

  lemma CleanedPartner(s: State, e: End)
    requires Peers(s) && Involution(s) && e in s.bridges && OkAt(s, s.bridges[e])
    requires s.conns[e.conn].task.Cleaning?
    ensures OkAt(Unbridge(s, e), s.bridges[e])
  {
    NotPending(s, e);
    UnbridgeViews(s, e, s.bridges[e]);
    CutPeerOk(ViewOf(s, s.bridges[e]), s.bridges[e].sid);
  }

  /** A client's task that is cleaning up announces nothing to the end's partner. */
  lemma NotPending(s: State, e: End)
    requires Peers(s) && Involution(s) && e in s.bridges && s.conns[e.conn].task.Cleaning?
    ensures s.bridges[e] in s.ends && !ViewOf(s, s.bridges[e]).pending && ViewOf(s, s.bridges[e]).bridged
  {
    assert s.ends[s.bridges[e]].peer == Some(e);
  }

  /** The same connections, with the same tasks. */
  ghost predicate SameTasks(s: State, t: State) {
    t.conns.Keys == s.conns.Keys
    && forall c :: c in s.conns ==> t.conns[c].task == s.conns[c].task && t.conns[c].node == s.conns[c].node
  }

  lemma SendDownTasks(s: State, c: Conn, f: Frame)
    requires c in s.conns
    ensures SameTasks(s, SendDown(s, c, f))
  {
  }

  lemma TellTasks(s: State, e: End)
    requires e in s.ends && e.conn in s.conns
    ensures SameTasks(s, Tell(s, e))
  {
    SendDownTasks(SetSess(s, e, s.ends[e].(told := s.ends[e].told + 1)), e.conn, Close(e.sid));
  }

  /** Cutting a bridge leaves every task alone. */
  lemma UnbridgeTasks(s: State, e: End)
    requires e in s.bridges ==> s.bridges[e] in s.ends && s.bridges[e].conn in s.conns
    ensures SameTasks(s, Unbridge(s, e))
  {
    if e in s.bridges && s.conns[s.bridges[e].conn].gwUp {
      TellTasks(s.(bridges := s.bridges - {e, s.bridges[e]}), s.bridges[e]);
    }
  }

  lemma CleanOneAt(s: State, c: Conn, left: seq<Sid>, e: End, x: End)
    requires Peers(s) && Involution(s) && OkAt(s, x) && c in s.conns && e.conn == c
    requires s.conns[c].task.Cleaning? && s.conns[c].node.client
    ensures c in Unbridge(s, e).conns && OkAt(SetTask(Unbridge(s, e), c, Cleaning(left)), x)
  {
    assert e in s.bridges ==> s.bridges[e] in s.ends;
    UnbridgeTasks(s, e);
    if e in s.bridges {
      CleanUnbridgeAt(s, e, x);
    }
    StoppingAt(Unbridge(s, e), c, Cleaning(left), x);
  }

  // ---- new connections and sessions ------------------------------------------------------

  lemma LocalOpenViews(s: State, c: Conn, sid: Sid, route: string, x: End)
    requires Peers(s) && Frames(s) && c in s.conns && s.conns[c].node.client && End(c, sid) !in s.ends
    ensures var t := LocalOpenStep(s, c, sid, route);
            var l := s.conns[c];
            && (x in s.ends ==> x in t.ends && x.conn in t.conns && ViewOf(t, x) == ViewOf(s, x))
            && (x == End(c, sid) ==>
                 ViewOf(t, x) == View(true, FRESH.(started := true, writer := l.agentUp, pump := l.agentUp),
                                      if l.agentUp then Pushed(NOTHING, Open(sid, route)) else NOTHING, NOTHING,
                                      x in s.bridges, l.agentUp, l.gwUp, l.task.Cleaning? || l.task.Ended?, false, [], 0, false))
  {
    var e := End(c, sid);
    var up := s.conns[c].agentUp;
    var t := SetSess(s, e, FRESH.(started := true, writer := up, pump := up));
    NoFrames(s, e);
    if x in s.ends {
      NewEndViews(s, e, FRESH.(started := true, writer := up, pump := up), x);
    }
    if x in t.ends {
      ViewSendUp(t, c, Open(sid, route), x);
    }
  }

  lemma NewEndViews(s: State, e: End, v: Sess, x: End)
    requires Peers(s) && e !in s.ends && x in s.ends
    ensures ViewOf(SetSess(s, e, v), x) == ViewOf(s, x)
  {
    assert s.ends[x].peer != Some(e);
  }

  lemma LocalOpenAt(s: State, c: Conn, sid: Sid, route: string, x: End)
    requires Peers(s) && Involution(s) && Frames(s) && OkAt(s, x)
    requires c in s.conns && s.conns[c].node.client && End(c, sid) !in s.ends
    ensures OkAt(LocalOpenStep(s, c, sid, route), x)
  {
    LocalOpenViews(s, c, sid, route, x);
  }

  lemma AcceptAt(s: State, c: Conn, node: Node, x: End)
    requires Peers(s) && OkAt(s, x) && c !in s.conns
    ensures OkAt(SetLink(s, c, NewLink(node)).(registry := s.registry[node.id := c]), x)
  {
    if x in s.ends {
      var t := SetLink(s, c, NewLink(node)).(registry := s.registry[node.id := c]);
      assert ViewOf(t, x) == ViewOf(s, x);
    }
  }
}
