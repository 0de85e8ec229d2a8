/** The invariant's part that is about the tables as wholes: which ends exist, who is bridged to whom,
    what the gateway's tasks hold, and that channels speak only of known sessions. */
module TunnelTables {
  import opened Common
  import opened Tunnel
  import opened TunnelInvariant
  import opened TunnelSteps
  import opened TunnelLifetimes

  lemma FramesSetSess(s: State, e: End, v: Sess)
    requires Frames(s)
    ensures Frames(SetSess(s, e, v))
  {
    var t := SetSess(s, e, v);
    forall c | c in t.conns
      ensures FramesKnown(t, c, t.conns[c].up) && FramesKnown(t, c, t.conns[c].down)
    {
      assert FramesKnown(s, c, s.conns[c].up) && FramesKnown(s, c, s.conns[c].down);
    }
  }

  lemma TasksSameBridges(s: State, t: State)
    requires Tasks(s) && t.bridges == s.bridges && t.conns == s.conns
    ensures Tasks(t)
  {
    forall c | c in t.conns
      ensures TaskOk(t, c)
    {
      assert TaskOk(s, c);
    }
  }

  lemma InvolutionSetSess(s: State, e: End, v: Sess)
    requires Involution(s) && e in s.ends && v.peer == s.ends[e].peer
    ensures Involution(SetSess(s, e, v))
  {
  }

  lemma TablesSetSess(s: State, e: End, v: Sess)
    requires Tables(s) && e in s.ends && v.peer == s.ends[e].peer
    ensures Tables(SetSess(s, e, v))
  {
    PeersSetSess(s, e, v);
    InvolutionSetSess(s, e, v);
    FramesSetSess(s, e, v);
    TasksSameBridges(s, SetSess(s, e, v));
  }

  lemma FramesSetLink(s: State, c: Conn, l: Link)
    requires Frames(s) && FramesKnown(s, c, l.up) && FramesKnown(s, c, l.down)
    ensures Frames(SetLink(s, c, l))
  {
    var t := SetLink(s, c, l);
    forall d | d in t.conns
      ensures FramesKnown(t, d, t.conns[d].up) && FramesKnown(t, d, t.conns[d].down)
    {
      if d != c {
        assert FramesKnown(s, d, s.conns[d].up) && FramesKnown(s, d, s.conns[d].down);
      }
    }
  }

  lemma TasksSetLink(s: State, c: Conn, l: Link)
    requires Tasks(s) && TaskOk(SetLink(s, c, l), c)
    ensures Tasks(SetLink(s, c, l))
  {
    var t := SetLink(s, c, l);
    forall d | d in t.conns && d != c
      ensures TaskOk(t, d)
    {
      assert TaskOk(s, d);
    }
  }

  lemma InvolutionSetLink(s: State, c: Conn, l: Link)
    requires Involution(s)
    ensures Involution(SetLink(s, c, l))
  {
  }

  /** A connection whose node and task stay, and whose channels carry only known sessions. */
  lemma TablesSetLink(s: State, c: Conn, l: Link)
    requires Tables(s) && c in s.conns && l.node == s.conns[c].node && l.task == s.conns[c].task
    requires FramesKnown(s, c, l.up) && FramesKnown(s, c, l.down)
    ensures Tables(SetLink(s, c, l))
  {
    PeersSetLink(s, c, l);
    InvolutionSetLink(s, c, l);
    FramesSetLink(s, c, l);
    assert TaskOk(s, c);
    TasksSetLink(s, c, l);
  }

  lemma TablesSendUp(s: State, c: Conn, f: Frame)
    requires Tables(s) && c in s.conns && End(c, f.sid) in s.ends
    ensures Tables(SendUp(s, c, f))
  {
    var l := s.conns[c];
    TablesSetLink(s, c, l.(up := l.up + [f]));
  }

  lemma TablesSendDown(s: State, c: Conn, f: Frame)
    requires Tables(s) && c in s.conns && End(c, f.sid) in s.ends
    ensures Tables(SendDown(s, c, f))
  {
    var l := s.conns[c];
    TablesSetLink(s, c, l.(down := l.down + [f]));
  }

  lemma TablesPopUp(s: State, c: Conn)
    requires Tables(s) && c in s.conns && s.conns[c].up != []
    ensures Tables(PopUp(s, c)) && End(c, s.conns[c].up[0].sid) in s.ends
  {
    var l := s.conns[c];
    TablesSetLink(s, c, l.(up := l.up[1..]));
  }

  lemma TablesPopDown(s: State, c: Conn)
    requires Tables(s) && c in s.conns && s.conns[c].down != []
    ensures Tables(PopDown(s, c)) && End(c, s.conns[c].down[0].sid) in s.ends
  {
    var l := s.conns[c];
    TablesSetLink(s, c, l.(down := l.down[1..]));
  }

  lemma TablesSetTask(s: State, c: Conn, task: Task)
    requires Tables(s) && c in s.conns && TaskOk(SetTask(s, c, task), c)
    ensures Tables(SetTask(s, c, task))
  {
    var l := s.conns[c].(task := task);
    PeersSetLink(s, c, l);
    InvolutionSetLink(s, c, l);
    assert FramesKnown(s, c, l.up) && FramesKnown(s, c, l.down);
    FramesSetLink(s, c, l);
    TasksSetLink(s, c, l);
  }

  lemma Connected(s: State, e: End)
    requires Peers(s) && e in s.ends
    ensures e.conn in s.conns
  {
  }

  lemma TablesCloseUp(s: State, e: End)
    requires Tables(s) && e in s.ends
    ensures e.conn in s.conns && Tables(SendUp(s, e.conn, Close(e.sid)))
  {
    Connected(s, e);
    assert End(e.conn, Close(e.sid).sid) == e;
    TablesSendUp(s, e.conn, Close(e.sid));
  }

  lemma TablesCloseDown(s: State, e: End)
    requires Tables(s) && e in s.ends
    ensures e.conn in s.conns && Tables(SendDown(s, e.conn, Close(e.sid)))
  {
    Connected(s, e);
    assert End(e.conn, Close(e.sid).sid) == e;
    TablesSendDown(s, e.conn, Close(e.sid));
  }

  lemma CloseSends(s: State, e: End) returns (v: Sess)
    requires e in s.ends && e.conn in s.conns
    ensures v.peer == s.ends[e].peer && CloseAndNotify(s, e) == SendUp(SetSess(s, e, v), e.conn, Close(e.sid))
  {
    var told := if s.conns[e.conn].agentUp then 1 else 0;
    v := s.ends[e].(writer := false, closes := s.ends[e].closes + told);
  }

  lemma TablesClose(s: State, e: End)
    requires Tables(s) && e in s.ends
    ensures Tables(CloseAndNotify(s, e))
  {
    Connected(s, e);
    var v := CloseSends(s, e);
    TablesSetSess(s, e, v);
    TablesCloseUp(SetSess(s, e, v), e);
  }

  lemma TellSends(s: State, e: End) returns (v: Sess)
    requires e in s.ends && e.conn in s.conns
    ensures v.peer == s.ends[e].peer && Tell(s, e) == SendDown(SetSess(s, e, v), e.conn, Close(e.sid))
  {
    v := s.ends[e].(told := s.ends[e].told + 1);
  }

  lemma TablesTell(s: State, e: End)
    requires Tables(s) && e in s.ends
    ensures Tables(Tell(s, e))
  {
    Connected(s, e);
    var v := TellSends(s, e);
    TablesSetSess(s, e, v);
    TablesCloseDown(SetSess(s, e, v), e);
  }

  /** No client task waits to announce the session of end `e`. */
  ghost predicate Announced(s: State, e: End) {
    e in s.bridges ==> forall c :: c in s.conns && s.conns[c].task.Opening? ==>
      e != End(c, s.conns[c].task.sid) && s.bridges[e] != End(c, s.conns[c].task.sid)
  }

  lemma PeersCut(s: State, cut: set<End>)
    requires Peers(s)
    ensures Peers(s.(bridges := s.bridges - cut))
  {
  }

  lemma InvolutionCut(s: State, e: End)
    requires Involution(s) && e in s.bridges
    ensures Involution(s.(bridges := s.bridges - {e, s.bridges[e]}))
  {
    var p := s.bridges[e];
    var t := s.(bridges := s.bridges - {e, p});
    forall x | x in t.bridges
      ensures t.bridges[x] in t.bridges
    {
      assert s.bridges[x] in s.bridges && s.bridges[s.bridges[x]] == x;
    }
  }

  lemma TasksCut(s: State, e: End)
    requires Tasks(s) && e in s.bridges && Announced(s, e)
    ensures Tasks(s.(bridges := s.bridges - {e, s.bridges[e]}))
  {
    var t := s.(bridges := s.bridges - {e, s.bridges[e]});
    forall c | c in t.conns
      ensures TaskOk(t, c)
    {
      assert TaskOk(s, c);
    }
  }

  lemma FramesCut(s: State, cut: set<End>)
    requires Frames(s)
    ensures Frames(s.(bridges := s.bridges - cut))
  {
    var t := s.(bridges := s.bridges - cut);
    forall c | c in t.conns
      ensures FramesKnown(t, c, t.conns[c].up) && FramesKnown(t, c, t.conns[c].down)
    {
      assert FramesKnown(s, c, s.conns[c].up) && FramesKnown(s, c, s.conns[c].down);
    }
  }

  lemma TablesCut(s: State, e: End)
    requires Tables(s) && e in s.bridges && Announced(s, e)
    ensures Tables(s.(bridges := s.bridges - {e, s.bridges[e]}))
  {
    PeersCut(s, {e, s.bridges[e]});
    InvolutionCut(s, e);
    TasksCut(s, e);
    FramesCut(s, {e, s.bridges[e]});
  }

  lemma Partner(s: State, e: End)
    requires Peers(s) && Involution(s) && e in s.bridges
    ensures s.bridges[e] in s.ends && s.bridges[e].conn in s.conns
  {
  }

  lemma UnbridgeTells(s: State, e: End) returns (cut: State)
    requires e in s.bridges && s.bridges[e] in s.ends && s.bridges[e].conn in s.conns
    ensures cut == s.(bridges := s.bridges - {e, s.bridges[e]})
    ensures Unbridge(s, e) == if s.conns[s.bridges[e].conn].gwUp then Tell(cut, s.bridges[e]) else cut
    ensures Unbridge(s, e).ends.Keys == s.ends.Keys
  {
    cut := s.(bridges := s.bridges - {e, s.bridges[e]});
  }

  lemma TablesUnbridge(s: State, e: End)
    requires Tables(s)
    requires Announced(s, e)
    ensures Tables(Unbridge(s, e)) && Unbridge(s, e).ends.Keys == s.ends.Keys
  {
    if e in s.bridges {
      Partner(s, e);
      var cut := UnbridgeTells(s, e);
      TablesCut(s, e);
      if s.conns[s.bridges[e].conn].gwUp {
        TablesTell(cut, s.bridges[e]);
      }
    }
  }

  lemma TablesAbandon(s: State, e: End)
    requires Tables(s) && e in s.ends
    requires Announced(s, e)
    ensures Tables(Abandon(s, e))
  {
    TablesUnbridge(s, e);
    if e in s.bridges {
      var cut := Unbridge(s, e);
      TablesSetSess(cut, e, cut.ends[e].(orphan := true));
    }
  }

  lemma TablesRelay(s: State, e: End, bytes: Bytes)
    requires Tables(s) && e in s.ends
    requires Announced(s, e)
    ensures Tables(Relay(s, e, bytes))
  {
    if e in s.bridges {
      var p := s.bridges[e];
      if s.conns[p.conn].gwUp {
        var v := s.ends[e].(relayed := s.ends[e].relayed + bytes);
        TablesSetSess(s, e, v);
        TablesSendDown(SetSess(s, e, v), p.conn, Data(p.sid, bytes));
      } else {
        TablesAbandon(s, e);
      }
    }
  }

  // ---- whole steps --------------------------------------------------------------------

  lemma TablesPumpData(s: State, e: End, bytes: Bytes)
    requires Tables(s) && e in s.ends
    ensures Tables(PumpDataStep(s, e, bytes))
  {
    var v := s.ends[e].(sent := s.ends[e].sent + bytes);
    if s.conns[e.conn].agentUp {
      TablesSetSess(s, e, v);
      TablesSendUp(SetSess(s, e, v), e.conn, Data(e.sid, bytes));
    } else {
      TablesSetSess(s, e, v.(pump := false, writer := false));
    }
  }

  lemma TablesPumpEof(s: State, e: End)
    requires Tables(s) && e in s.ends
    ensures Tables(PumpEofStep(s, e))
  {
    var v := s.ends[e].(pump := false);
    TablesSetSess(s, e, v);
    TablesClose(SetSess(s, e, v), e);
  }

  lemma TablesAgentRecv(s: State, c: Conn, outcome: Outcome)
    requires Tables(s) && c in s.conns && s.conns[c].down != []
    ensures Tables(AgentRecvStep(s, c, outcome))
  {
    var f := s.conns[c].down[0];
    var e := End(c, f.sid);
    var p := PopDown(s, c);
    TablesPopDown(s, c);
    var v := p.ends[e];
    match f
    case Open(_, _) =>
      var w := v.(started := true);
      TablesSetSess(p, e, w);
      TablesSetSess(p, e, w.(writer := true, pump := true));
      TablesClose(SetSess(p, e, w), e);
    case Data(_, bytes) =>
      var w := if outcome.Fine? || outcome.wrote then v.(delivered := v.delivered + bytes) else v;
      TablesSetSess(p, e, w);
      TablesClose(SetSess(p, e, w), e);
    case Close(_) =>
      TablesSetSess(p, e, v.(writer := false));
  }

  lemma TablesSameEnds(s: State, t: State)
    requires Tables(s) && t.bridges == s.bridges && t.conns == s.conns && t.ends.Keys == s.ends.Keys
    requires forall e :: e in s.ends ==> t.ends[e].peer == s.ends[e].peer
    ensures Tables(t)
  {
    TasksSameBridges(s, t);
    forall c | c in t.conns
      ensures FramesKnown(t, c, t.conns[c].up) && FramesKnown(t, c, t.conns[c].down)
    {
      assert FramesKnown(s, c, s.conns[c].up) && FramesKnown(s, c, s.conns[c].down);
    }
  }

  lemma TablesAgentEnd(s: State, c: Conn)
    requires Tables(s) && c in s.conns
    ensures Tables(AgentEndStep(s, c))
  {
    var l := s.conns[c];
    assert FramesKnown(s, c, l.up) && FramesKnown(s, c, l.down);
    TablesSetLink(s, c, l.(agentLoop := false));
    var t := SetLink(s, c, l.(agentLoop := false));
    TablesSameEnds(t, CloseAll(t, c));
  }

  lemma FramesMoreEnds(s: State, ends: map<End, Sess>)
    requires Frames(s) && s.ends.Keys <= ends.Keys
    ensures Frames(s.(ends := ends))
  {
    var t := s.(ends := ends);
    forall c | c in t.conns
      ensures FramesKnown(t, c, t.conns[c].up) && FramesKnown(t, c, t.conns[c].down)
    {
      assert FramesKnown(s, c, s.conns[c].up) && FramesKnown(s, c, s.conns[c].down);
    }
  }

  lemma PeersNewEnd(s: State, e: End, v: Sess)
    requires Peers(s) && e !in s.ends && e.conn in s.conns && v.peer.None?
    ensures Peers(SetSess(s, e, v))
  {
  }

  lemma TablesNewEnd(s: State, e: End, v: Sess)
    requires Tables(s) && e !in s.ends && e.conn in s.conns && v.peer.None?
    ensures Tables(SetSess(s, e, v))
  {
    PeersNewEnd(s, e, v);
    TasksSameBridges(s, SetSess(s, e, v));
    FramesMoreEnds(s, s.ends[e := v]);
    assert Involution(SetSess(s, e, v));
  }

  lemma TablesLocalOpen(s: State, c: Conn, sid: Sid, route: string)
    requires Tables(s) && c in s.conns && End(c, sid) !in s.ends
    ensures Tables(LocalOpenStep(s, c, sid, route))
  {
    var up := s.conns[c].agentUp;
    var v := FRESH.(started := true, writer := up, pump := up);
    TablesNewEnd(s, End(c, sid), v);
    TablesSendUp(SetSess(s, End(c, sid), v), c, Open(sid, route));
  }

  lemma TablesAccept(s: State, c: Conn, node: Node)
    requires Tables(s) && c !in s.conns
    ensures Tables(SetLink(s, c, NewLink(node)))
  {
    InvolutionSetLink(s, c, NewLink(node));
    FramesSetLink(s, c, NewLink(node));
    TasksSetLink(s, c, NewLink(node));
  }

  lemma TasksBridge(s: State, e: End, p: End)
    requires Tasks(s) && e in s.ends && e.conn in s.conns && e !in s.bridges && p !in s.bridges
    requires s.conns[e.conn].task.Serving? && s.conns[e.conn].node.client
    requires p.conn in s.conns && !s.conns[p.conn].node.client
    ensures Tasks(Opened(s, e, p))
  {
    var t := Opened(s, e, p);
    forall c | c in t.conns
      ensures TaskOk(t, c)
    {
      assert TaskOk(s, c);
    }
  }

  lemma PeersBridge(s: State, e: End, p: End)
    requires Peers(s) && e in s.ends && s.ends[e].peer.None? && p !in s.ends && p.conn in s.conns
    requires s.conns[p.conn].node.client != s.conns[e.conn].node.client
    ensures Peers(Opened(s, e, p))
  {
    PeersSetLink(s, e.conn, s.conns[e.conn].(task := Opening(e.sid, p)));
  }

  lemma InvolutionBridge(s: State, e: End, p: End)
    requires Involution(s) && e in s.ends && e.conn in s.conns && s.ends[e].peer.None? && p !in s.ends && e != p
    ensures Involution(Opened(s, e, p))
  {
    var t := Opened(s, e, p);
    assert e !in s.bridges && p !in s.bridges;
    forall x | x in t.bridges
      ensures x in t.ends && t.bridges[x] in t.bridges && t.bridges[t.bridges[x]] == x
      ensures t.ends[x].peer == Some(t.bridges[x])
    {
      if x != e && x != p {
        assert s.bridges[x] != e && s.bridges[x] != p;
      }
    }
  }

  lemma TablesOpened(s: State, e: End, p: End)
    requires Tables(s) && e in s.ends && s.ends[e].peer.None? && p !in s.ends && p.conn in s.conns
    requires s.conns[e.conn].task.Serving? && s.conns[e.conn].node.client && !s.conns[p.conn].node.client
    ensures Tables(Opened(s, e, p))
  {
    PeersBridge(s, e, p);
    InvolutionBridge(s, e, p);
    TasksBridge(s, e, p);
    FramesMoreEnds(s, Bridge(s, e, p).ends);
    var t := Bridge(s, e, p);
    var l := t.conns[e.conn].(task := Opening(e.sid, p));
    assert FramesKnown(s, e.conn, l.up) && FramesKnown(s, e.conn, l.down);
    FramesSetLink(t, e.conn, l);
  }

  /** An end the gateway has just heard from has been announced. */
  lemma HeardAnnounced(t: State, e: End, f: Frame)
    requires Tables(t) && e in t.ends && t.conns[e.conn].task.Serving? && OkBefore(t, e, f, e)
    ensures Announced(t, e)
  {
    if e in t.bridges {
      var v := ViewOf(t, e);
      forall c | c in t.conns && t.conns[c].task.Opening?
        ensures t.bridges[e] != End(c, t.conns[c].task.sid)
      {
        assert TaskOk(t, c);
        assert t.bridges[e] == End(c, t.conns[c].task.sid) ==> v.pending;
      }
    }
  }

  /** Only clients' sessions wait to be announced. */
  lemma ClientAnnounced(s: State, e: End)
    requires Tables(s) && e in s.ends && s.conns[e.conn].node.client && !s.conns[e.conn].task.Opening?
    ensures Announced(s, e)
  {
    if e in s.bridges {
      var p := s.bridges[e];
      assert s.ends[e].peer == Some(p);
      forall c | c in s.conns && s.conns[c].task.Opening?
        ensures p != End(c, s.conns[c].task.sid)
      {
        assert TaskOk(s, c);
      }
    }
  }

  lemma TablesRefuse(s: State, e: End)
    requires Tables(s) && e in s.ends && s.conns[e.conn].node.client
    ensures Tables(Refuse(s, e))
  {
    if s.conns[e.conn].gwUp {
      TablesTell(s, e);
    } else {
      TablesSetTask(s, e.conn, Leaving);
    }
  }

  lemma TablesGwOpenSend(s: State, c: Conn)
    requires Tables(s) && Wired(s) && c in s.conns && s.conns[c].task.Opening?
    ensures Tables(GwOpenSendStep(s, c))
  {
    assert TaskOk(s, c);
    var Opening(sid, p) := s.conns[c].task;
    var t := SetTask(s, c, Serving);
    assert s.ends[End(c, sid)].peer == Some(p) && p in s.ends;
    TablesSetTask(s, c, Serving);
    if s.conns[p.conn].gwUp {
      TablesSendDown(t, p.conn, Open(p.sid, ""));
    } else {
      ClientAnnounced(t, End(c, sid));
      TablesAbandon(t, End(c, sid));
    }
  }

  lemma TablesGwEnd(s: State, c: Conn, order: seq<Sid>)
    requires Tables(s) && c in s.conns && Lists(order, Owned(s, c))
    ensures Tables(GwEndStep(s, c, order))
  {
    if s.conns[c].node.client {
      var t := SetTask(s, c, Cleaning(order));
      forall e | e in t.bridges && e.conn == c
        ensures e.sid in order
      {
        assert e.sid in Owned(s, c);
      }
      TablesSetTask(s, c, Cleaning(order));
    } else {
      TablesSetTask(s, c, Ended);
      TablesUnregister(SetTask(s, c, Ended), c);
    }
  }

  lemma TablesUnregister(s: State, c: Conn)
    requires Tables(s) && c in s.conns
    ensures Tables(Unregister(s, c))
  {
    TablesSameEnds(s, Unregister(s, c));
  }

  lemma TablesCleanOne(s: State, c: Conn)
    requires Tables(s) && Wired(s) && c in s.conns && s.conns[c].task.Cleaning? && s.conns[c].task.left != []
    ensures Tables(CleanOneStep(s, c))
  {
    var left := s.conns[c].task.left;
    var e := End(c, left[0]);
    assert TaskOk(s, c);
    if e in s.bridges {
      ClientAnnounced(s, e);
    }
    TablesUnbridge(s, e);
    UnbridgeTasks(s, e);
    CleaningRest(s, c, left);
    TablesSetTask(Unbridge(s, e), c, Cleaning(left[1..]));
  }

  lemma CleaningRest(s: State, c: Conn, left: seq<Sid>)
    requires Wired(s) && left != [] && c in Unbridge(s, End(c, left[0])).conns
    requires Unbridge(s, End(c, left[0])).conns[c].node.client
    requires forall x :: x in s.bridges && x.conn == c ==> x.sid in left
    ensures TaskOk(SetTask(Unbridge(s, End(c, left[0])), c, Cleaning(left[1..])), c)
  {
    var e := End(c, left[0]);
    forall x | x in Unbridge(s, e).bridges && x.conn == c
      ensures x.sid in left[1..]
    {
      assert x in s.bridges && x != e && x.sid in left;
    }
  }

  lemma TablesCleanDone(s: State, c: Conn)
    requires Tables(s) && c in s.conns && s.conns[c].task.Cleaning? && s.conns[c].task.left == []
    ensures Tables(Unregister(SetTask(s, c, Ended), c))
  {
    assert TaskOk(s, c);
    TablesSetTask(s, c, Ended);
    TablesUnregister(SetTask(s, c, Ended), c);
  }
}
