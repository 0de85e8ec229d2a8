/** What every session end sees of the agents' steps and of the gateway's relaying and unbridging: each
    keeps the end's part of the invariant. */
module TunnelSteps {
  import opened Common
  import opened Tunnel
  import opened TunnelInvariant

  // ---- the agents' steps, as seen by the ends -------------------------------------

  /** One read of the pump, as the end's view sees it. */
  function PumpDataView(v: View, sid: Sid, bytes: Bytes): View {
    var t := v.s.(sent := v.s.sent + bytes);
    if v.agentUp then v.(s := t, up := Pushed(v.up, Data(sid, bytes)))
    else v.(s := t.(pump := false, writer := false))
  }

  lemma PumpDataOk(v: View, sid: Sid, bytes: Bytes)
    requires EndOk(v) && v.s.pump
    ensures EndOk(PumpDataView(v, sid, bytes))
  {
    PumpDataShape(v, sid, bytes);
    PumpDataNear(v, sid, bytes);
    PumpDataFar(v, sid, bytes);
    PumpDataCloses(v, sid, bytes);
  }

  lemma PumpDataShape(v: View, sid: Sid, bytes: Bytes)
    requires Shape(v) && v.s.pump
    ensures Shape(PumpDataView(v, sid, bytes))
  {
  }

  lemma PumpDataNear(v: View, sid: Sid, bytes: Bytes)
    requires NearHalf(v) && v.s.pump
    ensures NearHalf(PumpDataView(v, sid, bytes))
  {
    assert v.s.relayed + (v.up.payload + bytes) == (v.s.relayed + v.up.payload) + bytes;
    assert v.s.sent <= v.s.sent + bytes;
  }

  lemma PumpDataFar(v: View, sid: Sid, bytes: Bytes)
    requires Shape(v) && FarHalf(v) && v.s.pump
    ensures FarHalf(PumpDataView(v, sid, bytes))
  {
    assert v.s.delivered <= v.s.delivered + v.down.payload;
  }

  lemma PumpDataCloses(v: View, sid: Sid, bytes: Bytes)
    requires Shape(v) && ClosePropagates(v) && CloseCounts(v) && v.s.pump
    ensures ClosePropagates(PumpDataView(v, sid, bytes)) && CloseCounts(PumpDataView(v, sid, bytes))
  {
  }

  lemma PumpDataViews(s: State, e: End, bytes: Bytes, x: End)
    requires Peers(s) && e in s.ends && x in s.ends
    ensures ViewOf(PumpDataStep(s, e, bytes), x)
            == if x == e then PumpDataView(ViewOf(s, e), e.sid, bytes) else ViewOf(s, x)
  {
    var v := s.ends[e].(sent := s.ends[e].sent + bytes);
    if s.conns[e.conn].agentUp {
      ViewSetOwn(s, e, v, x);
      ViewSendUp(SetSess(s, e, v), e.conn, Data(e.sid, bytes), x);
    } else {
      ViewSetOwn(s, e, v.(pump := false, writer := false), x);
    }
  }

  /** The end's agent forgets the writer and, if it can, tells the gateway. */
  function CloseView(v: View, sid: Sid): View {
    var t := v.s.(writer := false, closes := v.s.closes + One(v.agentUp));
    if v.agentUp then v.(s := t, up := Pushed(v.up, Close(sid))) else v.(s := t)
  }

  lemma CloseViews(s: State, e: End, x: End)
    requires Peers(s) && e in s.ends && x in s.ends
    ensures ViewOf(CloseAndNotify(s, e), x) == if x == e then CloseView(ViewOf(s, e), e.sid) else ViewOf(s, x)
  {
    var v := s.ends[e].(writer := false, closes := s.ends[e].closes + One(s.conns[e.conn].agentUp));
    var t := SetSess(s, e, v);
    assert CloseAndNotify(s, e) == SendUp(t, e.conn, Close(e.sid));
    ViewSetOwn(s, e, v, x);
    assert x in t.ends && x.conn in t.conns;
    ViewSendUp(t, e.conn, Close(e.sid), x);
    assert e != x ==> End(e.conn, e.sid) != x;
  }

  lemma PumpEofOk(v: View, sid: Sid)
    requires EndOk(v) && v.s.pump
    ensures EndOk(CloseView(v.(s := v.s.(pump := false)), sid))
  {
    assert v.up.payload + [] == v.up.payload;
  }

  /** Bytes arriving at the agent. */
  function DeliverView(v: View, sid: Sid, bytes: Bytes, outcome: Outcome): View {
    if !v.s.writer then v
    else if outcome.Fine? then v.(s := v.s.(delivered := v.s.delivered + bytes))
    else CloseView(v.(s := v.s.(delivered := if outcome.wrote then v.s.delivered + bytes else v.s.delivered)), sid)
  }

  lemma DeliverFineOk(v: View, sid: Sid, bytes: Bytes)
    requires EndOk(v.(down := Unpopped(v.down, Data(sid, bytes)))) && Sane(v.down) && v.s.writer
    ensures EndOk(v.(s := v.s.(delivered := v.s.delivered + bytes)))
  {
    assert v.s.delivered + (bytes + v.down.payload) == (v.s.delivered + bytes) + v.down.payload;
  }

  lemma DeliverFailsOk(v: View, sid: Sid, bytes: Bytes, written: Bytes)
    requires EndOk(v.(down := Unpopped(v.down, Data(sid, bytes)))) && Sane(v.down) && v.s.writer
    requires written <= v.s.delivered + bytes
    ensures EndOk(CloseView(v.(s := v.s.(delivered := written)), sid))
  {
    assert v.up.payload + [] == v.up.payload;
    assert v.s.delivered + (bytes + v.down.payload) == (v.s.delivered + bytes) + v.down.payload;
    assert v.s.peer.Some? ==> written <= v.peerRelayed;
  }

  lemma DeliverViewFails(v: View, sid: Sid, bytes: Bytes, outcome: Outcome, written: Bytes)
    requires v.s.writer && outcome.Fails? && written == if outcome.wrote then v.s.delivered + bytes else v.s.delivered
    ensures DeliverView(v, sid, bytes, outcome) == CloseView(v.(s := v.s.(delivered := written)), sid)
    ensures written <= v.s.delivered + bytes
  {
  }

  lemma DeliverOk(v: View, sid: Sid, bytes: Bytes, outcome: Outcome)
    requires EndOk(v.(down := Unpopped(v.down, Data(sid, bytes)))) && Sane(v.down)
    ensures EndOk(DeliverView(v, sid, bytes, outcome))
  {
    if !v.s.writer {
      UndeliveredOk(v, sid, bytes);
    } else if outcome.Fine? {
      DeliverFineOk(v, sid, bytes);
    } else {
      FailedDeliveryOk(v, sid, bytes, outcome);
    }
  }

  lemma UndeliveredOk(v: View, sid: Sid, bytes: Bytes)
    requires EndOk(v.(down := Unpopped(v.down, Data(sid, bytes)))) && Sane(v.down) && !v.s.writer
    ensures EndOk(v)
  {
  }

  lemma FailedDeliveryOk(v: View, sid: Sid, bytes: Bytes, outcome: Outcome)
    requires EndOk(v.(down := Unpopped(v.down, Data(sid, bytes)))) && Sane(v.down) && v.s.writer && outcome.Fails?
    ensures EndOk(DeliverView(v, sid, bytes, outcome))
  {
    var written := if outcome.wrote then v.s.delivered + bytes else v.s.delivered;
    DeliverViewFails(v, sid, bytes, outcome, written);
    DeliverFailsOk(v, sid, bytes, written);
  }

  /** A session arriving at a server agent. */
  function OpenTargetView(v: View, sid: Sid, outcome: Outcome): View {
    var t := v.s.(started := true);
    if outcome.Fine? then v.(s := t.(writer := true, pump := true)) else CloseView(v.(s := t), sid)
  }

  lemma TargetOpenedOk(v: View, sid: Sid, route: string)
    requires EndOk(v.(down := Unpopped(v.down, Open(sid, route)))) && Sane(v.down)
    ensures EndOk(v.(s := v.s.(started := true, writer := true, pump := true)))
  {
    assert [] + v.down.payload == v.down.payload;
  }

  lemma TargetFailedOk(v: View, sid: Sid, route: string)
    requires EndOk(v.(down := Unpopped(v.down, Open(sid, route)))) && Sane(v.down)
    ensures EndOk(CloseView(v.(s := v.s.(started := true)), sid))
  {
    assert [] + v.down.payload == v.down.payload;
    assert v.up.payload + [] == v.up.payload;
  }

  lemma OpenTargetOk(v: View, sid: Sid, route: string, outcome: Outcome)
    requires EndOk(v.(down := Unpopped(v.down, Open(sid, route)))) && Sane(v.down)
    ensures EndOk(OpenTargetView(v, sid, outcome))
  {
    if outcome.Fine? {
      TargetOpenedOk(v, sid, route);
    } else {
      TargetFailedOk(v, sid, route);
    }
  }

  lemma ForgetWriterOk(v: View, sid: Sid)
    requires EndOk(v.(down := Unpopped(v.down, Close(sid)))) && Sane(v.down)
    ensures EndOk(v.(s := v.s.(writer := false)))
  {
    assert [] + v.down.payload == v.down.payload;
    assert v.s.delivered <= v.s.delivered + v.down.payload;
  }

  function AgentRecvView(v: View, f: Frame, outcome: Outcome): View {
    match f
    case Open(sid, _) => if v.client then v else OpenTargetView(v, sid, outcome)
    case Data(sid, bytes) => DeliverView(v, sid, bytes, outcome)
    case Close(sid) => v.(s := v.s.(writer := false))
  }

  lemma AgentRecvOk(v: View, f: Frame, outcome: Outcome)
    requires EndOk(v.(down := Unpopped(v.down, f))) && Sane(v.down)
    ensures EndOk(AgentRecvView(v, f, outcome))
  {
    match f
    case Open(sid, route) => OpenTargetOk(v, sid, route, outcome);
    case Data(sid, bytes) => DeliverOk(v, sid, bytes, outcome);
    case Close(sid) => ForgetWriterOk(v, sid);
  }

  lemma PumpEofViews(s: State, e: End, x: End)
    requires Peers(s) && e in s.ends && x in s.ends
    ensures ViewOf(PumpEofStep(s, e), x)
            == if x == e then CloseView(ViewOf(s, e).(s := s.ends[e].(pump := false)), e.sid) else ViewOf(s, x)
  {
    var v := s.ends[e].(pump := false);
    ViewSetOwn(s, e, v, x);
    PeersSetSess(s, e, v);
    CloseViews(SetSess(s, e, v), e, x);
  }

  lemma DeliverViews(s: State, e: End, bytes: Bytes, outcome: Outcome, x: End)
    requires Peers(s) && e in s.ends && x in s.ends
    ensures ViewOf(Deliver(s, e, bytes, outcome), x)
            == if x == e then DeliverView(ViewOf(s, e), e.sid, bytes, outcome) else ViewOf(s, x)
  {
    var v := s.ends[e];
    var w := if outcome.Fine? || outcome.wrote then v.(delivered := v.delivered + bytes) else v;
    if v.writer {
      ViewSetOwn(s, e, w, x);
      if outcome.Fails? {
        PeersSetSess(s, e, w);
        CloseViews(SetSess(s, e, w), e, x);
      }
    }
  }

  lemma OpenTargetViews(s: State, e: End, outcome: Outcome, x: End)
    requires Peers(s) && e in s.ends && x in s.ends
    ensures ViewOf(OpenTarget(s, e, outcome), x)
            == if x == e then OpenTargetView(ViewOf(s, e), e.sid, outcome) else ViewOf(s, x)
  {
    var v := s.ends[e].(started := true);
    if outcome.Fine? {
      ViewSetOwn(s, e, v.(writer := true, pump := true), x);
    } else {
      ViewSetOwn(s, e, v, x);
      PeersSetSess(s, e, v);
      CloseViews(SetSess(s, e, v), e, x);
    }
  }

  lemma AgentRecvViews(s: State, c: Conn, outcome: Outcome, x: End)
    requires Peers(s) && x in s.ends && c in s.conns && s.conns[c].down != []
    ensures var f := s.conns[c].down[0];
            var v := ViewOf(PopDown(s, c), x);
            && ViewOf(AgentRecvStep(s, c, outcome), x) == (if x == End(c, f.sid) then AgentRecvView(v, f, outcome) else v)
            && ViewOf(s, x) == (if x == End(c, f.sid) then v.(down := Unpopped(v.down, f)) else v)
  {
    var f := s.conns[c].down[0];
    var e := End(c, f.sid);
    var p := PopDown(s, c);
    ViewPopDown(s, c, x);
    PeersSetLink(s, c, s.conns[c].(down := s.conns[c].down[1..]));
    if e in s.ends {
      match f {
        case Open(_, _) => OpenTargetViews(p, e, outcome, x);
        case Data(_, bytes) => DeliverViews(p, e, bytes, outcome, x);
        case Close(_) => ViewSetOwn(p, e, p.ends[e].(writer := false), x);
      }
    }
  }

  lemma BeforeRecv(s: State, c: Conn, x: End)
    requires OkAt(s, x) && x in s.ends && c in s.conns && s.conns[c].down != []
    ensures var f := s.conns[c].down[0];
            var v := ViewOf(PopDown(s, c), x);
            Sane(v.down) && EndOk(if x == End(c, f.sid) then v.(down := Unpopped(v.down, f)) else v)
  {
    ViewPopDown(s, c, x);
  }

  lemma AgentRecvAt(s: State, c: Conn, outcome: Outcome, x: End)
    requires Peers(s) && OkAt(s, x) && c in s.conns && s.conns[c].down != []
    ensures OkAt(AgentRecvStep(s, c, outcome), x)
  {
    if x in s.ends {
      var f := s.conns[c].down[0];
      var v := ViewOf(PopDown(s, c), x);
      AgentRecvViews(s, c, outcome, x);
      BeforeRecv(s, c, x);
      if x == End(c, f.sid) {
        AgentRecvOk(v, f, outcome);
      }
    }
  }

  // ---- the gateway's steps, as seen by the ends -------------------------------------

  /** An end the gateway sends a session_close to. */
  function ToldView(v: View, sid: Sid): View {
    v.(s := v.s.(told := v.s.told + 1), down := Pushed(v.down, Close(sid)))
  }

  /** The end on whose behalf the gateway cuts a bridge. */
  function CutOwnView(v: View, told: bool): View {
    v.(bridged := false, peerTold := v.peerTold + One(told))
  }

  /** The other end of a cut bridge: told, if its connection can be sent to. */
  function CutPeerView(v: View, sid: Sid): View {
    if v.gwUp then ToldView(v.(bridged := false), sid) else v.(bridged := false)
  }

  /** The end closed at its agent, and the gateway has now read that. */
  lemma CutByCloseOk(v: View, sid: Sid, told: bool)
    requires EndOk(v.(up := Unpopped(v.up, Close(sid)))) && Sane(v.up) && v.bridged
    ensures EndOk(CutOwnView(v, told))
  {
    assert [] + v.up.payload == v.up.payload;
    assert v.s.relayed <= v.s.relayed + v.up.payload;
  }

  /** A close for a session the gateway does not bridge (any more). */
  lemma UnknownCloseOk(v: View, sid: Sid)
    requires EndOk(v.(up := Unpopped(v.up, Close(sid)))) && Sane(v.up) && !v.bridged
    ensures EndOk(v)
  {
    assert [] + v.up.payload == v.up.payload;
  }

  /** The end's client left; its cleanup cuts the bridge. */
  lemma CutByCleanupOk(v: View, told: bool)
    requires EndOk(v) && v.bridged && v.left && v.client
    ensures EndOk(CutOwnView(v, told))
  {
    assert v.s.relayed <= v.s.relayed + v.up.payload;
  }

  lemma CutPeerOk(v: View, sid: Sid)
    requires EndOk(v) && v.bridged && !v.pending
    ensures EndOk(CutPeerView(v, sid).(peerTold := v.peerTold))
  {
    assert v.s.relayed <= v.s.relayed + v.up.payload;
    assert v.down.payload + [] == v.down.payload;
  }

  /** The peer cannot be reached: nobody tells this end. */
  function OrphanView(v: View): View {
    v.(bridged := false, s := v.s.(orphan := true))
  }

  lemma OrphanOk(v: View, sid: Sid, bytes: Bytes)
    requires EndOk(v.(up := Unpopped(v.up, Data(sid, bytes)))) && Sane(v.up) && v.bridged && !v.peerGwUp
    ensures EndOk(OrphanView(v))
  {
    assert v.s.relayed <= v.s.relayed + (bytes + v.up.payload);
  }

  lemma OrphanAtOpenOk(v: View)
    requires EndOk(v) && v.bridged && !v.peerGwUp && v.client
    ensures EndOk(OrphanView(v))
  {
    assert v.s.relayed <= v.s.relayed + v.up.payload;
  }

  /** An unannounced server end whose connection is gone. */
  lemma CutUnannouncedOk(v: View)
    requires EndOk(v) && v.bridged && !v.gwUp
    ensures EndOk(v.(bridged := false, pending := false))
  {
    assert v.s.relayed <= v.s.relayed + v.up.payload;
  }

  lemma RelayOwnOk(v: View, sid: Sid, bytes: Bytes)
    requires EndOk(v.(up := Unpopped(v.up, Data(sid, bytes)))) && Sane(v.up) && v.bridged
    ensures EndOk(v.(s := v.s.(relayed := v.s.relayed + bytes)))
  {
    assert v.s.relayed + (bytes + v.up.payload) == (v.s.relayed + bytes) + v.up.payload;
  }

  lemma RelayPeerOk(v: View, sid: Sid, bytes: Bytes)
    requires EndOk(v) && v.bridged && !v.pending
    ensures EndOk(v.(peerRelayed := v.peerRelayed + bytes, down := Pushed(v.down, Data(sid, bytes))))
  {
    assert v.s.delivered + (v.down.payload + bytes) == (v.s.delivered + v.down.payload) + bytes;
    assert v.peerRelayed <= v.peerRelayed + bytes;
  }

  /** Data of a session the gateway does not bridge: dropped. */
  lemma UnknownDataOk(v: View, sid: Sid, bytes: Bytes)
    requires EndOk(v.(up := Unpopped(v.up, Data(sid, bytes)))) && Sane(v.up) && !v.bridged
    ensures EndOk(v)
  {
  }

  lemma RefuseOk(v: View, sid: Sid, route: string)
    requires EndOk(v.(up := Unpopped(v.up, Open(sid, route)))) && Sane(v.up) && v.peerTold == 0
    ensures v.gwUp ==> EndOk(ToldView(v, sid))
    ensures !v.gwUp ==> EndOk(v)
  {
    assert [] + v.up.payload == v.up.payload;
    assert v.down.payload + [] == v.down.payload;
    assert v.s.relayed <= v.s.sent;
  }

  lemma BridgeClientOk(v: View, sid: Sid, route: string, p: End, peerGwUp: bool)
    requires EndOk(v.(up := Unpopped(v.up, Open(sid, route)))) && Sane(v.up)
    ensures EndOk(v.(bridged := true, s := v.s.(peer := Some(p)), pending := false,
                     peerRelayed := [], peerTold := 0, peerGwUp := peerGwUp))
  {
    assert [] + v.up.payload == v.up.payload;
  }

  lemma AnnounceOk(v: View, sid: Sid)
    requires EndOk(v) && v.pending
    ensures EndOk(v.(pending := false, down := Pushed(v.down, Open(sid, ""))))
  {
    assert v.down.payload + [] == v.down.payload;
  }

  lemma ViewCut(s: State, cut: set<End>, x: End)
    requires x in s.ends && x.conn in s.conns
    ensures ViewOf(s.(bridges := s.bridges - cut), x)
            == ViewOf(s, x).(bridged := x in s.bridges && x !in cut)
  {
  }

  lemma TellViews(s: State, p: End, x: End)
    requires Peers(s) && p in s.ends && x in s.ends && s.conns[p.conn].gwUp
    ensures var v := ViewOf(s, x);
            ViewOf(Tell(s, p), x) == if x == p then ToldView(v, p.sid)
                                     else if s.ends[x].peer == Some(p) then v.(peerTold := v.peerTold + 1)
                                     else v
  {
    var w := s.ends[p].(told := s.ends[p].told + 1);
    var t := SetSess(s, p, w);
    ViewSetSess(s, p, w, x);
    assert x in t.ends && x.conn in t.conns && p.conn in t.conns && t.conns[p.conn].gwUp;
    assert Tell(s, p) == SendDown(t, p.conn, Close(p.sid));
    ViewSendDown(t, p.conn, Close(p.sid), x);
    assert x == End(p.conn, p.sid) <==> x == p;
    if x != p && s.ends[x].peer == Some(p) {
      PeerValues(s, p, x);
      assert ViewOf(t, x) == ViewOf(s, x).(peerTold := w.told);
    }
  }

  /** What a view says about the peer is the peer's state. */
  lemma PeerValues(s: State, p: End, x: End)
    requires Peers(s) && p in s.ends && x in s.ends
    ensures s.ends[x].peer == Some(p) ==>
              && x != p
              && ViewOf(s, x).peerTold == s.ends[p].told
              && ViewOf(s, x).peerRelayed == s.ends[p].relayed
              && ViewOf(s, x).peerGwUp == s.conns[p.conn].gwUp
  {
  }

  lemma PeersBridges(s: State, bridges: map<End, End>)
    requires Peers(s)
    ensures Peers(s.(bridges := bridges))
  {
  }

  lemma PeerUnique(s: State, e: End, x: End)
    requires Peers(s) && Involution(s) && e in s.bridges && x in s.ends
    ensures e != s.bridges[e] && s.bridges[e] in s.ends && s.bridges[e].conn in s.conns
    ensures s.ends[x].peer == Some(s.bridges[e]) <==> x == e
  {
  }

  lemma UnbridgeViews(s: State, e: End, x: End)
    requires Peers(s) && Involution(s) && e in s.bridges && x in s.ends
    ensures var p := s.bridges[e];
            var v := ViewOf(s, x);
            ViewOf(Unbridge(s, e), x) == if x == e then CutOwnView(v, s.conns[p.conn].gwUp)
                                         else if x == p then CutPeerView(v, p.sid)
                                         else v
  {
    var p := s.bridges[e];
    PeerUnique(s, e, x);
    UnbridgeViewsAt(s, e, p, x);
  }

  lemma UnbridgeViewsAt(s: State, e: End, p: End, x: End)
    requires Peers(s) && e in s.bridges && p == s.bridges[e] && x in s.ends && p in s.ends && e != p
    requires x !in s.bridges ==> x != p && x != e
    requires s.ends[x].peer == Some(p) <==> x == e
    ensures var v := ViewOf(s, x);
            ViewOf(Unbridge(s, e), x) == if x == e then CutOwnView(v, s.conns[p.conn].gwUp)
                                         else if x == p then CutPeerView(v, p.sid)
                                         else v
  {
    var bridges := s.bridges - {e, p};
    var cut := s.(bridges := bridges);
    ViewCut(s, {e, p}, x);
    if s.conns[p.conn].gwUp {
      PeersBridges(s, bridges);
      TellViews(cut, p, x);
    }
  }

  lemma AbandonViews(s: State, e: End, x: End)
    requires Peers(s) && Involution(s) && e in s.bridges && x in s.ends
    requires !s.conns[s.bridges[e].conn].gwUp
    ensures var v := ViewOf(s, x);
            ViewOf(Abandon(s, e), x) == if x == e then OrphanView(v)
                                        else if x == s.bridges[e] then v.(bridged := false)
                                        else v
  {
    var cut := Unbridge(s, e);
    UnbridgeViews(s, e, x);
    ViewSetOwn(cut, e, cut.ends[e].(orphan := true), x);
  }

  lemma RelayViews(s: State, e: End, bytes: Bytes, x: End)
    requires Peers(s) && Involution(s) && e in s.bridges && x in s.ends
    requires s.conns[s.bridges[e].conn].gwUp
    ensures var p := s.bridges[e];
            var v := ViewOf(s, x);
            ViewOf(Relay(s, e, bytes), x)
            == if x == e then v.(s := v.s.(relayed := v.s.relayed + bytes))
               else if x == p
               then v.(peerRelayed := v.peerRelayed + bytes, down := Pushed(v.down, Data(p.sid, bytes)))
               else v
  {
    var p := s.bridges[e];
    var w := s.ends[e].(relayed := s.ends[e].relayed + bytes);
    assert p in s.ends && s.ends[e].peer == Some(p) && s.ends[p].peer == Some(e);
    var t := SetSess(s, e, w);
    ViewSetSess(s, e, w, x);
    assert x in t.ends && x.conn in t.conns && p.conn in t.conns && t.conns[p.conn].gwUp;
    assert Relay(s, e, bytes) == SendDown(t, p.conn, Data(p.sid, bytes));
    ViewSendDown(t, p.conn, Data(p.sid, bytes), x);
    assert x == End(p.conn, p.sid) <==> x == p;
    PeerValues(s, e, x);
    assert s.ends[x].peer == Some(e) <==> x == p;
  }

  // ---- whole steps, at one end --------------------------------------------------------

  lemma PumpDataAt(s: State, e: End, bytes: Bytes, x: End)
    requires Peers(s) && OkAt(s, x) && e in s.ends && s.ends[e].pump
    ensures OkAt(PumpDataStep(s, e, bytes), x)
  {
    if x in s.ends {
      PumpDataViews(s, e, bytes, x);
      if x == e {
        PumpDataOk(ViewOf(s, e), e.sid, bytes);
      }
    }
  }

  lemma PumpEofAt(s: State, e: End, x: End)
    requires Peers(s) && OkAt(s, x) && e in s.ends && s.ends[e].pump
    ensures OkAt(PumpEofStep(s, e), x)
  {
    if x in s.ends {
      PumpEofViews(s, e, x);
      if x == e {
        PumpEofOk(ViewOf(s, e), e.sid);
      }
    }
  }

  /** End `x` was fine before the gateway took frame `f` of end `e` off its channel. */
  ghost predicate OkBefore(t: State, e: End, f: Frame, x: End) {
    x in t.ends ==>
      && x.conn in t.conns && Sane(ViewOf(t, x).up)
      && EndOk(if x == e then ViewOf(t, x).(up := Unpopped(ViewOf(t, x).up, f)) else ViewOf(t, x))
  }

  lemma PopUpBefore(s: State, c: Conn, x: End)
    requires Peers(s) && OkAt(s, x) && c in s.conns && s.conns[c].up != []
    ensures OkBefore(PopUp(s, c), End(c, s.conns[c].up[0].sid), s.conns[c].up[0], x)
  {
    if x in s.ends {
      ViewPopUp(s, c, x);
    }
  }

  /** The gateway announces a session before it reads on from the client. */
  lemma NotPending(s: State, e: End)
    requires Peers(s) && Involution(s) && e in s.bridges && s.conns[e.conn].task.Serving?
    ensures s.bridges[e] in s.ends && s.bridges[e].conn in s.conns && !ViewOf(s, s.bridges[e]).pending
  {
    var p := s.bridges[e];
    assert s.ends[p].peer == Some(e);
  }

  lemma UnbridgeAt(t: State, e: End, f: Frame, x: End)
    requires Peers(t) && Involution(t) && f.Close? && f.sid == e.sid && OkBefore(t, e, f, x)
    requires e in t.ends && t.conns[e.conn].task.Serving?
    ensures OkAt(Unbridge(t, e), x)
  {
    if e in t.bridges {
      UnbridgeBridgedAt(t, e, f, x);
    } else if x == e {
      UnknownCloseOk(ViewOf(t, x), e.sid);
    }
  }

  lemma UnbridgeBridgedAt(t: State, e: End, f: Frame, x: End)
    requires Peers(t) && Involution(t) && f.Close? && f.sid == e.sid && OkBefore(t, e, f, x)
    requires e in t.bridges && t.conns[e.conn].task.Serving?
    ensures OkAt(Unbridge(t, e), x)
  {
    if x in t.ends {
      var v := ViewOf(t, x);
      UnbridgeViews(t, e, x);
      NotPending(t, e);
      if x == e {
        CutByCloseOk(v, e.sid, t.conns[t.bridges[e].conn].gwUp);
      } else if x == t.bridges[e] {
        CutPeerOk(v, x.sid);
      }
    }
  }

  lemma RelayUpAt(t: State, e: End, f: Frame, x: End)
    requires Peers(t) && Involution(t) && f.Data? && f.sid == e.sid && OkBefore(t, e, f, x)
    requires e in t.bridges && t.conns[e.conn].task.Serving? && t.conns[t.bridges[e].conn].gwUp
    ensures OkAt(Relay(t, e, f.bytes), x)
  {
    if x in t.ends {
      var v := ViewOf(t, x);
      RelayViews(t, e, f.bytes, x);
      NotPending(t, e);
      if x == e {
        RelayOwnOk(v, e.sid, f.bytes);
      } else if x == t.bridges[e] {
        RelayPeerOk(v, x.sid, f.bytes);
      }
    }
  }

  lemma AbandonAt(t: State, e: End, f: Frame, x: End)
    requires Peers(t) && Involution(t) && f.Data? && f.sid == e.sid && OkBefore(t, e, f, x)
    requires e in t.bridges && t.conns[e.conn].task.Serving? && !t.conns[t.bridges[e].conn].gwUp
    ensures OkAt(Abandon(t, e), x)
  {
    if x in t.ends {
      var v := ViewOf(t, x);
      AbandonViews(t, e, x);
      NotPending(t, e);
      if x == e {
        PeerValues(t, t.bridges[e], e);
        OrphanOk(v, e.sid, f.bytes);
      } else if x == t.bridges[e] {
        CutPeerOk(v, x.sid);
      }
    }
  }

  lemma RelayAt(t: State, e: End, f: Frame, x: End)
    requires Peers(t) && Involution(t) && f.Data? && f.sid == e.sid && OkBefore(t, e, f, x)
    requires e in t.ends && t.conns[e.conn].task.Serving?
    ensures OkAt(Relay(t, e, f.bytes), x)
  {
    if e !in t.bridges {
      if x == e {
        UnknownDataOk(ViewOf(t, e), e.sid, f.bytes);
      }
    } else if t.conns[t.bridges[e].conn].gwUp {
      RelayUpAt(t, e, f, x);
    } else {
      AbandonAt(t, e, f, x);
    }
  }

  lemma RefuseAt(t: State, e: End, f: Frame, x: End)
    requires Peers(t) && f.Open? && f.sid == e.sid && OkBefore(t, e, f, x) && OkBefore(t, e, f, e)
    requires e in t.ends && t.conns[e.conn].task.Serving?
    ensures OkAt(Refuse(t, e), x)
  {
    if x in t.ends {
      var v := ViewOf(t, x);
      assert t.ends[e].peer.None?;
      assert t.ends[x].peer != Some(e);
      if t.conns[e.conn].gwUp {
        TellViews(t, e, x);
      } else {
        LeavingViews(t, e.conn, x);
      }
      if x == e {
        RefuseOk(v, e.sid, f.route);
      }
    }
  }

  lemma LeavingViews(s: State, c: Conn, x: End)
    requires c in s.conns && s.conns[c].task.Serving? && x in s.ends && x.conn in s.conns
    ensures ViewOf(SetTask(s, c, Leaving), x) == ViewOf(s, x)
  {
    ViewSetTask(s, c, Leaving, x);
  }
}
