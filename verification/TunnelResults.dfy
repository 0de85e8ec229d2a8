/** What the invariant means for the users of the tunnel. */
module TunnelResults {
  import opened Common
  import opened Tunnel
  import opened TunnelInvariant
  import opened TunnelRuns

  /** Relay correctness and isolation: in every reachable state, the bytes written to a session's
      socket are a prefix of the bytes read from the socket of the one end it is paired with; an
      unpaired end has been given nothing. The two ends belong to a client and to a server. */
  lemma DeliveredIsPrefix(cfg: Config, s: State, e: End)
    requires Reachable(cfg, s) && e in s.ends
    ensures s.ends[e].peer.None? ==> s.ends[e].delivered == []
    ensures s.ends[e].peer.Some? ==>
      var p := s.ends[e].peer.value;
      && p in s.ends && s.ends[p].peer == Some(e)
      && p.conn in s.conns && e.conn in s.conns
      && s.conns[p.conn].node.client != s.conns[e.conn].node.client
      && s.ends[e].delivered <= s.ends[p].sent
  {
    ReachableInv(cfg, s);
    assert OkAt(s, e);
    if s.ends[e].peer.Some? {
      var p := s.ends[e].peer.value;
      assert OkAt(s, p);
      FarPrefix(ViewOf(s, e));
      NearPrefix(ViewOf(s, p));
    }
  }

  lemma NearPrefix(v: View)
    requires EndOk(v)
    ensures v.s.relayed <= v.s.sent
  {
    assert v.s.relayed <= v.s.relayed + v.up.payload;
  }

  lemma FarPrefix(v: View)
    requires EndOk(v) && v.s.peer.Some?
    ensures v.s.delivered <= v.peerRelayed
  {
    assert v.s.delivered <= v.s.delivered + v.down.payload;
  }

  /** The bytes of session `sid` in a channel. */
  function InFlight(ch: seq<Frame>, sid: Sid): Bytes {
    Summary(Only(ch, sid)).payload
  }

  /** Nothing is lost on an open session: while the sending agent is connected, the gateway bridges
      the session and the receiving agent holds its writer, the bytes sent are exactly the bytes
      delivered, then those between gateway and receiver, then those between sender and gateway. */
  lemma OpenSessionLosesNothing(cfg: Config, s: State, e: End)
    requires Reachable(cfg, s) && e in s.bridges
    requires e.conn in s.conns && s.conns[e.conn].agentUp
    requires s.bridges[e] in s.ends && s.ends[s.bridges[e]].writer
    ensures var p := s.bridges[e];
            && e in s.ends && p.conn in s.conns
            && s.ends[e].sent == s.ends[p].delivered + InFlight(s.conns[p.conn].down, p.sid)
                                 + InFlight(s.conns[e.conn].up, e.sid)
  {
    ReachableInv(cfg, s);
    var p := s.bridges[e];
    assert s.ends[e].peer == Some(p) && s.ends[p].peer == Some(e);
    assert OkAt(s, e) && OkAt(s, p);
    assert ViewOf(s, p).peerRelayed == s.ends[e].relayed;
  }

  lemma {:induction false} OnlyFirst(ch: seq<Frame>, i: nat)
    requires i < |ch|
    ensures Only(ch, ch[i].sid) != []
    ensures exists j :: 0 <= j <= i && ch[j].sid == ch[i].sid && ch[j] == Only(ch, ch[i].sid)[0]
  {
    if ch[0].sid != ch[i].sid {
      assert [] + Only(ch[1..], ch[i].sid) == Only(ch[1..], ch[i].sid);
      OnlyFirst(ch[1..], i - 1);
      var j :| 0 <= j <= i - 1 && ch[1..][j].sid == ch[i].sid && ch[1..][j] == Only(ch, ch[i].sid)[0];
      assert ch[j + 1] == ch[1..][j];
    }
  }

  /** A server agent hears of a session before it hears anything else about it: ahead of every frame
      of a session it has not set up yet, the channel holds that session's session_open. */
  lemma OpenComesFirst(cfg: Config, s: State, e: End, i: nat)
    requires Reachable(cfg, s) && e in s.ends && !s.ends[e].started && e.conn in s.conns
    requires i < |s.conns[e.conn].down| && s.conns[e.conn].down[i].sid == e.sid
    ensures exists j :: 0 <= j <= i && s.conns[e.conn].down[j].Open? && s.conns[e.conn].down[j].sid == e.sid
  {
    ReachableInv(cfg, s);
    assert OkAt(s, e);
    OnlyFirst(s.conns[e.conn].down, i);
  }

  /** The bridge table is an involution without fixed points in every reachable state, and a
      client's entry always leads to a server's. */
  lemma BridgesAreAnInvolution(cfg: Config, s: State, e: End)
    requires Reachable(cfg, s) && e in s.bridges
    ensures s.bridges[e] in s.bridges && s.bridges[s.bridges[e]] == e && s.bridges[e] != e
    ensures e.conn in s.conns && s.bridges[e].conn in s.conns
            && s.conns[e.conn].node.client != s.conns[s.bridges[e].conn].node.client
  {
    ReachableInv(cfg, s);
    assert s.ends[e].peer == Some(s.bridges[e]);
  }

  /** Once a client's cleanup loop is through, no bridge entry mentions its connection, as key or as
      value, whatever other tasks did between the loop's awaits, then and ever after. */
  lemma CleanedUpClientIsForgotten(cfg: Config, s: State, c: Conn, e: End)
    requires Reachable(cfg, s) && c in s.conns && s.conns[c].node.client && s.conns[c].task.Ended?
    requires e in s.bridges
    ensures e.conn != c && s.bridges[e].conn != c
  {
    ReachableInv(cfg, s);
    assert TaskOk(s, c);
    assert s.bridges[e] in s.bridges;
  }

  // ---- closing --------------------------------------------------------------------------------

  ghost predicate Live(l: Link) {
    l.agentUp && l.gwUp && !l.task.Cleaning? && !l.task.Ended?
  }

  /** No frame of session end `e` is on its way. */
  ghost predicate Drained(s: State, e: End)
    requires e.conn in s.conns
  {
    Only(s.conns[e.conn].up, e.sid) == [] && Only(s.conns[e.conn].down, e.sid) == []
  }

  /** Closing reaches every hop: with both connections live and the session's channels drained, once
      one end has closed at its agent, the gateway has no bridge for it and the other end has closed. */
  lemma ClosedEverywhere(cfg: Config, s: State, e: End, p: End)
    requires Reachable(cfg, s) && e in s.ends && s.ends[e].peer == Some(p) && p in s.ends
    requires e.conn in s.conns && p.conn in s.conns && Live(s.conns[e.conn]) && Live(s.conns[p.conn])
    requires Drained(s, e) && Drained(s, p)
    requires s.ends[e].started && !s.ends[e].writer
    ensures e !in s.bridges && p !in s.bridges && s.ends[p].started && !s.ends[p].writer
  {
    ReachableInv(cfg, s);
    assert OkAt(s, e) && OkAt(s, p);
    assert ViewOf(s, p).peerGwUp;
    BridgedTogether(s, e, p);
  }

  lemma BridgedTogether(s: State, e: End, p: End)
    requires Tables(s) && e in s.ends && s.ends[e].peer == Some(p)
    ensures e in s.bridges <==> p in s.bridges
  {
    assert p in s.ends && s.ends[p].peer == Some(e);
  }

  /** An end whose agent still holds its writer, cut off at the gateway over a working connection:
      a session_close is on its way to it exactly when the gateway did not cut the bridge because
      it could not send this end's bytes (or its session_open) to the peer. */
  lemma ToldExactlyUnlessOrphaned(cfg: Config, s: State, e: End)
    requires Reachable(cfg, s) && e in s.ends && s.ends[e].peer.Some? && s.ends[e].writer && e !in s.bridges
    requires e.conn in s.conns && s.conns[e.conn].gwUp
    requires s.conns[e.conn].node.client ==> !s.conns[e.conn].task.Cleaning? && !s.conns[e.conn].task.Ended?
    ensures Summary(Only(s.conns[e.conn].down, e.sid)).closes > 0 <==> !s.ends[e].orphan
  {
    ReachableInv(cfg, s);
    assert OkAt(s, e);
  }

  /** An agent sends at most two session_close frames for a session, and the gateway at most one for
      the two ends of a session together. */
  lemma FewCloseFrames(cfg: Config, s: State, e: End)
    requires Reachable(cfg, s) && e in s.ends
    ensures s.ends[e].closes <= 2 && s.ends[e].told <= 1
    ensures s.ends[e].peer.Some? && s.ends[e].peer.value in s.ends ==>
              s.ends[e].told + s.ends[s.ends[e].peer.value].told + One(e in s.bridges) <= 1
  {
    ReachableInv(cfg, s);
    assert OkAt(s, e);
  }
}
