/** Who tells whom that a session is over: exactly which step leaves an end without a session_close, and
    what that means for whole runs. */
module TunnelTelling {
  import opened Common
  import opened Policy
  import opened Tunnel
  import opened TunnelInvariant
  import opened TunnelRuns
  import opened TunnelPairing
  import opened TunnelRecount
  import opened TunnelResults

  /** The gateway's task reads data of a bridged end, or goes on to announce it, and the partner's
      connection cannot be sent to: the handler of the failed send cuts the bridge. */
  ghost predicate Strands(s: State, ev: Event, e: End)
    requires Wired(s) && Enabled(s, ev)
  {
    && e in s.bridges && s.bridges[e].conn in s.conns && !s.conns[s.bridges[e].conn].gwUp
    && ((ev.GwRecv? && ev.c == e.conn && s.conns[ev.c].up[0].Data? && s.conns[ev.c].up[0].sid == e.sid)
        || (ev.GwOpenSend? && ev.c == e.conn && s.conns[ev.c].task.sid == e.sid))
  }

  /** The connection whose gateway task takes the step. */
  function TaskOf(ev: Event): Option<Conn> {
    match ev
    case GwRecv(c, _, _) => Some(c)
    case GwOpenSend(c) => Some(c)
    case CleanOne(c) => Some(c)
    case _ => None
  }

  /** What an end has been told, and whether it was left behind, after a step. */
  ghost predicate Telling(s: State, t: State, x: End, told: nat, stranded: bool) {
    x in s.ends && x in t.ends && t.ends[x].told == s.ends[x].told + told
    && (t.ends[x].orphan <==> s.ends[x].orphan || stranded)
  }

  // ---- the operations ------------------------------------------------------------------------------

  lemma CutTells(s: State, e: End, x: End)
    requires Wired(s) && Involution(s) && e in s.bridges && x in s.ends
    ensures Telling(s, Unbridge(s, e), x, One(x == s.bridges[e] && s.conns[x.conn].gwUp), false)
    ensures Unbridge(s, e).bridges == s.bridges - {e, s.bridges[e]}
  {
  }

  lemma AbandonTells(s: State, e: End, x: End)
    requires Wired(s) && Involution(s) && e in s.bridges && x in s.ends && !s.conns[s.bridges[e].conn].gwUp
    ensures Telling(s, Abandon(s, e), x, 0, x == e)
    ensures Abandon(s, e).bridges == s.bridges - {e, s.bridges[e]}
  {
    CutTells(s, e, x);
  }

  lemma RelayTells(s: State, e: End, bytes: Bytes, x: End)
    requires Wired(s) && Involution(s) && e in s.ends && x in s.ends
    ensures var lost := e in s.bridges && !s.conns[s.bridges[e].conn].gwUp;
      && Telling(s, Relay(s, e, bytes), x, 0, lost && x == e)
      && Relay(s, e, bytes).bridges == if lost then s.bridges - {e, s.bridges[e]} else s.bridges
  {
    if e in s.bridges && !s.conns[s.bridges[e].conn].gwUp {
      AbandonTells(s, e, x);
    }
  }

  /** Nothing is told, nobody is left behind, no bridge is cut. */
  ghost predicate Silent(s: State, t: State, x: End) {
    Telling(s, t, x, 0, false) && t.bridges == s.bridges
  }

  lemma CloseIsSilent(s: State, e: End, x: End)
    requires e in s.ends && e.conn in s.conns && x in s.ends
    ensures Silent(s, CloseAndNotify(s, e), x)
  {
  }

  lemma PumpIsSilent(s: State, e: End, bytes: Bytes, x: End)
    requires e in s.ends && e.conn in s.conns && x in s.ends
    ensures Silent(s, PumpDataStep(s, e, bytes), x)
    ensures Silent(s, PumpEofStep(s, e), x)
  {
    CloseIsSilent(SetSess(s, e, s.ends[e].(pump := false)), e, x);
  }

  lemma DeliverIsSilent(s: State, e: End, bytes: Bytes, outcome: Outcome, x: End)
    requires e in s.ends && e.conn in s.conns && x in s.ends
    ensures Silent(s, Deliver(s, e, bytes, outcome), x)
  {
    var v := s.ends[e];
    CloseIsSilent(SetSess(s, e, v.(delivered := if outcome.Fails? && !outcome.wrote then v.delivered else v.delivered + bytes)), e, x);
  }

  lemma OpenTargetIsSilent(s: State, e: End, outcome: Outcome, x: End)
    requires e in s.ends && e.conn in s.conns && x in s.ends
    ensures Silent(s, OpenTarget(s, e, outcome), x)
  {
    CloseIsSilent(SetSess(s, e, s.ends[e].(started := true)), e, x);
  }

  lemma AgentRecvIsSilent(s: State, c: Conn, outcome: Outcome, x: End)
    requires Wired(s) && c in s.conns && s.conns[c].down != [] && x in s.ends
    ensures Silent(s, AgentRecvStep(s, c, outcome), x)
  {
    var f := s.conns[c].down[0];
    var e := End(c, f.sid);
    var p := PopDown(s, c);
    if e in s.ends {
      match f
      case Open(_, _) => OpenTargetIsSilent(p, e, outcome, x);
      case Data(_, bytes) => DeliverIsSilent(p, e, bytes, outcome, x);
      case Close(_) =>
    }
  }

  // ---- the steps ---------------------------------------------------------------------------------------

  lemma AgentIsSilent(cfg: Config, s: State, ev: Event, x: End)
    requires Wired(s) && Enabled(s, ev) && x in s.ends
    requires ev.PumpData? || ev.PumpEof? || ev.AgentRecv?
    ensures Silent(s, Step(cfg, s, ev), x)
  {
    match ev
    case PumpData(e, bytes) => PumpIsSilent(s, e, bytes, x);
    case PumpEof(e) => PumpIsSilent(s, e, [], x);
    case AgentRecv(c, outcome) => AgentRecvIsSilent(s, c, outcome, x);
  }

  lemma AgentEndIsSilent(s: State, c: Conn, x: End)
    requires c in s.conns && x in s.ends
    ensures Silent(s, AgentEndStep(s, c), x)
  {
  }

  lemma TaskEndIsSilent(s: State, c: Conn, order: seq<Sid>, x: End)
    requires c in s.conns && x in s.ends
    ensures Silent(s, GwEndStep(s, c, order), x)
    ensures Silent(s, Unregister(SetTask(s, c, Ended), c), x)
  {
  }

  lemma LocalOpenIsSilent(s: State, c: Conn, sid: Sid, route: string, x: End)
    requires c in s.conns && End(c, sid) !in s.ends && x in s.ends
    ensures Silent(s, LocalOpenStep(s, c, sid, route), x)
  {
  }

  lemma ConnectionIsSilent(cfg: Config, s: State, ev: Event, x: End)
    requires Wired(s) && Enabled(s, ev) && x in s.ends
    requires ev.Accept? || ev.LocalOpen? || ev.AgentDown? || ev.AgentEnd? || ev.GwDown? || ev.GwEnd? || ev.CleanDone?
    ensures Silent(s, Step(cfg, s, ev), x)
  {
    match ev
    case LocalOpen(c, sid, route) => LocalOpenIsSilent(s, c, sid, route, x);
    case AgentEnd(c) => AgentEndIsSilent(s, c, x);
    case GwEnd(c, order) => TaskEndIsSilent(s, c, order, x);
    case CleanDone(c) => TaskEndIsSilent(s, c, [], x);
    case _ =>
  }

  lemma PopUpIsSilent(s: State, c: Conn, x: End)
    requires Wired(s) && Involution(s) && c in s.conns && s.conns[c].up != [] && x in s.ends
    ensures Silent(s, PopUp(s, c), x) && Wired(PopUp(s, c)) && Involution(PopUp(s, c))
  {
    PopUpWired(s, c);
  }

  lemma GrantIsSilent(cfg: Config, s: State, c: Conn, newSid: Sid, usage: Usage, x: End)
    requires Inv(s) && Wired(s) && Enabled(s, GwRecv(c, newSid, usage)) && Grants(cfg, s, c, usage) && x in s.ends
    ensures Telling(s, GwRecvStep(cfg, s, c, newSid, usage), x, 0, false)
    ensures x in s.bridges ==> x in GwRecvStep(cfg, s, c, newSid, usage).bridges
  {
    GrantedPairs(cfg, s, c, newSid, usage);
    if x in s.bridges {
      GrantAddsBridges(cfg, s, c, newSid, usage, x);
    }
  }

  lemma GrantAddsBridges(cfg: Config, s: State, c: Conn, newSid: Sid, usage: Usage, x: End)
    requires Wired(s) && Enabled(s, GwRecv(c, newSid, usage)) && Grants(cfg, s, c, usage)
    requires End(c, s.conns[c].up[0].sid) in s.ends && x in s.bridges
    ensures x in GwRecvStep(cfg, s, c, newSid, usage).bridges
  {
  }

  /** What a step does to an end: it is left behind exactly by a step that strands it; and if the step cuts
      its bridge, that was a task of its own or of its partner's connection, and it is told exactly in the
      second case, if its connection can be sent to. */
  ghost predicate AsSaid(s: State, t: State, ev: Event, x: End)
    requires Wired(s) && Enabled(s, ev)
  {
    && x in s.ends && x.conn in s.conns && x in t.ends
    && (t.ends[x].orphan <==> s.ends[x].orphan || Strands(s, ev, x))
    && (x in s.bridges ==>
          if x in t.bridges then t.ends[x].told == s.ends[x].told
          else if TaskOf(ev) == Some(x.conn) then t.ends[x].told == s.ends[x].told
          else TaskOf(ev) == Some(s.bridges[x].conn) && t.ends[x].told == s.ends[x].told + One(s.conns[x.conn].gwUp))
  }

  lemma SilentAsSaid(s: State, t: State, ev: Event, x: End)
    requires Wired(s) && Enabled(s, ev) && Silent(s, t, x) && !Strands(s, ev, x)
    ensures AsSaid(s, t, ev, x)
  {
  }

  /** A pair cut by the task of `e`'s connection. */
  lemma CutAsSaid(s: State, t: State, ev: Event, e: End, x: End, lost: bool)
    requires Wired(s) && Peers(s) && Involution(s) && Enabled(s, ev) && e in s.bridges && TaskOf(ev) == Some(e.conn)
    requires t.bridges == s.bridges - {e, s.bridges[e]}
    requires lost ==> !s.conns[s.bridges[e].conn].gwUp
    requires Telling(s, t, x, One(!lost && x == s.bridges[e] && s.conns[x.conn].gwUp), lost && x == e)
    requires Strands(s, ev, x) <==> lost && x == e
    ensures AsSaid(s, t, ev, x)
  {
    PartnersAreApart(s, e);
  }

  lemma PartnersAreApart(s: State, e: End)
    requires Peers(s) && Involution(s) && e in s.bridges
    ensures var p := s.bridges[e];
      p != e && p.conn != e.conn && p in s.bridges && s.bridges[p] == e && e.conn in s.conns && p.conn in s.conns
    ensures forall x :: x in s.bridges && x != e && x != s.bridges[e] ==> s.bridges[x] != e && s.bridges[x] != s.bridges[e]
  {
    assert s.ends[e].peer == Some(s.bridges[e]);
  }

  lemma RefusalAsSaid(s: State, t: State, ev: Event, x: End, asker: End)
    requires Wired(s) && Enabled(s, ev) && x in s.ends && asker in s.ends && asker.conn in s.conns && asker !in s.bridges
    requires t.ends == s.ends || t.ends == s.ends[asker := s.ends[asker].(told := s.ends[asker].told + 1)]
    requires t.bridges == s.bridges && !Strands(s, ev, x)
    ensures AsSaid(s, t, ev, x)
  {
  }

  lemma RefusedEnds(cfg: Config, s: State, c: Conn, newSid: Sid, usage: Usage)
    requires Wired(s) && Enabled(s, GwRecv(c, newSid, usage)) && s.conns[c].up[0].Open? && !Grants(cfg, s, c, usage)
    ensures var t := GwRecvStep(cfg, s, c, newSid, usage);
            var e := End(c, s.conns[c].up[0].sid);
            t.bridges == s.bridges
            && (t.ends == s.ends || (e in s.ends && t.ends == s.ends[e := s.ends[e].(told := s.ends[e].told + 1)]))
  {
    var p := PopUp(s, c);
    var e := End(c, s.conns[c].up[0].sid);
    assert p.bridges == s.bridges && p.ends == s.ends;
    if e in s.ends {
      RefuseEnds(p, e);
    }
  }

  lemma RefuseEnds(p: State, e: End)
    requires e in p.ends && e.conn in p.conns
    ensures Refuse(p, e).bridges == p.bridges
    ensures Refuse(p, e).ends == p.ends || Refuse(p, e).ends == p.ends[e := p.ends[e].(told := p.ends[e].told + 1)]
  {
  }

  lemma OpenAsSaid(cfg: Config, s: State, c: Conn, newSid: Sid, usage: Usage, x: End)
    requires Inv(s) && Wired(s) && Enabled(s, GwRecv(c, newSid, usage)) && s.conns[c].up[0].Open? && x in s.ends
    ensures AsSaid(s, GwRecvStep(cfg, s, c, newSid, usage), GwRecv(c, newSid, usage), x)
  {
    if Grants(cfg, s, c, usage) {
      GrantedAsSaid(cfg, s, c, newSid, usage, x);
    } else {
      AskerIsUnbridged(s, c);
      RefusedAsSaid(cfg, s, c, newSid, usage, x);
    }
  }

  lemma OpenStrandsNobody(s: State, c: Conn, newSid: Sid, usage: Usage, x: End)
    requires Wired(s) && Enabled(s, GwRecv(c, newSid, usage)) && s.conns[c].up[0].Open?
    ensures !Strands(s, GwRecv(c, newSid, usage), x)
  {
  }

  lemma GrantedAsSaid(cfg: Config, s: State, c: Conn, newSid: Sid, usage: Usage, x: End)
    requires Inv(s) && Wired(s) && Enabled(s, GwRecv(c, newSid, usage)) && Grants(cfg, s, c, usage) && x in s.ends
    ensures AsSaid(s, GwRecvStep(cfg, s, c, newSid, usage), GwRecv(c, newSid, usage), x)
  {
    GrantIsSilent(cfg, s, c, newSid, usage, x);
    OpenStrandsNobody(s, c, newSid, usage, x);
    GrantAsSaid(s, GwRecvStep(cfg, s, c, newSid, usage), GwRecv(c, newSid, usage), x);
  }

  lemma GrantAsSaid(s: State, t: State, ev: Event, x: End)
    requires Wired(s) && Enabled(s, ev) && Telling(s, t, x, 0, false) && (x in s.bridges ==> x in t.bridges)
    requires !Strands(s, ev, x)
    ensures AsSaid(s, t, ev, x)
  {
  }

  lemma RefusedAsSaid(cfg: Config, s: State, c: Conn, newSid: Sid, usage: Usage, x: End)
    requires Wired(s) && Enabled(s, GwRecv(c, newSid, usage)) && s.conns[c].up[0].Open? && x in s.ends
    requires End(c, s.conns[c].up[0].sid) in s.ends && End(c, s.conns[c].up[0].sid) !in s.bridges
    requires !Grants(cfg, s, c, usage)
    ensures AsSaid(s, GwRecvStep(cfg, s, c, newSid, usage), GwRecv(c, newSid, usage), x)
  {
    RefusedEnds(cfg, s, c, newSid, usage);
    RefusalAsSaid(s, GwRecvStep(cfg, s, c, newSid, usage), GwRecv(c, newSid, usage), x, End(c, s.conns[c].up[0].sid));
  }

  /** Nothing but the channel changes when a frame is taken off it. */
  lemma PopUpSame(s: State, c: Conn)
    requires c in s.conns && s.conns[c].up != []
    ensures var p := PopUp(s, c);
      && p.bridges == s.bridges && p.ends == s.ends && p.conns.Keys == s.conns.Keys
      && forall d :: d in s.conns ==> p.conns[d].gwUp == s.conns[d].gwUp
  {
  }

  lemma PopUpTells(s: State, c: Conn, t: State, x: End, told: nat, stranded: bool)
    requires c in s.conns && s.conns[c].up != [] && Telling(PopUp(s, c), t, x, told, stranded)
    ensures Telling(s, t, x, told, stranded)
  {
    PopUpSame(s, c);
  }

  lemma DataIsRelayed(cfg: Config, s: State, c: Conn, newSid: Sid, usage: Usage)
    requires Wired(s) && Enabled(s, GwRecv(c, newSid, usage)) && s.conns[c].up[0].Data? && Wired(PopUp(s, c))
    requires End(c, s.conns[c].up[0].sid) in s.ends
    ensures GwRecvStep(cfg, s, c, newSid, usage) == Relay(PopUp(s, c), End(c, s.conns[c].up[0].sid), s.conns[c].up[0].bytes)
  {
  }

  lemma CloseIsCut(cfg: Config, s: State, c: Conn, newSid: Sid, usage: Usage)
    requires Wired(s) && Enabled(s, GwRecv(c, newSid, usage)) && s.conns[c].up[0].Close? && Wired(PopUp(s, c))
    requires End(c, s.conns[c].up[0].sid) in s.ends
    ensures GwRecvStep(cfg, s, c, newSid, usage) == Unbridge(PopUp(s, c), End(c, s.conns[c].up[0].sid))
  {
  }

  lemma DataStrands(s: State, c: Conn, newSid: Sid, usage: Usage, x: End)
    requires Wired(s) && Enabled(s, GwRecv(c, newSid, usage)) && s.conns[c].up[0].Data?
    ensures Strands(s, GwRecv(c, newSid, usage), x) <==>
      x == End(c, s.conns[c].up[0].sid) && x in s.bridges && !s.conns[s.bridges[x].conn].gwUp
  {
  }

  lemma DataAsSaid(cfg: Config, s: State, c: Conn, newSid: Sid, usage: Usage, x: End)
    requires Wired(s) && Peers(s) && Involution(s) && Enabled(s, GwRecv(c, newSid, usage)) && s.conns[c].up[0].Data?
    requires x in s.ends && End(c, s.conns[c].up[0].sid) in s.ends
    ensures AsSaid(s, GwRecvStep(cfg, s, c, newSid, usage), GwRecv(c, newSid, usage), x)
  {
    var ev := GwRecv(c, newSid, usage);
    var f := s.conns[c].up[0];
    var e := End(c, f.sid);
    PopUpIsSilent(s, c, x);
    PopUpSame(s, c);
    DataIsRelayed(cfg, s, c, newSid, usage);
    DataStrands(s, c, newSid, usage, x);
    var t := GwRecvStep(cfg, s, c, newSid, usage);
    var lost := e in s.bridges && !s.conns[s.bridges[e].conn].gwUp;
    RelayTells(PopUp(s, c), e, f.bytes, x);
    PopUpTells(s, c, t, x, 0, lost && x == e);
    if lost {
      CutAsSaid(s, t, ev, e, x, true);
    } else {
      SilentAsSaid(s, t, ev, x);
    }
  }

  lemma CloseAsSaid(cfg: Config, s: State, c: Conn, newSid: Sid, usage: Usage, x: End)
    requires Wired(s) && Peers(s) && Involution(s) && Enabled(s, GwRecv(c, newSid, usage)) && s.conns[c].up[0].Close?
    requires x in s.ends && End(c, s.conns[c].up[0].sid) in s.ends
    ensures AsSaid(s, GwRecvStep(cfg, s, c, newSid, usage), GwRecv(c, newSid, usage), x)
  {
    var ev := GwRecv(c, newSid, usage);
    var e := End(c, s.conns[c].up[0].sid);
    PopUpIsSilent(s, c, x);
    PopUpSame(s, c);
    CloseIsCut(cfg, s, c, newSid, usage);
    var t := GwRecvStep(cfg, s, c, newSid, usage);
    if e in s.bridges {
      CutTells(PopUp(s, c), e, x);
      PopUpTells(s, c, t, x, One(x == s.bridges[e] && s.conns[x.conn].gwUp), false);
      CutAsSaid(s, t, ev, e, x, false);
    } else {
      PopUpTells(s, c, t, x, 0, false);
      SilentAsSaid(s, t, ev, x);
    }
  }

  lemma AnnounceIsSilent(s: State, c: Conn, x: End)
    requires Wired(s) && Enabled(s, GwOpenSend(c)) && x in s.ends && s.conns[s.conns[c].task.target.conn].gwUp
    ensures Silent(s, GwOpenSendStep(s, c), x)
  {
  }

  /** The server cannot be sent to: its client's end is left behind. */
  lemma AnnounceTells(s: State, c: Conn, x: End)
    requires Wired(s) && Involution(s) && Enabled(s, GwOpenSend(c)) && x in s.ends
    requires !s.conns[s.conns[c].task.target.conn].gwUp
    ensures var e := End(c, s.conns[c].task.sid);
      && e in s.bridges && Telling(s, GwOpenSendStep(s, c), x, 0, x == e)
      && GwOpenSendStep(s, c).bridges == s.bridges - {e, s.bridges[e]}
  {
    ServingWired(s, c);
    AbandonTells(SetTask(s, c, Serving), End(c, s.conns[c].task.sid), x);
  }

  lemma AnnounceStrands(s: State, c: Conn, x: End)
    requires Wired(s) && Enabled(s, GwOpenSend(c))
    ensures Strands(s, GwOpenSend(c), x) <==>
      x == End(c, s.conns[c].task.sid) && !s.conns[s.conns[c].task.target.conn].gwUp
  {
  }

  lemma OpenSendAsSaid(s: State, c: Conn, x: End)
    requires Wired(s) && Peers(s) && Involution(s) && Enabled(s, GwOpenSend(c)) && x in s.ends
    ensures AsSaid(s, GwOpenSendStep(s, c), GwOpenSend(c), x)
  {
    AnnounceStrands(s, c, x);
    if s.conns[s.conns[c].task.target.conn].gwUp {
      AnnounceIsSilent(s, c, x);
      SilentAsSaid(s, GwOpenSendStep(s, c), GwOpenSend(c), x);
    } else {
      AnnounceTells(s, c, x);
      CutAsSaid(s, GwOpenSendStep(s, c), GwOpenSend(c), End(c, s.conns[c].task.sid), x, true);
    }
  }

  lemma CleanOneAsSaid(s: State, c: Conn, x: End)
    requires Inv(s) && Wired(s) && Enabled(s, CleanOne(c)) && x in s.ends
    ensures AsSaid(s, CleanOneStep(s, c), CleanOne(c), x)
  {
    var e := End(c, s.conns[c].task.left[0]);
    var u := CleanOneStep(s, c);
    if e in s.bridges {
      CutTells(s, e, x);
      CutAsSaid(s, u, CleanOne(c), e, x, false);
    } else {
      SilentAsSaid(s, u, CleanOne(c), x);
    }
  }

  lemma GwRecvAsSaid(cfg: Config, s: State, c: Conn, newSid: Sid, usage: Usage, x: End)
    requires Inv(s) && Wired(s) && Enabled(s, GwRecv(c, newSid, usage)) && x in s.ends
    ensures AsSaid(s, GwRecvStep(cfg, s, c, newSid, usage), GwRecv(c, newSid, usage), x)
  {
    AskerIsKnown(s, c);
    match s.conns[c].up[0]
    case Open(_, _) => OpenAsSaid(cfg, s, c, newSid, usage, x);
    case Data(_, _) => DataAsSaid(cfg, s, c, newSid, usage, x);
    case Close(_) => CloseAsSaid(cfg, s, c, newSid, usage, x);
  }

  lemma AskerIsKnown(s: State, c: Conn)
    requires Frames(s) && c in s.conns && s.conns[c].up != []
    ensures End(c, s.conns[c].up[0].sid) in s.ends
  {
    assert FramesKnown(s, c, s.conns[c].up);
  }

  lemma StepAsSaid(cfg: Config, s: State, ev: Event, x: End)
    requires Inv(s) && Wired(s) && Enabled(s, ev) && x in s.ends
    ensures AsSaid(s, Step(cfg, s, ev), ev, x)
  {
    if ev.GwRecv? {
      GwRecvAsSaid(cfg, s, ev.c, ev.newSid, ev.usage, x);
    } else if ev.GwOpenSend? {
      OpenSendAsSaid(s, ev.c, x);
    } else if ev.CleanOne? {
      CleanOneAsSaid(s, ev.c, x);
    } else {
      QuietAsSaid(cfg, s, ev, x);
    }
  }

  lemma QuietAsSaid(cfg: Config, s: State, ev: Event, x: End)
    requires Wired(s) && Enabled(s, ev) && x in s.ends && TaskOf(ev).None?
    ensures AsSaid(s, Step(cfg, s, ev), ev, x)
  {
    if ev.PumpData? || ev.PumpEof? || ev.AgentRecv? {
      AgentIsSilent(cfg, s, ev, x);
    } else {
      ConnectionIsSilent(cfg, s, ev, x);
    }
    SilentAsSaid(s, Step(cfg, s, ev), ev, x);
  }

  // ---- what it comes to ----------------------------------------------------------------------------------

  /** An end is left behind by exactly two kinds of step: the gateway reads the end's own data, or goes on to
      announce it, and cannot send to its partner. */
  lemma OrphanedExactly(cfg: Config, s: State, ev: Event, e: End)
    requires Inv(s) && Wired(s) && Enabled(s, ev) && e in s.bridges
    ensures e in s.ends && e in Step(cfg, s, ev).ends && !s.ends[e].orphan
    ensures Step(cfg, s, ev).ends[e].orphan <==>
      && !s.conns[s.bridges[e].conn].gwUp
      && ((ev.GwRecv? && ev.c == e.conn && s.conns[e.conn].up[0].Data? && s.conns[e.conn].up[0].sid == e.sid)
          || (ev.GwOpenSend? && ev.c == e.conn && s.conns[e.conn].task.sid == e.sid))
  {
    assert OkAt(s, e);
    StepAsSaid(cfg, s, ev, e);
  }

  /** An end cut in a step, over a connection that can be sent to, is told exactly if it was its partner's
      task that did the cutting; else it was its own. */
  lemma CutIsToldExactly(cfg: Config, s: State, ev: Event, e: End)
    requires Inv(s) && Wired(s) && Enabled(s, ev) && e in s.bridges && e !in Step(cfg, s, ev).bridges
    requires s.conns[e.conn].gwUp
    ensures e in s.ends && e in Step(cfg, s, ev).ends
    ensures TaskOf(ev) == Some(e.conn) || TaskOf(ev) == Some(s.bridges[e].conn)
    ensures Step(cfg, s, ev).ends[e].told ==
      if TaskOf(ev) == Some(s.bridges[e].conn) then s.ends[e].told + 1 else s.ends[e].told
  {
    StepAsSaid(cfg, s, ev, e);
    assert s.ends[e].peer == Some(s.bridges[e]);
  }

  /** When a server's connection has ended at the gateway, its clients' sessions stay bridged until their own
      tasks cut them, and are not told. */
  lemma EndedServerTellsNobody(cfg: Config, s: State, ev: Event, e: End)
    requires Inv(s) && Wired(s) && Enabled(s, ev) && e in s.bridges
    requires s.bridges[e].conn in s.conns && s.conns[s.bridges[e].conn].task.Ended?
    ensures e in s.ends && e in Step(cfg, s, ev).ends && Step(cfg, s, ev).ends[e].told == s.ends[e].told
    ensures e !in Step(cfg, s, ev).bridges ==> TaskOf(ev) == Some(e.conn)
  {
    StepAsSaid(cfg, s, ev, e);
  }

  // ---- over whole runs --------------------------------------------------------------------------------------

  /** Some step of the run leaves the end behind. */
  ghost predicate EverStranded(cfg: Config, s: State, evs: seq<Event>, t: State, e: End)
    requires Run(cfg, s, evs, t)
    decreases |evs|
  {
    evs != [] && (Strands(s, evs[0], e) || EverStranded(cfg, Step(cfg, s, evs[0]), evs[1..], t, e))
  }

  lemma {:induction false} StrandedOverTheRun(cfg: Config, s: State, evs: seq<Event>, t: State, e: End)
    requires Inv(s) && Run(cfg, s, evs, t) && e in s.ends
    ensures e in t.ends && (t.ends[e].orphan <==> s.ends[e].orphan || EverStranded(cfg, s, evs, t, e))
    decreases |evs|
  {
    if evs != [] {
      StepAsSaid(cfg, s, evs[0], e);
      StepKeepsInv(cfg, s, evs[0]);
      StrandedOverTheRun(cfg, Step(cfg, s, evs[0]), evs[1..], t, e);
    }
  }

  lemma RunsOn(cfg: Config, s: State, evs: seq<Event>, t: State)
    requires Reachable(cfg, s) && Run(cfg, s, evs, t)
    ensures Reachable(cfg, t)
  {
    var before :| Run(cfg, EMPTY, before, s);
    RunBoth(cfg, EMPTY, before, s, evs, t);
  }

  lemma {:induction false} RunBoth(cfg: Config, s: State, a: seq<Event>, t: State, b: seq<Event>, u: State)
    requires Run(cfg, s, a, t) && Run(cfg, t, b, u)
    ensures Run(cfg, s, a + b, u)
    decreases |b|
  {
    if b == [] {
      assert a + b == a;
    } else {
      RunSnoc(cfg, s, a, t, b[0]);
      RunBoth(cfg, s, a + [b[0]], Step(cfg, t, b[0]), b[1..], u);
      assert a + b == a + [b[0]] + b[1..];
    }
  }

  /** In any run on from the bridging of an end: once it is cut off at the gateway, while its agent still
      holds its writer and its connection works, a session_close is on its way to it if and only if no step
      of the run left it behind, the gateway failing to send for the end itself. */
  lemma ToldExactly(cfg: Config, s: State, evs: seq<Event>, t: State, e: End)
    requires Reachable(cfg, s) && e in s.bridges && Run(cfg, s, evs, t)
    requires e in t.ends && t.ends[e].peer.Some? && t.ends[e].writer && e !in t.bridges
    requires e.conn in t.conns && t.conns[e.conn].gwUp
    requires t.conns[e.conn].node.client ==> !t.conns[e.conn].task.Cleaning? && !t.conns[e.conn].task.Ended?
    ensures Summary(Only(t.conns[e.conn].down, e.sid)).closes > 0 <==> !EverStranded(cfg, s, evs, t, e)
  {
    ReachableInv(cfg, s);
    assert OkAt(s, e);
    RunsOn(cfg, s, evs, t);
    StrandedOverTheRun(cfg, s, evs, t, e);
    ToldExactlyUnlessOrphaned(cfg, t, e);
  }
}
