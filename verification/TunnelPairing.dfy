/** Who talks to whom: a session is paired once, with the server its client asked for. */
module TunnelPairing {
  import opened Common
  import opened Policy
  import opened Tunnel
  import opened TunnelInvariant
  import opened TunnelRuns

  /** What no step takes back: a pairing, and the bytes that were read, relayed and written. */
  ghost predicate Extends(v: Sess, w: Sess) {
    (v.peer.Some? ==> w.peer == v.peer) && v.sent <= w.sent && v.relayed <= w.relayed && v.delivered <= w.delivered
  }

  /** The end goes on, with the same partner or none. */
  ghost predicate Continues(s: State, t: State, x: End) {
    x in s.ends ==> x in t.ends && Extends(s.ends[x], t.ends[x]) && t.ends[x].peer == s.ends[x].peer
  }

  // ---- the steps that pair nobody ------------------------------------------------------------

  lemma PumpDataContinues(s: State, e: End, bytes: Bytes, x: End)
    requires Wired(s) && e in s.ends
    ensures Continues(s, PumpDataStep(s, e, bytes), x)
  {
  }

  lemma PumpEofContinues(s: State, e: End, x: End)
    requires Wired(s) && e in s.ends
    ensures Continues(s, PumpEofStep(s, e), x)
  {
  }

  lemma CloseContinues(s: State, e: End, x: End)
    requires e in s.ends && e.conn in s.conns
    ensures Continues(s, CloseAndNotify(s, e), x)
  {
  }

  lemma DeliverContinues(s: State, e: End, bytes: Bytes, outcome: Outcome, x: End)
    requires Wired(s) && e in s.ends
    ensures Continues(s, Deliver(s, e, bytes, outcome), x)
  {
    var v := s.ends[e];
    if v.writer {
      var w := v.(delivered := if outcome.Fine? || outcome.wrote then v.delivered + bytes else v.delivered);
      assert v.delivered <= v.delivered + bytes;
      WrittenContinues(s, e, w, x);
      if outcome.Fails? {
        CloseContinues(SetSess(s, e, w), e, x);
      }
    }
  }

  lemma WrittenContinues(s: State, e: End, w: Sess, x: End)
    requires e in s.ends && w == s.ends[e].(delivered := w.delivered) && s.ends[e].delivered <= w.delivered
    ensures Continues(s, SetSess(s, e, w), x)
  {
  }

  lemma OpenTargetContinues(s: State, e: End, outcome: Outcome, x: End)
    requires Wired(s) && e in s.ends
    ensures Continues(s, OpenTarget(s, e, outcome), x)
  {
  }

  lemma AgentRecvContinues(s: State, c: Conn, outcome: Outcome, x: End)
    requires Wired(s) && c in s.conns && s.conns[c].down != []
    ensures Continues(s, AgentRecvStep(s, c, outcome), x)
  {
    var f := s.conns[c].down[0];
    var e := End(c, f.sid);
    var p := PopDown(s, c);
    if e in s.ends {
      match f
      case Open(_, _) => OpenTargetContinues(p, e, outcome, x);
      case Data(_, bytes) => DeliverContinues(p, e, bytes, outcome, x);
      case Close(_) =>
    }
  }

  lemma UnbridgeContinues(s: State, e: End, x: End)
    requires Wired(s)
    ensures Continues(s, Unbridge(s, e), x)
  {
  }

  lemma AbandonContinues(s: State, e: End, x: End)
    requires Wired(s) && e in s.ends
    ensures Continues(s, Abandon(s, e), x)
  {
    UnbridgeContinues(s, e, x);
  }

  lemma RelayContinues(s: State, e: End, bytes: Bytes, x: End)
    requires Wired(s) && e in s.ends
    ensures Continues(s, Relay(s, e, bytes), x)
  {
    AbandonContinues(s, e, x);
  }

  lemma RefuseContinues(s: State, e: End, x: End)
    requires Wired(s) && e in s.ends
    ensures Continues(s, Refuse(s, e), x)
  {
  }

  lemma ConnectionContinues(cfg: Config, s: State, ev: Event, x: End)
    requires Wired(s) && Enabled(s, ev)
    requires ev.Accept? || ev.LocalOpen? || ev.AgentDown? || ev.AgentEnd? || ev.GwDown?
    ensures Continues(s, Step(cfg, s, ev), x)
  {
    if ev.AgentEnd? {
      AgentEndContinues(s, ev.c, x);
    } else if ev.LocalOpen? {
      LocalOpenContinues(s, ev.c, ev.sid, ev.route, x);
    }
  }

  lemma AgentEndContinues(s: State, c: Conn, x: End)
    requires c in s.conns
    ensures Continues(s, AgentEndStep(s, c), x)
  {
  }

  lemma LocalOpenContinues(s: State, c: Conn, sid: Sid, route: string, x: End)
    requires c in s.conns && End(c, sid) !in s.ends
    ensures Continues(s, LocalOpenStep(s, c, sid, route), x)
  {
  }

  lemma TaskContinues(cfg: Config, s: State, ev: Event, x: End)
    requires Wired(s) && Enabled(s, ev) && (ev.GwEnd? || ev.CleanOne? || ev.CleanDone?)
    ensures Continues(s, Step(cfg, s, ev), x)
  {
    if ev.CleanOne? {
      UnbridgeContinues(s, End(ev.c, s.conns[ev.c].task.left[0]), x);
    }
  }

  lemma ServingWired(s: State, c: Conn)
    requires Wired(s) && c in s.conns
    ensures Wired(SetTask(s, c, Serving))
  {
  }

  lemma GwOpenSendContinues(s: State, c: Conn, x: End)
    requires Wired(s) && c in s.conns && s.conns[c].task.Opening?
    ensures Continues(s, GwOpenSendStep(s, c), x)
  {
    ServingWired(s, c);
    if !s.conns[s.conns[c].task.target.conn].gwUp {
      AbandonContinues(SetTask(s, c, Serving), End(c, s.conns[c].task.sid), x);
    }
  }

  /** Steps other than the gateway's receive step pair nobody. */
  lemma OtherStepsContinue(cfg: Config, s: State, ev: Event, x: End)
    requires Wired(s) && Enabled(s, ev) && !ev.GwRecv?
    ensures Continues(s, Step(cfg, s, ev), x)
  {
    if ev.PumpData? {
      PumpDataContinues(s, ev.e, ev.bytes, x);
    } else if ev.PumpEof? {
      PumpEofContinues(s, ev.e, x);
    } else if ev.AgentRecv? {
      AgentRecvContinues(s, ev.c, ev.outcome, x);
    } else if ev.GwOpenSend? {
      GwOpenSendContinues(s, ev.c, x);
    } else if ev.GwEnd? || ev.CleanOne? || ev.CleanDone? {
      TaskContinues(cfg, s, ev, x);
    } else {
      ConnectionContinues(cfg, s, ev, x);
    }
  }

  // ---- the gateway's answer to a session_open ----------------------------------------------------

  /** Does this step of the gateway grant the session_open it reads? */
  predicate Grants(cfg: Config, s: State, c: Conn, usage: Usage)
    requires c in s.conns && s.conns[c].up != []
  {
    && s.conns[c].up[0].Open? && s.conns[c].node.client && Routable(s, s.conns[c].up[0].route)
    && RouteDecision(cfg, PopUp(s, c), c, s.conns[c].up[0].route, usage).allow
  }

  lemma PopUpWired(s: State, c: Conn)
    requires Wired(s) && c in s.conns && s.conns[c].up != []
    ensures Wired(PopUp(s, c))
  {
  }

  lemma UngrantedContinues(cfg: Config, s: State, c: Conn, newSid: Sid, usage: Usage, x: End)
    requires Wired(s) && Enabled(s, GwRecv(c, newSid, usage)) && !Grants(cfg, s, c, usage)
    ensures Continues(s, GwRecvStep(cfg, s, c, newSid, usage), x)
  {
    var f := s.conns[c].up[0];
    var e := End(c, f.sid);
    var t := PopUp(s, c);
    PopUpWired(s, c);
    assert t.ends == s.ends;
    if e in s.ends {
      match f
      case Open(_, route) => RefuseContinues(t, e, x);
      case Data(_, bytes) => RelayContinues(t, e, bytes, x);
      case Close(_) => UnbridgeContinues(t, e, x);
    }
  }

  lemma AskerUnpaired(s: State, c: Conn)
    requires c in s.conns && s.conns[c].up != [] && s.conns[c].up[0].Open?
    requires OkAt(s, End(c, s.conns[c].up[0].sid))
    requires End(c, s.conns[c].up[0].sid) in s.ends
    ensures s.ends[End(c, s.conns[c].up[0].sid)].peer.None?
  {
    SummaryPop(s.conns[c].up, s.conns[c].up[0].sid);
  }

  lemma GrantedEnds(cfg: Config, s: State, c: Conn, newSid: Sid, usage: Usage)
    requires Wired(s) && Enabled(s, GwRecv(c, newSid, usage)) && Grants(cfg, s, c, usage)
    requires End(c, s.conns[c].up[0].sid) in s.ends
    ensures var e := End(c, s.conns[c].up[0].sid);
            var p := End(s.registry[s.conns[c].up[0].route], newSid);
            GwRecvStep(cfg, s, c, newSid, usage).ends == s.ends[e := s.ends[e].(peer := Some(p))][p := FRESH.(peer := Some(e))]
  {
    var f := s.conns[c].up[0];
    var e, p := End(c, f.sid), End(s.registry[f.route], newSid);
    var t := PopUp(s, c);
    assert t.ends == s.ends && t.registry == s.registry;
    assert OpenRouted(cfg, t, e, f.route, newSid, usage) == SetTask(Bridge(t, e, p), c, Opening(e.sid, p));
  }

  /** A granted session_open pairs the asking end with a new end on the connection registered under
      the route, and changes no other pairing. */
  lemma GrantedPairs(cfg: Config, s: State, c: Conn, newSid: Sid, usage: Usage)
    requires Inv(s) && Wired(s) && Enabled(s, GwRecv(c, newSid, usage)) && Grants(cfg, s, c, usage)
    ensures var t := GwRecvStep(cfg, s, c, newSid, usage);
            var e := End(c, s.conns[c].up[0].sid);
            var p := End(s.registry[s.conns[c].up[0].route], newSid);
            && e in s.ends && s.ends[e].peer.None?
            && t.ends == s.ends[e := s.ends[e].(peer := Some(p))][p := FRESH.(peer := Some(e))]
  {
    var e := End(c, s.conns[c].up[0].sid);
    assert FramesKnown(s, c, s.conns[c].up);
    assert OkAt(s, e);
    AskerUnpaired(s, c);
    GrantedEnds(cfg, s, c, newSid, usage);
  }

  // ---- every step, every run ------------------------------------------------------------------------

  lemma GrantedExtends(cfg: Config, s: State, c: Conn, newSid: Sid, usage: Usage, x: End)
    requires Inv(s) && Wired(s) && Enabled(s, GwRecv(c, newSid, usage)) && Grants(cfg, s, c, usage)
    requires x in s.ends
    ensures x in GwRecvStep(cfg, s, c, newSid, usage).ends
    ensures Extends(s.ends[x], GwRecvStep(cfg, s, c, newSid, usage).ends[x])
  {
    GrantedPairs(cfg, s, c, newSid, usage);
  }

  lemma StepExtends(cfg: Config, s: State, ev: Event, x: End)
    requires Inv(s) && Wired(s) && Enabled(s, ev)
    requires x in s.ends
    ensures x in Step(cfg, s, ev).ends && Extends(s.ends[x], Step(cfg, s, ev).ends[x])
  {
    if !ev.GwRecv? {
      OtherStepsContinue(cfg, s, ev, x);
    } else if Grants(cfg, s, ev.c, ev.usage) {
      GrantedExtends(cfg, s, ev.c, ev.newSid, ev.usage, x);
    } else {
      UngrantedContinues(cfg, s, ev.c, ev.newSid, ev.usage, x);
    }
  }

  /** Over any run, a paired end keeps its partner for good, and the histories only grow. Together with
      DeliveredIsPrefix: whatever is ever written to an end's socket was read at that one partner's. */
  lemma {:induction false} PairedForever(cfg: Config, s: State, evs: seq<Event>, t: State, e: End)
    requires Inv(s) && Run(cfg, s, evs, t) && e in s.ends
    ensures e in t.ends && Extends(s.ends[e], t.ends[e])
    decreases |evs|
  {
    if evs != [] {
      StepKeepsInv(cfg, s, evs[0]);
      StepExtends(cfg, s, evs[0], e);
      PairedForever(cfg, Step(cfg, s, evs[0]), evs[1..], t, e);
    }
  }
}
