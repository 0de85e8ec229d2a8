/** Nobody is stuck: in every reachable state whoever has something to do can do it, and the gateway's task for any
    connection can be led to its end by its own steps. */
module TunnelProgress {
  import opened Common
  import Policy
  import opened Tunnel
  import opened TunnelInvariant
  import opened TunnelRuns

  // ---- ids and orders there are -------------------------------------------------------------------------

  lemma {:induction false} Above(sids: set<Sid>) returns (bound: Sid)
    ensures forall x :: x in sids ==> x < bound
    decreases |sids|
  {
    if sids == {} {
      bound := 0;
    } else {
      var x :| x in sids;
      var b := Above(sids - {x});
      bound := if x < b then b else x + 1;
      assert forall y :: y in sids ==> y == x || y in sids - {x};
    }
  }

  lemma NewSid(s: State) returns (sid: Sid)
    ensures forall d :: End(d, sid) !in s.ends
  {
    var used := set e | e in s.ends :: e.sid;
    assert forall e :: e in s.ends ==> e.sid in used;
    sid := Above(used);
  }

  lemma {:induction false} SomeOrder(sids: set<Sid>) returns (order: seq<Sid>)
    ensures Lists(order, sids)
    decreases |sids|
  {
    if sids == {} {
      order := [];
    } else {
      var x :| x in sids;
      var rest := SomeOrder(sids - {x});
      order := [x] + rest;
    }
  }

  // ---- everything that can be done ------------------------------------------------------------------------

  /** Something is enabled for each task of the agent: reading what has arrived, pumping, and ending. */
  lemma AgentsCanGoOn(s: State, c: Conn, e: End, bytes: Bytes, outcome: Outcome)
    requires Inv(s) && c in s.conns && bytes != []
    ensures s.conns[c].agentLoop && s.conns[c].down != [] ==> Enabled(s, AgentRecv(c, outcome))
    ensures s.conns[c].agentUp ==> Enabled(s, AgentDown(c))
    ensures s.conns[c].agentLoop && !s.conns[c].agentUp ==> Enabled(s, AgentEnd(c))
    ensures e in s.ends && s.ends[e].pump ==> Enabled(s, PumpData(e, bytes)) && Enabled(s, PumpEof(e))
  {
  }

  lemma NewcomersCanCome(s: State, c: Conn, node: Node, route: string) returns (sid: Sid)
    ensures c !in s.conns ==> Enabled(s, Accept(c, node))
    ensures c in s.conns && s.conns[c].node.client ==> Enabled(s, LocalOpen(c, sid, route))
  {
    sid := NewSid(s);
  }

  /** The gateway's task reads what has arrived, announces what it has bridged, cleans up what is left, and can
      end whenever it is not in the middle of one of these. */
  lemma TasksCanGoOn(s: State, c: Conn, usage: Policy.Usage) returns (sid: Sid, order: seq<Sid>)
    requires c in s.conns
    ensures match s.conns[c].task
      case Serving => (s.conns[c].up != [] ==> Enabled(s, GwRecv(c, sid, usage))) && Enabled(s, GwEnd(c, order))
      case Opening(_, _) => Enabled(s, GwOpenSend(c))
      case Leaving => Enabled(s, GwEnd(c, order))
      case Cleaning(left) => if left != [] then Enabled(s, CleanOne(c)) else Enabled(s, CleanDone(c))
      case Ended => true
    ensures s.conns[c].gwUp ==> Enabled(s, GwDown(c))
  {
    sid := NewSid(s);
    order := SomeOrder(Owned(s, c));
  }

  // ---- the way to the end ---------------------------------------------------------------------------------

  /** A step of the connection's own task. */
  predicate IsOwn(ev: Event, c: Conn) {
    (ev.GwOpenSend? || ev.CleanOne? || ev.CleanDone? || ev.GwEnd?) && ev.c == c
  }

  ghost predicate AllOwn(evs: seq<Event>, c: Conn) {
    forall i :: 0 <= i < |evs| ==> IsOwn(evs[i], c)
  }

  ghost predicate IsOver(t: State, c: Conn) {
    c in t.conns && t.conns[c].task.Ended?
  }

  /** Steps of its own lead the connection's task to its end. */
  ghost predicate CanEnd(cfg: Config, s: State, c: Conn) {
    exists evs, t :: Run(cfg, s, evs, t) && AllOwn(evs, c) && IsOver(t, c)
  }

  lemma HasEnded(cfg: Config, s: State, c: Conn)
    requires IsOver(s, c)
    ensures CanEnd(cfg, s, c)
  {
    assert Run(cfg, s, [], s) && AllOwn([], c);
  }

  lemma OneStepMore(cfg: Config, s: State, ev: Event, c: Conn)
    requires Wired(s) && Enabled(s, ev) && IsOwn(ev, c) && CanEnd(cfg, Step(cfg, s, ev), c)
    ensures CanEnd(cfg, s, c)
  {
    var evs, t :| Run(cfg, Step(cfg, s, ev), evs, t) && AllOwn(evs, c) && IsOver(t, c);
    RunFirst(cfg, s, ev, evs, t);
    assert AllOwn([ev] + evs, c);
  }

  lemma RunFirst(cfg: Config, s: State, ev: Event, evs: seq<Event>, t: State)
    requires Wired(s) && Enabled(s, ev) && Run(cfg, Step(cfg, s, ev), evs, t)
    ensures Run(cfg, s, [ev] + evs, t)
  {
    assert ([ev] + evs)[1..] == evs;
  }

  lemma CleaningGoesOn(s: State, c: Conn)
    requires Wired(s) && Enabled(s, CleanOne(c))
    ensures c in CleanOneStep(s, c).conns
    ensures CleanOneStep(s, c).conns[c].task == Cleaning(s.conns[c].task.left[1..])
  {
  }

  lemma {:induction false} CleaningEnds(cfg: Config, s: State, c: Conn)
    requires Inv(s) && c in s.conns && s.conns[c].task.Cleaning?
    ensures CanEnd(cfg, s, c)
    decreases |s.conns[c].task.left|
  {
    TablesWired(s);
    if s.conns[c].task.left == [] {
      HasEnded(cfg, Step(cfg, s, CleanDone(c)), c);
      OneStepMore(cfg, s, CleanDone(c), c);
    } else {
      StepKeepsInv(cfg, s, CleanOne(c));
      CleaningGoesOn(s, c);
      CleaningEnds(cfg, Step(cfg, s, CleanOne(c)), c);
      OneStepMore(cfg, s, CleanOne(c), c);
    }
  }

  lemma EndingEnds(s: State, c: Conn, order: seq<Sid>)
    requires c in s.conns
    ensures c in GwEndStep(s, c, order).conns
    ensures GwEndStep(s, c, order).conns[c].task == if s.conns[c].node.client then Cleaning(order) else Ended
  {
  }

  lemma ServingEnds(cfg: Config, s: State, c: Conn)
    requires Inv(s) && c in s.conns && (s.conns[c].task.Serving? || s.conns[c].task.Leaving?)
    ensures CanEnd(cfg, s, c)
  {
    TablesWired(s);
    var order := SomeOrder(Owned(s, c));
    StepKeepsInv(cfg, s, GwEnd(c, order));
    EndingEnds(s, c, order);
    if s.conns[c].node.client {
      CleaningEnds(cfg, Step(cfg, s, GwEnd(c, order)), c);
    } else {
      HasEnded(cfg, Step(cfg, s, GwEnd(c, order)), c);
    }
    OneStepMore(cfg, s, GwEnd(c, order), c);
  }

  lemma AnnouncingServes(s: State, c: Conn)
    requires Wired(s) && Enabled(s, GwOpenSend(c))
    ensures c in GwOpenSendStep(s, c).conns && GwOpenSendStep(s, c).conns[c].task.Serving?
  {
  }

  lemma OpeningEnds(cfg: Config, s: State, c: Conn)
    requires Inv(s) && c in s.conns && s.conns[c].task.Opening?
    ensures CanEnd(cfg, s, c)
  {
    TablesWired(s);
    StepKeepsInv(cfg, s, GwOpenSend(c));
    AnnouncingServes(s, c);
    ServingEnds(cfg, Step(cfg, s, GwOpenSend(c)), c);
    OneStepMore(cfg, s, GwOpenSend(c), c);
  }

  /** From every reachable state, steps of the connection's own task lead to its end, whatever it is doing. */
  lemma TasksCanEnd(cfg: Config, s: State, c: Conn)
    requires Reachable(cfg, s) && c in s.conns
    ensures CanEnd(cfg, s, c)
  {
    ReachableInv(cfg, s);
    match s.conns[c].task
    case Ended => HasEnded(cfg, s, c);
    case Cleaning(_) => CleaningEnds(cfg, s, c);
    case Opening(_, _) => OpeningEnds(cfg, s, c);
    case _ => ServingEnds(cfg, s, c);
  }
}
