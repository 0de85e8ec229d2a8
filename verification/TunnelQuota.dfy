/** The concurrency quota as a property of whole runs. */
module TunnelQuota {
  import opened Policy
  import opened Tunnel
  import opened TunnelInvariant
  import opened TunnelLifetimes
  import opened TunnelRuns
  import opened TunnelPairing
  import opened TunnelRecount

  /** The quota that every identity of `actor` is under, whatever its role. */
  ghost predicate UnderQuota(g: GlobalPolicy, id: Identity, limit: nat) {
    && !IsAdmin(g, id)
    && RoleCeiling(g, RoleTable(g, RoleOf(g, id.roles))).Some?
    && RoleCeiling(g, RoleTable(g, RoleOf(g, id.roles))).value <= limit
  }

  /** The actor neither connects as an admin nor asks for anything but catalog resources. Nothing is asked
      of node ids: connections may come and go under any. */
  ghost predicate Disciplined(cfg: Config, s: State, ev: Event, actor: string, limit: nat)
  {
    && (ev.Accept? && ev.node.client && ev.node.identity.Actor() == actor ==> UnderQuota(cfg.glob, ev.node.identity, limit))
    && (ev.LocalOpen? && ClientOf(s, ev.c, actor) ==> CatalogEntry(cfg, ev.route).Some?)
  }

  ghost predicate DisciplinedRun(cfg: Config, s: State, evs: seq<Event>, t: State, actor: string, limit: nat)
    decreases |evs|
  {
    if evs == [] then s == t
    else Wired(s) && Enabled(s, evs[0]) && Disciplined(cfg, s, evs[0], actor, limit)
         && DisciplinedRun(cfg, Step(cfg, s, evs[0]), evs[1..], t, actor, limit)
  }

  /** The actor's connections are under the quota, and ask for catalog resources. */
  ghost predicate Restrained(cfg: Config, s: State, actor: string, limit: nat) {
    forall c :: ClientOf(s, c, actor) ==>
      UnderQuota(cfg.glob, s.conns[c].node.identity, limit) && AsksForCatalog(cfg, s.conns[c].up)
  }

  ghost predicate AsksForCatalog(cfg: Config, ch: seq<Frame>) {
    forall f :: f in ch && f.Open? ==> CatalogEntry(cfg, f.route).Some?
  }

  /** A granted route to a catalog resource finds the actor below its ceiling. */
  lemma AllowedMeansBelow(cfg: Config, s: State, c: Conn, route: string, usage: Usage, actor: string, limit: nat)
    requires ClientOf(s, c, actor) && UnderQuota(cfg.glob, s.conns[c].node.identity, limit)
    requires CatalogEntry(cfg, route).Some? && RouteDecision(cfg, s, c, route, usage).allow
    ensures |SessionsOf(s, actor)| < limit
  {
    var id := s.conns[c].node.identity;
    var r := CatalogEntry(cfg, route).value;
    var u := usage.(concurrent := Concurrent(s));
    assert ResourceCheck(cfg.glob, id, RoleOf(cfg.glob, id.roles), r, u).None?;
    assert actor in Actors(s);
    assert Count(u.concurrent, actor) == |SessionsOf(s, actor)|;
  }

  // ---- steps keep the actor restrained --------------------------------------------------------------

  lemma QuietKeepsRestrained(cfg: Config, s: State, t: State, actor: string, limit: nat)
    requires Restrained(cfg, s, actor, limit) && Quiet(s, t)
    ensures Restrained(cfg, t, actor, limit)
  {
    forall c | ClientOf(t, c, actor)
      ensures UnderQuota(cfg.glob, t.conns[c].node.identity, limit) && AsksForCatalog(cfg, t.conns[c].up)
    {
      assert ClientOf(s, c, actor) && QuietLink(s.conns[c], t.conns[c]);
    }
  }

  lemma AcceptKeepsRestrained(cfg: Config, s: State, c: Conn, node: Node, actor: string, limit: nat)
    requires Restrained(cfg, s, actor, limit) && c !in s.conns
    requires node.client && node.identity.Actor() == actor ==> UnderQuota(cfg.glob, node.identity, limit)
    ensures Restrained(cfg, Accepted(s, c, node), actor, limit)
  {
    var t := Accepted(s, c, node);
    forall d | ClientOf(t, d, actor) && d != c
      ensures UnderQuota(cfg.glob, t.conns[d].node.identity, limit) && AsksForCatalog(cfg, t.conns[d].up)
    {
      assert ClientOf(s, d, actor);
    }
  }

  lemma LocalOpenKeepsRestrained(cfg: Config, s: State, c: Conn, sid: Sid, route: string, actor: string, limit: nat)
    requires Restrained(cfg, s, actor, limit) && c in s.conns
    requires ClientOf(s, c, actor) ==> CatalogEntry(cfg, route).Some?
    ensures Restrained(cfg, LocalOpenStep(s, c, sid, route), actor, limit)
  {
    var t := LocalOpenStep(s, c, sid, route);
    forall d | ClientOf(t, d, actor)
      ensures UnderQuota(cfg.glob, t.conns[d].node.identity, limit) && AsksForCatalog(cfg, t.conns[d].up)
    {
      assert ClientOf(s, d, actor) && AsksForCatalog(cfg, s.conns[d].up);
    }
  }

  lemma TaskKeepsRestrained(cfg: Config, s: State, t: State, actor: string, limit: nat)
    requires Restrained(cfg, s, actor, limit)
    requires t.conns.Keys == s.conns.Keys
    requires forall c :: c in s.conns ==> t.conns[c].node == s.conns[c].node && t.conns[c].up == s.conns[c].up
    ensures Restrained(cfg, t, actor, limit)
  {
    forall d | ClientOf(t, d, actor)
      ensures UnderQuota(cfg.glob, t.conns[d].node.identity, limit) && AsksForCatalog(cfg, t.conns[d].up)
    {
      assert ClientOf(s, d, actor);
    }
  }

  lemma GrantKeepsRestrained(cfg: Config, s: State, c: Conn, newSid: Sid, usage: Usage, actor: string, limit: nat)
    requires Inv(s) && Wired(s) && Enabled(s, GwRecv(c, newSid, usage)) && Grants(cfg, s, c, usage)
    requires Restrained(cfg, s, actor, limit)
    ensures Restrained(cfg, GwRecvStep(cfg, s, c, newSid, usage), actor, limit)
  {
    var f := s.conns[c].up[0];
    GrantIsOpened(cfg, s, c, newSid, usage);
    PopKeepsRestrained(cfg, s, c, actor, limit);
    OpeningKeepsRestrained(cfg, PopUp(s, c), End(c, f.sid), End(s.registry[f.route], newSid), actor, limit);
  }

  lemma PopKeepsRestrained(cfg: Config, s: State, c: Conn, actor: string, limit: nat)
    requires c in s.conns && s.conns[c].up != [] && Restrained(cfg, s, actor, limit)
    ensures Restrained(cfg, PopUp(s, c), actor, limit)
  {
    QuietPop(s, c);
    QuietKeepsRestrained(cfg, s, PopUp(s, c), actor, limit);
  }

  lemma OpeningKeepsRestrained(cfg: Config, t: State, e: End, p: End, actor: string, limit: nat)
    requires e in t.ends && e.conn in t.conns && Restrained(cfg, t, actor, limit)
    ensures Restrained(cfg, Opened(t, e, p), actor, limit)
  {
    TaskKeepsRestrained(cfg, t, Opened(t, e, p), actor, limit);
  }

  lemma EndKeepsRestrained(cfg: Config, s: State, c: Conn, actor: string, limit: nat)
    requires c in s.conns && Restrained(cfg, s, actor, limit)
    ensures Restrained(cfg, Unregister(SetTask(s, c, Ended), c), actor, limit)
  {
    TaskKeepsRestrained(cfg, s, Unregister(SetTask(s, c, Ended), c), actor, limit);
  }

  lemma StepKeepsRestrained(cfg: Config, s: State, ev: Event, actor: string, limit: nat)
    requires Inv(s) && Wired(s) && Restrained(cfg, s, actor, limit)
    requires Enabled(s, ev) && Disciplined(cfg, s, ev, actor, limit)
    ensures Restrained(cfg, Step(cfg, s, ev), actor, limit)
  {
    if ev.Accept? {
      AcceptKeepsRestrained(cfg, s, ev.c, ev.node, actor, limit);
    } else if ev.LocalOpen? {
      LocalOpenKeepsRestrained(cfg, s, ev.c, ev.sid, ev.route, actor, limit);
    } else if ev.GwRecv? && Grants(cfg, s, ev.c, ev.usage) {
      GrantKeepsRestrained(cfg, s, ev.c, ev.newSid, ev.usage, actor, limit);
    } else if ev.CleanDone? || (ev.GwEnd? && !s.conns[ev.c].node.client) {
      EndKeepsRestrained(cfg, s, ev.c, actor, limit);
    } else {
      QuietStep(cfg, s, ev);
      QuietKeepsRestrained(cfg, s, Step(cfg, s, ev), actor, limit);
    }
  }

  // ---- every step, every run ---------------------------------------------------------------------------

  /** Over a frame taken off a channel the gateway decides as on the state before. */
  lemma SameSessions(s: State, c: Conn, actor: string)
    requires c in s.conns && s.conns[c].up != []
    ensures SessionsOf(PopUp(s, c), actor) == SessionsOf(s, actor)
  {
  }

  /** A session granted to the actor finds its recount below the ceiling. */
  lemma GrantedBelow(cfg: Config, s: State, c: Conn, usage: Usage, actor: string, limit: nat)
    requires Restrained(cfg, s, actor, limit) && ClientOf(s, c, actor) && s.conns[c].up != [] && Grants(cfg, s, c, usage)
    ensures |SessionsOf(s, actor)| < limit
  {
    var f := s.conns[c].up[0];
    assert AsksForCatalog(cfg, s.conns[c].up) && f in s.conns[c].up;
    AllowedMeansBelow(cfg, PopUp(s, c), c, f.route, usage, actor, limit);
    SameSessions(s, c, actor);
  }

  /** No step adds to the counted sessions but a grant, which adds at most one. */
  lemma GrantCounts(cfg: Config, s: State, c: Conn, newSid: Sid, usage: Usage, actor: string)
    requires Inv(s) && Wired(s) && Enabled(s, GwRecv(c, newSid, usage)) && Grants(cfg, s, c, usage)
    ensures var e := End(c, s.conns[c].up[0].sid);
      SessionsOf(GwRecvStep(cfg, s, c, newSid, usage), actor) <= SessionsOf(s, actor) + (if ClientOf(s, c, actor) then {e} else {})
  {
    var f := s.conns[c].up[0];
    GrantIsOpened(cfg, s, c, newSid, usage);
    SameSessions(s, c, actor);
    OpenedCounted(PopUp(s, c), End(c, f.sid), End(s.registry[f.route], newSid), actor);
  }

  lemma AcceptCounts(s: State, c: Conn, node: Node, actor: string)
    requires Tables(s) && c !in s.conns
    ensures SessionsOf(Accepted(s, c, node), actor) <= SessionsOf(s, actor)
  {
  }

  lemma EndCounts(s: State, c: Conn, actor: string)
    requires c in s.conns
    ensures SessionsOf(Unregister(SetTask(s, c, Ended), c), actor) <= SessionsOf(s, actor)
  {
  }

  lemma LocalOpenCounts(s: State, c: Conn, sid: Sid, route: string, actor: string)
    requires c in s.conns
    ensures SessionsOf(LocalOpenStep(s, c, sid, route), actor) == SessionsOf(s, actor)
  {
  }

  lemma QuietCounts(s: State, t: State, actor: string)
    requires Quiet(s, t)
    ensures SessionsOf(t, actor) <= SessionsOf(s, actor)
  {
    forall e | e in SessionsOf(t, actor) ensures e in SessionsOf(s, actor) {
      assert QuietLink(s.conns[e.conn], t.conns[e.conn]);
    }
  }

  lemma NoMoreCounted(cfg: Config, s: State, ev: Event, actor: string)
    requires Inv(s) && Wired(s) && Enabled(s, ev) && (ev.GwRecv? ==> !Grants(cfg, s, ev.c, ev.usage))
    ensures SessionsOf(Step(cfg, s, ev), actor) <= SessionsOf(s, actor)
  {
    if ev.Accept? {
      AcceptCounts(s, ev.c, ev.node, actor);
    } else if ev.LocalOpen? {
      LocalOpenCounts(s, ev.c, ev.sid, ev.route, actor);
    } else if ev.CleanDone? || (ev.GwEnd? && !s.conns[ev.c].node.client) {
      EndCounts(s, ev.c, actor);
    } else {
      QuietStep(cfg, s, ev);
      QuietCounts(s, Step(cfg, s, ev), actor);
    }
  }

  lemma Fewer(a: set<End>, b: set<End>)
    requires a <= b
    ensures |a| <= |b|
  {
    assert b == a + (b - a);
  }

  lemma AtMostOneMore(a: set<End>, b: set<End>, e: End)
    requires a <= b + {e}
    ensures |a| <= |b| + 1
  {
    Fewer(a, b + {e});
  }

  /** Every step keeps the counted sessions within the ceiling, whatever node ids connections use. */
  lemma StepKeepsCounted(cfg: Config, s: State, ev: Event, actor: string, limit: nat)
    requires Inv(s) && Wired(s) && Restrained(cfg, s, actor, limit) && |SessionsOf(s, actor)| <= limit
    requires Enabled(s, ev) && Disciplined(cfg, s, ev, actor, limit)
    ensures Restrained(cfg, Step(cfg, s, ev), actor, limit) && |SessionsOf(Step(cfg, s, ev), actor)| <= limit
  {
    var t := Step(cfg, s, ev);
    StepKeepsRestrained(cfg, s, ev, actor, limit);
    if ev.GwRecv? && Grants(cfg, s, ev.c, ev.usage) {
      GrantCounts(cfg, s, ev.c, ev.newSid, ev.usage, actor);
      if ClientOf(s, ev.c, actor) {
        GrantedBelow(cfg, s, ev.c, ev.usage, actor, limit);
        AtMostOneMore(SessionsOf(t, actor), SessionsOf(s, actor), End(ev.c, s.conns[ev.c].up[0].sid));
      } else {
        Fewer(SessionsOf(t, actor), SessionsOf(s, actor));
      }
    } else {
      NoMoreCounted(cfg, s, ev, actor);
      Fewer(SessionsOf(t, actor), SessionsOf(s, actor));
    }
  }

  /** All sessions are those counted and those of connections that are not registered. */
  lemma CountedAndMissed(s: State, actor: string, limit: nat)
    requires |SessionsOf(s, actor)| <= limit
    ensures |AllSessionsOf(s, actor)| <= limit + |AllSessionsOf(s, actor) - SessionsOf(s, actor)|
    ensures (forall c :: Holds(s, c, actor) ==> Registered(s, c)) ==> |AllSessionsOf(s, actor)| <= limit
  {
    var all, counted := AllSessionsOf(s, actor), SessionsOf(s, actor);
    assert counted <= all;
    assert all == counted + (all - counted);
    ExactlyWhenHoldersAreRegistered(s, actor);
  }

  /** The quota in every run of an actor that is never an admin and routes to catalog resources only. The
      sessions the gateway counts never exceed the ceiling. So at every state the actor's bridged sessions,
      over all its connections, exceed it by no more than the sessions of connections that are not registered
      there, and not at all where there are none, whatever happened to node ids before. */
  lemma {:induction false} QuotaHoldsInEveryRun(cfg: Config, s: State, evs: seq<Event>, t: State, actor: string, limit: nat)
    requires Inv(s) && Restrained(cfg, s, actor, limit) && |SessionsOf(s, actor)| <= limit
    requires DisciplinedRun(cfg, s, evs, t, actor, limit)
    ensures |SessionsOf(t, actor)| <= limit
    ensures |AllSessionsOf(t, actor)| <= limit + |AllSessionsOf(t, actor) - SessionsOf(t, actor)|
    ensures (forall c :: Holds(t, c, actor) ==> Registered(t, c)) ==> |AllSessionsOf(t, actor)| <= limit
    decreases |evs|
  {
    if evs != [] {
      StepKeepsCounted(cfg, s, evs[0], actor, limit);
      StepKeepsInv(cfg, s, evs[0]);
      QuotaHoldsInEveryRun(cfg, Step(cfg, s, evs[0]), evs[1..], t, actor, limit);
    } else {
      CountedAndMissed(s, actor, limit);
    }
  }

  /** In particular from the start. */
  lemma QuotaHolds(cfg: Config, evs: seq<Event>, t: State, actor: string, limit: nat)
    requires DisciplinedRun(cfg, EMPTY, evs, t, actor, limit)
    ensures |SessionsOf(t, actor)| <= limit
    ensures |AllSessionsOf(t, actor)| <= limit + |AllSessionsOf(t, actor) - SessionsOf(t, actor)|
    ensures (forall c :: Holds(t, c, actor) ==> Registered(t, c)) ==> |AllSessionsOf(t, actor)| <= limit
  {
    assert SessionsOf(EMPTY, actor) == {};
    QuotaHoldsInEveryRun(cfg, EMPTY, evs, t, actor, limit);
  }

  // ---- exactly when it is exceeded ---------------------------------------------------------------------

  /** A session is granted to the actor when it has as many as it may. */
  ghost predicate OpensAtTheCeiling(cfg: Config, s: State, ev: Event, actor: string, limit: nat)
    requires Enabled(s, ev)
  {
    OpensOne(cfg, s, ev, actor) && |AllSessionsOf(s, actor)| == limit
  }

  /** From within the ceiling, exactly such a step exceeds it; and it finds a connection that holds a session
      and is not the one registered under its node id. */
  lemma ExceedsExactly(cfg: Config, s: State, ev: Event, actor: string, limit: nat)
    requires Inv(s) && Wired(s) && Enabled(s, ev) && |AllSessionsOf(s, actor)| <= limit
    ensures |AllSessionsOf(Step(cfg, s, ev), actor)| > limit <==> OpensAtTheCeiling(cfg, s, ev, actor, limit)
    ensures OpensAtTheCeiling(cfg, s, ev, actor, limit) && Restrained(cfg, s, actor, limit) ==>
      exists c :: Holds(s, c, actor) && !Registered(s, c)
  {
    var t := Step(cfg, s, ev);
    SessionsChange(cfg, s, ev, actor);
    OneChange(AllSessionsOf(s, actor), AllSessionsOf(t, actor), OpensOne(cfg, s, ev, actor));
    if OpensOne(cfg, s, ev, actor) {
      if Restrained(cfg, s, actor, limit) {
        GrantedBelow(cfg, s, ev.c, ev.usage, actor, limit);
        ExactlyWhenHoldersAreRegistered(s, actor);
      }
    }
  }

  /** The actor's sessions are within the ceiling at every state of the run. */
  ghost predicate AlwaysWithin(cfg: Config, s: State, evs: seq<Event>, t: State, actor: string, limit: nat)
    requires Run(cfg, s, evs, t)
    decreases |evs|
  {
    |AllSessionsOf(s, actor)| <= limit && (evs == [] || AlwaysWithin(cfg, Step(cfg, s, evs[0]), evs[1..], t, actor, limit))
  }

  /** Some step of the run grants a session at the ceiling. */
  ghost predicate EverOpensAtTheCeiling(cfg: Config, s: State, evs: seq<Event>, t: State, actor: string, limit: nat)
    requires Run(cfg, s, evs, t)
    decreases |evs|
  {
    evs != [] &&
    (OpensAtTheCeiling(cfg, s, evs[0], actor, limit)
     || EverOpensAtTheCeiling(cfg, Step(cfg, s, evs[0]), evs[1..], t, actor, limit))
  }

  lemma {:induction false} WithinFromHereExactly(cfg: Config, s: State, evs: seq<Event>, t: State, actor: string, limit: nat)
    requires Inv(s) && Run(cfg, s, evs, t) && |AllSessionsOf(s, actor)| <= limit
    ensures AlwaysWithin(cfg, s, evs, t, actor, limit) <==> !EverOpensAtTheCeiling(cfg, s, evs, t, actor, limit)
    decreases |evs|
  {
    if evs != [] {
      var u := Step(cfg, s, evs[0]);
      StepKeepsInv(cfg, s, evs[0]);
      ExceedsExactly(cfg, s, evs[0], actor, limit);
      if |AllSessionsOf(u, actor)| <= limit {
        WithinFromHereExactly(cfg, u, evs[1..], t, actor, limit);
      }
    }
  }

  /** A run keeps the quota at all its states if and only if it grants no session at the ceiling. */
  lemma QuotaKeptExactly(cfg: Config, evs: seq<Event>, t: State, actor: string, limit: nat)
    requires Run(cfg, EMPTY, evs, t)
    ensures AlwaysWithin(cfg, EMPTY, evs, t, actor, limit) <==> !EverOpensAtTheCeiling(cfg, EMPTY, evs, t, actor, limit)
  {
    assert AllSessionsOf(EMPTY, actor) == {};
    WithinFromHereExactly(cfg, EMPTY, evs, t, actor, limit);
  }

  // ---- runs that keep it: exact recounts, distinct node ids ------------------------------------------------

  /** Every grant to the actor finds its holders registered. */
  ghost predicate GrantsFindHolders(cfg: Config, s: State, evs: seq<Event>, t: State, actor: string)
    requires Run(cfg, s, evs, t)
    decreases |evs|
  {
    evs == [] ||
    ((OpensOne(cfg, s, evs[0], actor) ==> Exact(s, actor)) && GrantsFindHolders(cfg, Step(cfg, s, evs[0]), evs[1..], t, actor))
  }

  /** In a run that only ever grants when the recount is exact, the quota holds at every state, also while it
      is not exact. */
  lemma {:induction false} GrantingOnExactCountsSuffices(cfg: Config, s: State, evs: seq<Event>, t: State, actor: string, limit: nat)
    requires Inv(s) && Restrained(cfg, s, actor, limit) && |AllSessionsOf(s, actor)| <= limit
    requires Run(cfg, s, evs, t) && DisciplinedRun(cfg, s, evs, t, actor, limit) && GrantsFindHolders(cfg, s, evs, t, actor)
    ensures AlwaysWithin(cfg, s, evs, t, actor, limit)
    decreases |evs|
  {
    if evs != [] {
      var u := Step(cfg, s, evs[0]);
      StepKeepsInv(cfg, s, evs[0]);
      StepKeepsRestrained(cfg, s, evs[0], actor, limit);
      ExceedsExactly(cfg, s, evs[0], actor, limit);
      ExactlyWhenHoldersAreRegistered(s, actor);
      GrantingOnExactCountsSuffices(cfg, u, evs[1..], t, actor, limit);
    }
  }

  /** Every connection presents a node id that is not in use. */
  ghost predicate DistinctIds(cfg: Config, s: State, evs: seq<Event>, t: State)
    requires Run(cfg, s, evs, t)
    decreases |evs|
  {
    evs == [] || (FreshId(s, evs[0]) && DistinctIds(cfg, Step(cfg, s, evs[0]), evs[1..], t))
  }

  /** With distinct node ids every recount of a run is exact, and so every grant finds the holders. */
  lemma {:induction false} DistinctIdsSuffice(cfg: Config, s: State, evs: seq<Event>, t: State, actor: string)
    requires Inv(s) && Registry(s) && Run(cfg, s, evs, t) && DistinctIds(cfg, s, evs, t)
    ensures Exact(t, actor) && GrantsFindHolders(cfg, s, evs, t, actor)
    decreases |evs|
  {
    RecountIsExact(s, actor);
    if evs != [] {
      StepKeepsInv(cfg, s, evs[0]);
      StepKeepsRegistry(cfg, s, evs[0]);
      DistinctIdsSuffice(cfg, Step(cfg, s, evs[0]), evs[1..], t, actor);
    }
  }

  /** So with distinct node ids the quota holds at every state of every run. */
  lemma DistinctIdsKeepTheQuota(cfg: Config, evs: seq<Event>, t: State, actor: string, limit: nat)
    requires Run(cfg, EMPTY, evs, t) && DistinctIds(cfg, EMPTY, evs, t) && DisciplinedRun(cfg, EMPTY, evs, t, actor, limit)
    ensures AlwaysWithin(cfg, EMPTY, evs, t, actor, limit)
  {
    assert AllSessionsOf(EMPTY, actor) == {};
    DistinctIdsSuffice(cfg, EMPTY, evs, t, actor);
    GrantingOnExactCountsSuffices(cfg, EMPTY, evs, t, actor, limit);
  }
}
