/** Exactly when a client's session gets its partner: what the gateway's answer to a session_open depends on, in
    terms of the registry, the catalog, the policy and the bridge table alone. */
module TunnelGrants {
  import opened Common
  import opened Policy
  import opened PolicyMeaning
  import opened Tunnel
  import opened TunnelInvariant
  import opened TunnelPairing

  /** The reusable resource that the route stands for, if there is one: the catalog's, under the rest of the
      route after "res-". */
  ghost predicate IsEntry(cfg: Config, route: string, entry: Option<Resource>) {
    if entry.Some? then
      exists name: string :: route == "res-" + name && name in cfg.catalog && cfg.catalog[name] == entry.value && entry.value.reuse
    else
      forall name: string :: route == "res-" + name && name in cfg.catalog ==> !cfg.catalog[name].reuse
  }

  /** A server is registered under the route. */
  ghost predicate Leads(s: State, route: string) {
    route in s.registry && s.registry[route] in s.conns && !s.conns[s.registry[route]].node.client
  }

  /** The bridged sessions of clients registered under their node id, whose identity counts as this one. */
  ghost function Held(s: State, id: Identity): set<End> {
    set e | e in s.bridges && e.conn in s.conns && s.conns[e.conn].node.client
      && s.conns[e.conn].node.id in s.registry && s.registry[s.conns[e.conn].node.id] == e.conn
      && NameOf(s.conns[e.conn].node.identity) == NameOf(id)
  }

  /** The identity, in the role, may have another session to the entry. */
  ghost predicate MayRoute(cfg: Config, s: State, id: Identity, role: string, entry: Option<Resource>, usage: Usage) {
    && MayAct(cfg.glob, role, id, "route", if entry.Some? && entry.value.provider != "" then Some(entry.value.provider) else None)
    && (entry.Some? ==>
          MayUse(cfg.glob, role, id, entry.value, usage.(concurrent := map[NameOf(id) := |Held(s, id)|])))
  }

  lemma CatalogEntryExactly(cfg: Config, route: string, entry: Option<Resource>)
    requires IsEntry(cfg, route, entry)
    ensures CatalogEntry(cfg, route) == entry
  {
    if entry.Some? {
      var name: string :| route == "res-" + name && name in cfg.catalog && cfg.catalog[name] == entry.value && entry.value.reuse;
      assert route[..4] == "res-" && route[4..] == name;
    } else if |route| >= 4 && route[..4] == "res-" {
      assert route == "res-" + route[4..];
    }
  }

  lemma HeldIsCounted(s: State, c: Conn)
    requires c in s.conns
    ensures var id := s.conns[c].node.identity;
      id.Actor() == NameOf(id) && id.Actor() in Concurrent(s) && Concurrent(s)[id.Actor()] == |Held(s, id)|
  {
    var id := s.conns[c].node.identity;
    assert SessionsOf(s, id.Actor()) == Held(s, id);
  }

  /** Only the identity's own count matters. */
  lemma OwnCountMatters(g: GlobalPolicy, role: string, id: Identity, r: Resource, a: Usage, b: Usage)
    requires a.provisions == b.provisions && NameOf(id) in a.concurrent && NameOf(id) in b.concurrent
    requires a.concurrent[NameOf(id)] == b.concurrent[NameOf(id)]
    ensures MayUse(g, role, id, r, a) <==> MayUse(g, role, id, r, b)
  {
  }

  lemma CountedMayRoute(cfg: Config, s: State, c: Conn, role: string, entry: Option<Resource>, usage: Usage)
    requires c in s.conns
    ensures var id := s.conns[c].node.identity;
      MayRoute(cfg, s, id, role, entry, usage) <==>
        && MayAct(cfg.glob, role, id, "route", if entry.Some? && entry.value.provider != "" then Some(entry.value.provider) else None)
        && (entry.Some? ==> MayUse(cfg.glob, role, id, entry.value, usage.(concurrent := Concurrent(s))))
  {
    var id := s.conns[c].node.identity;
    HeldIsCounted(s, c);
    if entry.Some? {
      OwnCountMatters(cfg.glob, role, id, entry.value, usage.(concurrent := Concurrent(s)),
                      usage.(concurrent := map[NameOf(id) := |Held(s, id)|]));
    }
  }

  lemma RouteDecisionExactly(cfg: Config, s: State, c: Conn, route: string, usage: Usage, role: string, entry: Option<Resource>)
    requires c in s.conns && IsEntry(cfg, route, entry) && DecidesBy(cfg.glob, s.conns[c].node.identity, role)
    ensures var id := s.conns[c].node.identity;
      RouteDecision(cfg, s, c, route, usage).allow <==> cfg.glob.adminRole in id.roles || MayRoute(cfg, s, id, role, entry, usage)
  {
    var provider := if entry.Some? && entry.value.provider != "" then Some(entry.value.provider) else None;
    CatalogEntryExactly(cfg, route, entry);
    CountedMayRoute(cfg, s, c, role, entry, usage);
    AllowedExactly(cfg.glob, s.conns[c].node.identity, role, "route", entry, NO_REQUEST, provider,
                   usage.(concurrent := Concurrent(s)), cfg.price);
  }

  /** The gateway reads the end's own session_open, with this route. */
  ghost predicate Reads(s: State, ev: Event, e: End, route: string) {
    ev.GwRecv? && ev.c == e.conn && e.conn in s.conns && s.conns[e.conn].up != [] && s.conns[e.conn].up[0] == Open(e.sid, route)
  }

  lemma PoppedMayRoute(cfg: Config, s: State, c: Conn, role: string, entry: Option<Resource>, usage: Usage)
    requires c in s.conns && s.conns[c].up != []
    ensures var id := s.conns[c].node.identity;
      MayRoute(cfg, PopUp(s, c), id, role, entry, usage) <==> MayRoute(cfg, s, id, role, entry, usage)
  {
    assert Held(PopUp(s, c), s.conns[c].node.identity) == Held(s, s.conns[c].node.identity);
  }

  lemma GrantsExactly(cfg: Config, s: State, c: Conn, usage: Usage, role: string, entry: Option<Resource>)
    requires c in s.conns && s.conns[c].up != [] && s.conns[c].up[0].Open?
    requires IsEntry(cfg, s.conns[c].up[0].route, entry) && DecidesBy(cfg.glob, s.conns[c].node.identity, role)
    ensures var id := s.conns[c].node.identity;
      Grants(cfg, s, c, usage) <==>
        && s.conns[c].node.client && Leads(s, s.conns[c].up[0].route)
        && (cfg.glob.adminRole in id.roles || MayRoute(cfg, s, id, role, entry, usage))
  {
    RouteDecisionExactly(cfg, PopUp(s, c), c, s.conns[c].up[0].route, usage, role, entry);
    PoppedMayRoute(cfg, s, c, role, entry, usage);
  }

  lemma GrantBridges(cfg: Config, s: State, c: Conn, newSid: Sid, usage: Usage)
    requires Wired(s) && Enabled(s, GwRecv(c, newSid, usage)) && Grants(cfg, s, c, usage)
    requires End(c, s.conns[c].up[0].sid) in s.ends
    ensures var e := End(c, s.conns[c].up[0].sid);
            var p := End(s.registry[s.conns[c].up[0].route], newSid);
            GwRecvStep(cfg, s, c, newSid, usage).bridges == s.bridges[e := p][p := e]
  {
    var f := s.conns[c].up[0];
    var e, p := End(c, f.sid), End(s.registry[f.route], newSid);
    var t := PopUp(s, c);
    assert t.bridges == s.bridges && t.registry == s.registry;
    assert OpenRouted(cfg, t, e, f.route, newSid, usage) == SetTask(Bridge(t, e, p), c, Opening(e.sid, p));
  }

  lemma ClientsOwnSessions(s: State, e: End)
    requires Inv(s) && e in s.ends && s.ends[e].peer.None?
    ensures e.conn in s.conns && s.conns[e.conn].node.client
  {
    assert OkAt(s, e);
  }

  lemma PairedByGrant(cfg: Config, s: State, ev: Event, e: End)
    requires Inv(s) && Wired(s) && Enabled(s, ev) && e in s.ends && s.ends[e].peer.None?
    ensures e in Step(cfg, s, ev).ends
    ensures Step(cfg, s, ev).ends[e].peer.Some? <==>
      ev.GwRecv? && ev.c == e.conn && s.conns[e.conn].up[0].sid == e.sid && Grants(cfg, s, e.conn, ev.usage)
    ensures Step(cfg, s, ev).ends[e].peer.Some? ==>
      var p := End(s.registry[s.conns[e.conn].up[0].route], ev.newSid);
      Step(cfg, s, ev).ends[e].peer == Some(p) && Step(cfg, s, ev).bridges == s.bridges[e := p][p := e]
  {
    if !ev.GwRecv? {
      OtherStepsContinue(cfg, s, ev, e);
    } else if Grants(cfg, s, ev.c, ev.usage) {
      GrantedPairs(cfg, s, ev.c, ev.newSid, ev.usage);
      GrantBridges(cfg, s, ev.c, ev.newSid, ev.usage);
    } else {
      UngrantedContinues(cfg, s, ev.c, ev.newSid, ev.usage, e);
    }
  }

  /** A client's session gets its partner exactly by the gateway's reading its own session_open, when a server is
      registered under the route, and the identity is an admin's or meets every constraint on routing there, its
      sessions counted at that moment. It is bridged to a new session of that server's connection, and no other
      bridge changes. */
  lemma PairedExactly(cfg: Config, s: State, ev: Event, e: End, route: string, role: string, entry: Option<Resource>)
    requires Inv(s) && Wired(s) && Enabled(s, ev) && e in s.ends && s.ends[e].peer.None?
    requires ev.GwRecv? && ev.c == e.conn && s.conns[e.conn].up[0].Open? ==> s.conns[e.conn].up[0].route == route
    requires e.conn in s.conns && DecidesBy(cfg.glob, s.conns[e.conn].node.identity, role) && IsEntry(cfg, route, entry)
    ensures e in Step(cfg, s, ev).ends
    ensures var id := s.conns[e.conn].node.identity;
      Step(cfg, s, ev).ends[e].peer.Some? <==>
        && Reads(s, ev, e, route) && Leads(s, route)
        && (cfg.glob.adminRole in id.roles || MayRoute(cfg, s, id, role, entry, ev.usage))
    ensures Step(cfg, s, ev).ends[e].peer.Some? ==>
      var p := End(s.registry[route], ev.newSid);
      Step(cfg, s, ev).ends[e].peer == Some(p) && Step(cfg, s, ev).bridges == s.bridges[e := p][p := e]
  {
    PairedByGrant(cfg, s, ev, e);
    ClientsOwnSessions(s, e);
    if ev.GwRecv? && ev.c == e.conn && s.conns[e.conn].up[0].Open? {
      GrantsExactly(cfg, s, e.conn, ev.usage, role, entry);
    }
  }

  /** What the client hears of a session_open that is not granted: one session_close; or, where the gateway cannot
      send to it, nothing, and its task goes on to clean up. Nobody else hears anything, and no bridge changes. */
  lemma RefusedIsTold(cfg: Config, s: State, c: Conn, newSid: Sid, usage: Usage)
    requires Inv(s) && Wired(s) && Enabled(s, GwRecv(c, newSid, usage)) && s.conns[c].up[0].Open? && !Grants(cfg, s, c, usage)
    ensures var t := GwRecvStep(cfg, s, c, newSid, usage);
      var l := s.conns[c].(up := s.conns[c].up[1..]);
      && t.bridges == s.bridges && t.registry == s.registry
      && t.conns == s.conns[c := if s.conns[c].gwUp then l.(down := l.down + [Close(s.conns[c].up[0].sid)]) else l.(task := Leaving)]
  {
    var e := End(c, s.conns[c].up[0].sid);
    assert FramesKnown(s, c, s.conns[c].up);
    ClientAsks(s, c);
    RefuseIs(PopUp(s, c), e);
  }

  lemma ClientAsks(s: State, c: Conn)
    requires Inv(s) && c in s.conns && s.conns[c].up != [] && s.conns[c].up[0].Open?
    ensures End(c, s.conns[c].up[0].sid) in s.ends && s.conns[c].node.client
  {
    var e := End(c, s.conns[c].up[0].sid);
    assert FramesKnown(s, c, s.conns[c].up);
    assert OkAt(s, e);
    AskerUnpaired(s, c);
  }

  lemma RefuseIs(t: State, e: End)
    requires e in t.ends && e.conn in t.conns
    ensures Refuse(t, e).bridges == t.bridges && Refuse(t, e).registry == t.registry
    ensures var l := t.conns[e.conn];
      Refuse(t, e).conns == t.conns[e.conn := if l.gwUp then l.(down := l.down + [Close(e.sid)]) else l.(task := Leaving)]
  {
  }
}
