/** Tighten-only: what is stricter never allows more. And where narrowing a list loosens all the same. */
module PolicyTightening {
  import opened Common
  import opened Policy
  import opened PolicyMeaning

  // ---- what "tighter" means ------------------------------------------------

  /** `a` admits no more than `b`. */
  ghost predicate Narrower(a: Allowlist, b: Allowlist) {
    b.Some? ==> a.Some? && a.value <= b.value
  }

  ghost predicate LowerInt(a: Option<int>, b: Option<int>) {
    b.Some? ==> a.Some? && a.value <= b.value
  }

  ghost predicate LowerReal(a: Option<real>, b: Option<real>) {
    b.Some? ==> a.Some? && a.value <= b.value
  }

  ghost predicate TighterQuotas(a: Quotas, b: Quotas) {
    && LowerInt(a.maxConcurrent, b.maxConcurrent)
    && LowerInt(a.maxProvisions, b.maxProvisions)
    && LowerReal(a.maxEurPerHour, b.maxEurPerHour)
    && LowerReal(a.maxFleetEur, b.maxFleetEur)
  }

  /** Operation lists are special: an empty list, or one with "*", is read as "all operations". */
  ghost predicate NarrowerOps(a: set<string>, b: set<string>) {
    AnyOp(b) || (a <= b && a != {})
  }

  predicate AnyOp(ops: set<string>) {
    ops == {} || "*" in ops
  }

  /** A role's provider list that reaches beyond the global one denies every provider. */
  predicate Violates(global: Allowlist, role: Allowlist) {
    global.Some? && role.Some? && !(role.value <= global.value)
  }

  /** A role with fewer operations, providers and means. Narrowing must not turn a provider list that
      violates the global one into one that does not. */
  ghost predicate TighterRole(ga: Allowlist, a: RolePolicy, gb: Allowlist, b: RolePolicy) {
    && NarrowerOps(a.allowedOps, b.allowedOps)
    && Narrower(a.allowedProviders, b.allowedProviders)
    && (Violates(gb, b.allowedProviders) ==> Violates(ga, a.allowedProviders))
    && TighterQuotas(a.quotas, b.quotas)
  }

  ghost predicate TighterGlobal(a: GlobalPolicy, b: GlobalPolicy) {
    && a.require.AtLeast(b.require)
    && Narrower(a.allowedProviders, b.allowedProviders)
    && TighterQuotas(a.quotas, b.quotas)
    && a.adminRole == b.adminRole && a.defaultRole == b.defaultRole && a.roles.Keys == b.roles.Keys
    && forall role :: TighterRole(a.allowedProviders, RoleTable(a, role), b.allowedProviders, RoleTable(b, role))
  }

  /** Identity lists are special: an empty list is read as "no list". */
  ghost predicate NarrowerIdentities(a: Allowlist, b: Allowlist) {
    Narrower(a, b) && (b.Some? && b.value != {} ==> a.value != {})
  }

  ghost predicate TighterResourcePolicy(a: ResourcePolicy, b: ResourcePolicy) {
    && a.require.AtLeast(b.require)
    && Narrower(a.allowedRoles, b.allowedRoles)
    && NarrowerIdentities(a.allowedIdentities, b.allowedIdentities)
    && LowerInt(a.maxConcurrent, b.maxConcurrent)
    && Narrower(a.allowedRegions, b.allowedRegions)
  }

  ghost predicate TighterResource(a: Option<Resource>, b: Option<Resource>) {
    || (a.None? && b.None?)
    || (a.Some? && b.Some? && TighterResourcePolicy(PolicyOf(a), PolicyOf(b))
        && a.value.(policy := None) == b.value.(policy := None))
  }

  /** Usage that has grown for every actor and for the fleet. */
  ghost predicate MoreUsage(a: Usage, b: Usage) {
    && (forall actor :: Count(a.concurrent, actor) >= Count(b.concurrent, actor))
    && (forall actor :: Count(a.provisions, actor) >= Count(b.provisions, actor))
    && a.eurPerHour >= b.eurPerHour
    && a.eurSpent >= b.eurSpent
  }

  /** A request that asks for at least as much security, for the same provider. */
  ghost predicate TighterRequest(a: Request, b: Request) {
    a.tighten.AtLeast(b.tighten) && a.provider == b.provider
  }

  // ---- tightening -------------------------------------------------------------

  lemma TightenAllowlistMonotone(a: Allowlist, b: Allowlist, user: Allowlist)
    requires Narrower(a, b)
    requires TightenAllowlist(a, user).Ok?
    ensures TightenAllowlist(b, user).Ok?
    ensures Narrower(TightenAllowlist(a, user).value, TightenAllowlist(b, user).value)
  {
  }

  lemma RoleOfSameTable(a: GlobalPolicy, b: GlobalPolicy, roles: seq<string>)
    requires a.defaultRole == b.defaultRole && a.roles.Keys == b.roles.Keys
    ensures RoleOf(a, roles) == RoleOf(b, roles)
  {
  }

  lemma RoleCheckMonotone(a: GlobalPolicy, b: GlobalPolicy, role: string, action: string, provider: Option<string>)
    requires TighterGlobal(a, b)
    requires RoleCheck(a, role, action, provider).None?
    ensures RoleCheck(b, role, action, provider).None?
  {
    ActExactly(a, role, action, provider);
    ActExactly(b, role, action, provider);
    assert TighterRole(a.allowedProviders, RoleTable(a, role), b.allowedProviders, RoleTable(b, role));
  }

  lemma ResourceCheckMonotone(a: GlobalPolicy, b: GlobalPolicy, id: Identity, role: string,
                              ra: Resource, rb: Resource, ua: Usage, ub: Usage)
    requires TighterGlobal(a, b) && TighterResource(Some(ra), Some(rb)) && MoreUsage(ua, ub)
    requires ResourceCheck(a, id, role, ra, ua).None?
    ensures ResourceCheck(b, id, role, rb, ub).None?
  {
    var rp, rq := RoleTable(a, role), RoleTable(b, role);
    assert TighterRole(a.allowedProviders, rp, b.allowedProviders, rq);
    var pa, pb := PolicyOf(Some(ra)), PolicyOf(Some(rb));
    assert ra.region == rb.region by {
      assert ra.(policy := None).region == rb.(policy := None).region;
    }
    QuotaMonotone(a.quotas.maxConcurrent, b.quotas.maxConcurrent, rp.quotas.maxConcurrent, rq.quotas.maxConcurrent);
    QuotaMonotone(RoleCeiling(a, rp), RoleCeiling(b, rq), pa.maxConcurrent, pb.maxConcurrent);
    QuotaMonotone(a.quotas.maxProvisions, b.quotas.maxProvisions, rp.quotas.maxProvisions, rq.quotas.maxProvisions);
    var actor := id.Actor();
    ReachedMonotone(TightenQuota(RoleCeiling(a, rp), pa.maxConcurrent), TightenQuota(RoleCeiling(b, rq), pb.maxConcurrent),
                    Count(ua.concurrent, actor), Count(ub.concurrent, actor));
    ReachedMonotone(TightenQuota(a.quotas.maxProvisions, rp.quotas.maxProvisions),
                    TightenQuota(b.quotas.maxProvisions, rq.quotas.maxProvisions),
                    Count(ua.provisions, actor), Count(ub.provisions, actor));
  }

  lemma QuotaMonotone(a: Option<int>, b: Option<int>, ua: Option<int>, ub: Option<int>)
    requires LowerInt(a, b) && LowerInt(ua, ub)
    ensures LowerInt(TightenQuota(a, ua), TightenQuota(b, ub))
  {
  }

  lemma ReachedMonotone(ca: Option<int>, cb: Option<int>, a: int, b: int)
    requires LowerInt(ca, cb) && a >= b
    ensures Reached(cb, b) ==> Reached(ca, a)
  {
  }

  lemma BudgetCheckMonotone(a: GlobalPolicy, b: GlobalPolicy, action: string, ra: Option<Resource>,
                            rb: Option<Resource>, qa: Request, qb: Request, ua: Usage, ub: Usage, price: Prices)
    requires TighterGlobal(a, b) && TighterResource(ra, rb) && TighterRequest(qa, qb) && MoreUsage(ua, ub)
    requires BudgetCheck(a, action, ra, qa, ua, price).None?
    ensures BudgetCheck(b, action, rb, qb, ub, price).None?
  {
    assert ProviderOf(ra, qa) == ProviderOf(rb, qb);
    assert ra.Some? ==> ra.value.(policy := None).instanceType == rb.value.(policy := None).instanceType;
  }

  /** Making the admin's floor, the role table, the user's wishes or the usage stricter never turns a denial into a
      permission; where both decisions allow, the stricter one enforces at least the same security. */
  lemma EvaluateTightensOnly(a: GlobalPolicy, b: GlobalPolicy, id: Identity, action: string,
                             ra: Option<Resource>, rb: Option<Resource>, qa: Request, qb: Request,
                             ua: Usage, ub: Usage, price: Prices)
    requires TighterGlobal(a, b) && TighterResource(ra, rb) && TighterRequest(qa, qb) && MoreUsage(ua, ub)
    ensures var strict := Evaluate(a, id, action, ra, qa, ua, price);
            var loose := Evaluate(b, id, action, rb, qb, ub, price);
            strict.allow ==> loose.allow && strict.security.value.AtLeast(loose.security.value)
  {
    if Evaluate(a, id, action, ra, qa, ua, price).allow {
      BudgetCheckMonotone(a, b, action, ra, rb, qa, qb, ua, ub, price);
      ChecksMonotone(a, b, id, action, ra, rb, qa, qb, ua, ub);
      AllowedByChecks(a, id, action, ra, qa, ua, price);
      AllowedByChecks(b, id, action, rb, qb, ub, price);
    }
  }

  lemma ChecksMonotone(a: GlobalPolicy, b: GlobalPolicy, id: Identity, action: string,
                       ra: Option<Resource>, rb: Option<Resource>, qa: Request, qb: Request, ua: Usage, ub: Usage)
    requires TighterGlobal(a, b) && TighterResource(ra, rb) && TighterRequest(qa, qb) && MoreUsage(ua, ub)
    ensures IsAdmin(a, id) == IsAdmin(b, id)
    ensures ChecksPass(a, id, action, ra, qa, ua) ==> ChecksPass(b, id, action, rb, qb, ub)
  {
    RoleOfSameTable(a, b, id.roles);
    var role := RoleOf(a, id.roles);
    if ChecksPass(a, id, action, ra, qa, ua) {
      assert ProviderOf(ra, qa) == ProviderOf(rb, qb);
      RoleCheckMonotone(a, b, role, action, ProviderOf(ra, qa));
      if ra.Some? {
        ResourceCheckMonotone(a, b, id, role, ra.value, rb.value, ua, ub);
      }
    }
  }

  /** Whatever an identity is allowed, the same identity holding the admin role is allowed too, with
      the same security enforced on the box. */
  lemma AdminIsAllowedMore(g: GlobalPolicy, id: Identity, action: string, resource: Option<Resource>,
                           request: Request, usage: Usage, price: Prices)
    requires Evaluate(g, id, action, resource, request, usage, price).allow
    ensures var asAdmin := Evaluate(g, id.Granted(g.adminRole), action, resource, request, usage, price);
            asAdmin.allow
            && asAdmin.security == Evaluate(g, id, action, resource, request, usage, price).security
  {
    assert g.adminRole in id.Granted(g.adminRole).roles;
  }

  /** A request cannot lower the floor: every enforced flag of the global and of the resource policy
      is in the resolved security, and a flag absent from both is there exactly when asked for. */
  lemma UserCannotLoosen(g: GlobalPolicy, id: Identity, action: string, resource: Option<Resource>,
                         request: Request, usage: Usage, price: Prices)
    requires Evaluate(g, id, action, resource, request, usage, price).allow
    ensures var s := Evaluate(g, id, action, resource, request, usage, price).security;
            && s.Some? && s.value.AtLeast(g.require) && s.value.AtLeast(PolicyOf(resource).require)
            && s.value.AtLeast(request.tighten)
            && forall other: SecurityReqs ::
                 (other.AtLeast(g.require) && other.AtLeast(PolicyOf(resource).require)
                  && other.AtLeast(request.tighten)) ==> other.AtLeast(s.value)
  {
  }

  /** Narrowing the identity list of a resource to the empty list opens the resource to everyone:
      the engine reads an empty list as no list. This is why NarrowerIdentities keeps a list non-empty. */
  lemma EmptyIdentityListOpensTheResource()
    ensures exists g, id, strict: Resource, loose: Resource, usage, price: Prices ::
      && Narrower(PolicyOf(Some(strict)).allowedIdentities, PolicyOf(Some(loose)).allowedIdentities)
      && strict.(policy := None) == loose.(policy := None)
      && Evaluate(g, id, "route", Some(strict), NO_REQUEST, usage, price).allow
      && !Evaluate(g, id, "route", Some(loose), NO_REQUEST, usage, price).allow
  {
    var g := GlobalPolicy(NO_SECURITY, "admin", "user", None, NO_QUOTAS, map[]);
    var id := Identity("mallory", [], false);
    var loose := Resource("box", "dummy", None, None, true,
                          Some(NO_RESOURCE_POLICY.(allowedIdentities := Some({"alice"}))));
    var strict := loose.(policy := Some(NO_RESOURCE_POLICY.(allowedIdentities := Some({}))));
    var usage := Usage(map[], map[], 0.0, 0.0);
    var price: Prices := (p, t) => None;
    assert Evaluate(g, id, "route", Some(strict), NO_REQUEST, usage, price).allow;
    assert !Evaluate(g, id, "route", Some(loose), NO_REQUEST, usage, price).allow;
  }

  /** Exactly when narrowing an identity list turns a denial into a permission: it empties the list of
      a resource that would let the identity in without a list, and that the identity was not on. */
  lemma NarrowingLoosensExactly(g: GlobalPolicy, id: Identity, action: string, r: Resource, narrowed: set<string>,
                                request: Request, usage: Usage, price: Prices)
    requires r.policy.Some? && r.policy.value.allowedIdentities.Some?
    requires narrowed <= r.policy.value.allowedIdentities.value
    ensures var list := r.policy.value.allowedIdentities.value;
            var strict := r.(policy := Some(r.policy.value.(allowedIdentities := Some(narrowed))));
            var unlisted := r.(policy := Some(r.policy.value.(allowedIdentities := None)));
            (Evaluate(g, id, action, Some(strict), request, usage, price).allow
             && !Evaluate(g, id, action, Some(r), request, usage, price).allow)
            <==>
            (narrowed == {} && list != {} && id.sub !in list && !IsAdmin(g, id)
             && Evaluate(g, id, action, Some(unlisted), request, usage, price).allow)
  {
  }

  function WithRole(g: GlobalPolicy, role: string, rp: RolePolicy): GlobalPolicy {
    g.(roles := g.roles[role := rp])
  }

  /** A role's quotas are all that its resources depend on. */
  lemma SameMeans(g: GlobalPolicy, role: string, rp: RolePolicy, id: Identity, resource: Option<Resource>, usage: Usage)
    requires role in g.roles && rp.quotas == g.roles[role].quotas
    ensures IsAdmin(WithRole(g, role, rp), id) == IsAdmin(g, id) && RoleOf(WithRole(g, role, rp), id.roles) == RoleOf(g, id.roles)
    ensures resource.Some? ==> forall q :: MayUse(WithRole(g, role, rp), q, id, resource.value, usage) <==> MayUse(g, q, id, resource.value, usage)
  {
    RoleOfSameTable(WithRole(g, role, rp), g, id.roles);
  }

  lemma NarrowedProvidersAct(g: GlobalPolicy, role: string, providers: set<string>, id: Identity, action: string, provider: Option<string>)
    requires role in g.roles && g.roles[role].allowedProviders.Some? && providers <= g.roles[role].allowedProviders.value
    ensures var q := RoleOf(g, id.roles);
            (MayAct(WithRole(g, role, g.roles[role].(allowedProviders := Some(providers))), q, id, action, provider)
             && !MayAct(g, q, id, action, provider))
            <==>
            (Violates(g.allowedProviders, g.roles[role].allowedProviders) && !Violates(g.allowedProviders, Some(providers))
             && provider.Some? && provider.value in providers && q == role
             && MayAct(WithRole(g, role, g.roles[role].(allowedProviders := None)), q, id, action, provider))
  {
  }

  /** Exactly when narrowing a role's operations turns a denial into a permission: it empties the list, for an
      identity in the role that may do everything else, with an operation that was not on it. */
  lemma NarrowingOpsLoosensExactly(g: GlobalPolicy, role: string, ops: set<string>, id: Identity, action: string,
                                   resource: Option<Resource>, request: Request, usage: Usage, price: Prices)
    requires role in g.roles && ops <= g.roles[role].allowedOps
    ensures var before := g.roles[role].allowedOps;
            (Evaluate(WithRole(g, role, g.roles[role].(allowedOps := ops)), id, action, resource, request, usage, price).allow
             && !Evaluate(g, id, action, resource, request, usage, price).allow)
            <==>
            (ops == {} && !AnyOp(before) && action !in before && !IsAdmin(g, id) && RoleOf(g, id.roles) == role
             && Evaluate(WithRole(g, role, g.roles[role].(allowedOps := {"*"})), id, action, resource, request, usage, price).allow)
  {
    var narrowed := WithRole(g, role, g.roles[role].(allowedOps := ops));
    var all := WithRole(g, role, g.roles[role].(allowedOps := {"*"}));
    SameMeans(g, role, narrowed.roles[role], id, resource, usage);
    SameMeans(g, role, all.roles[role], id, resource, usage);
    AllowedByRole(narrowed, id, action, resource, request, usage, price);
    AllowedByRole(all, id, action, resource, request, usage, price);
    AllowedByRole(g, id, action, resource, request, usage, price);
  }

  /** Exactly when narrowing a role's providers does: the list reached beyond the global one, which denied
      every provider; it no longer does, and has the provider asked for. */
  lemma NarrowingProvidersLoosensExactly(g: GlobalPolicy, role: string, providers: set<string>, id: Identity, action: string,
                                         resource: Option<Resource>, request: Request, usage: Usage, price: Prices)
    requires role in g.roles && g.roles[role].allowedProviders.Some? && providers <= g.roles[role].allowedProviders.value
    ensures (Evaluate(WithRole(g, role, g.roles[role].(allowedProviders := Some(providers))), id, action, resource, request, usage, price).allow
             && !Evaluate(g, id, action, resource, request, usage, price).allow)
            <==>
            (Violates(g.allowedProviders, g.roles[role].allowedProviders) && !Violates(g.allowedProviders, Some(providers))
             && ProviderOf(resource, request).Some? && ProviderOf(resource, request).value in providers
             && !IsAdmin(g, id) && RoleOf(g, id.roles) == role
             && Evaluate(WithRole(g, role, g.roles[role].(allowedProviders := None)), id, action, resource, request, usage, price).allow)
  {
    var narrowed := WithRole(g, role, g.roles[role].(allowedProviders := Some(providers)));
    var open := WithRole(g, role, g.roles[role].(allowedProviders := None));
    SameMeans(g, role, narrowed.roles[role], id, resource, usage);
    SameMeans(g, role, open.roles[role], id, resource, usage);
    NarrowedProvidersAct(g, role, providers, id, action, ProviderOf(resource, request));
    AllowedByRole(narrowed, id, action, resource, request, usage, price);
    AllowedByRole(open, id, action, resource, request, usage, price);
    AllowedByRole(g, id, action, resource, request, usage, price);
  }

  ghost predicate EmptiedOpsLoosen(g: GlobalPolicy, id: Identity) {
    && "user" in g.roles && g.roles["user"].allowedOps == {"list"}
    && !Evaluate(g, id, "teardown", None, NO_REQUEST, NO_USAGE, NO_PRICES).allow
    && Evaluate(WithRole(g, "user", g.roles["user"].(allowedOps := {})), id, "teardown", None, NO_REQUEST, NO_USAGE, NO_PRICES).allow
  }

  ghost predicate FewerProvidersLoosen(g: GlobalPolicy, id: Identity, q: Request) {
    && "user" in g.roles && g.roles["user"].allowedProviders == Some({"aws", "home"})
    && !Evaluate(g, id, "list", None, q, NO_USAGE, NO_PRICES).allow
    && Evaluate(WithRole(g, "user", g.roles["user"].(allowedProviders := Some({"home"}))), id, "list", None, q, NO_USAGE, NO_PRICES).allow
  }

  /** An input for each: a role emptied of its operations may do anything, and a role whose providers shrink to
      the global list may use them. */
  lemma NarrowerRolesThatLoosen()
    ensures exists g: GlobalPolicy, id :: EmptiedOpsLoosen(g, id)
    ensures exists g: GlobalPolicy, id, q :: FewerProvidersLoosen(g, id, q)
  {
    var id := Identity("mallory", [], false);
    var g := GlobalPolicy(NO_SECURITY, "admin", "user", None, NO_QUOTAS, map["user" := RolePolicy({"list"}, None, NO_QUOTAS)]);
    assert EmptiedOpsLoosen(g, id);
    ProvidersThatLoosen(id);
  }

  lemma ProvidersThatLoosen(id: Identity)
    requires id == Identity("mallory", [], false)
    ensures exists g: GlobalPolicy, q :: FewerProvidersLoosen(g, id, q)
  {
    var q := NO_REQUEST.(provider := Some("home"));
    var g := GlobalPolicy(NO_SECURITY, "admin", "user", Some({"home"}), NO_QUOTAS,
                          map["user" := RolePolicy({}, Some({"aws", "home"}), NO_QUOTAS)]);
    assert "aws" in {"aws", "home"} && "aws" !in {"home"};
    assert FewerProvidersLoosen(g, id, q);
  }
}
