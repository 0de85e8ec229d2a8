/** What the policy engine's answers mean, in terms of the fields of the policy, the identity and the resource
    alone: who is allowed what, what a denial says, and what a permission enforces. */
module PolicyMeaning {
  import opened Common
  import opened Policy

  // ---- who is allowed what, constraint by constraint ---------------------------------------------

  /** The role a decision goes by: the first of the identity's roles that the role table knows; if it knows
      none of them, the default role. */
  ghost predicate DecidesBy(g: GlobalPolicy, id: Identity, role: string) {
    || (exists i :: 0 <= i < |id.roles| && id.roles[i] == role && role in g.roles && NoneKnown(g, id.roles, i))
    || (role == g.defaultRole && NoneKnown(g, id.roles, |id.roles|))
  }

  ghost predicate NoneKnown(g: GlobalPolicy, roles: seq<string>, n: nat)
    requires n <= |roles|
  {
    forall j :: 0 <= j < n ==> roles[j] !in g.roles
  }

  lemma {:induction false} RoleOfExactly(g: GlobalPolicy, id: Identity, role: string)
    ensures RoleOf(g, id.roles) == role <==> DecidesBy(g, id, role)
    decreases |id.roles|
  {
    if id.roles != [] {
      var rest := id.(roles := id.roles[1..]);
      RoleOfExactly(g, rest, role);
      assert id.roles == [id.roles[0]] + rest.roles;
      if id.roles[0] in g.roles {
        assert NoneKnown(g, id.roles, 0);
      } else {
        LaterRole(g, id, role);
      }
    }
  }

  lemma LaterRole(g: GlobalPolicy, id: Identity, role: string)
    requires id.roles != [] && id.roles[0] !in g.roles
    ensures DecidesBy(g, id, role) <==> DecidesBy(g, id.(roles := id.roles[1..]), role)
  {
    var rest := id.(roles := id.roles[1..]);
    forall n: nat | n < |id.roles| ensures NoneKnown(g, id.roles, n + 1) <==> NoneKnown(g, rest.roles, n) {
      assert forall j :: 0 <= j < n ==> rest.roles[j] == id.roles[j + 1];
      assert forall j :: 1 <= j < n + 1 ==> id.roles[j] == rest.roles[j - 1];
    }
    if i :| 0 <= i < |rest.roles| && rest.roles[i] == role && role in g.roles && NoneKnown(g, rest.roles, i) {
      assert id.roles[i + 1] == role && NoneKnown(g, id.roles, i + 1);
    }
    if i :| 0 <= i < |id.roles| && id.roles[i] == role && role in g.roles && NoneKnown(g, id.roles, i) {
      assert rest.roles[i - 1] == role && NoneKnown(g, rest.roles, i - 1);
    }
  }

  /** The provider a decision is about: the resource's, if it is about one that names it; else the request's. */
  ghost predicate IsAbout(resource: Option<Resource>, request: Request, provider: Option<string>) {
    if resource.Some? && resource.value.provider != "" then provider == Some(resource.value.provider)
    else provider == request.provider
  }

  ghost predicate MayDo(g: GlobalPolicy, role: string, action: string) {
    role in g.roles && g.roles[role].allowedOps != {} && "*" !in g.roles[role].allowedOps ==> action in g.roles[role].allowedOps
  }

  /** A role's list must not reach beyond the global one. */
  ghost predicate KeepsToTheList(g: GlobalPolicy, role: string) {
    role in g.roles && g.roles[role].allowedProviders.Some? && g.allowedProviders.Some? ==>
      g.roles[role].allowedProviders.value <= g.allowedProviders.value
  }

  ghost predicate MayChoose(g: GlobalPolicy, role: string, provider: string) {
    && (g.allowedProviders.Some? ==> provider in g.allowedProviders.value)
    && (role in g.roles && g.roles[role].allowedProviders.Some? ==> provider in g.roles[role].allowedProviders.value)
  }

  ghost predicate MayAct(g: GlobalPolicy, role: string, id: Identity, action: string, provider: Option<string>) {
    && !(g.require.jwt && id.anon)
    && MayDo(g, role, action)
    && (provider.Some? ==> KeepsToTheList(g, role) && MayChoose(g, role, provider.value))
  }

  ghost predicate RoleAdmitted(r: Resource, role: string) {
    r.policy.Some? && r.policy.value.allowedRoles.Some? ==> role in r.policy.value.allowedRoles.value
  }

  /** An empty list of identities admits everyone. */
  ghost predicate IdentityAdmitted(r: Resource, sub: string) {
    r.policy.Some? && r.policy.value.allowedIdentities.Some? && r.policy.value.allowedIdentities.value != {} ==>
      sub in r.policy.value.allowedIdentities.value
  }

  ghost predicate RegionAdmitted(r: Resource) {
    r.policy.Some? && r.policy.value.allowedRegions.Some? && r.region.Some? ==> r.region.value in r.policy.value.allowedRegions.value
  }

  /** Whom sessions and provisions are counted for. */
  ghost function NameOf(id: Identity): string {
    if id.sub != "" then id.sub else if id.anon then "anon" else "?"
  }

  /** The identity has fewer than the ceiling. */
  ghost predicate Below(ceiling: Option<int>, counts: map<string, nat>, id: Identity) {
    ceiling.Some? ==> (if NameOf(id) in counts then counts[NameOf(id)] else 0) < ceiling.value
  }

  ghost predicate SessionsLeft(g: GlobalPolicy, role: string, id: Identity, r: Resource, usage: Usage) {
    && Below(g.quotas.maxConcurrent, usage.concurrent, id)
    && (role in g.roles ==> Below(g.roles[role].quotas.maxConcurrent, usage.concurrent, id))
    && (r.policy.Some? ==> Below(r.policy.value.maxConcurrent, usage.concurrent, id))
  }

  ghost predicate ProvisionsLeft(g: GlobalPolicy, role: string, id: Identity, usage: Usage) {
    && Below(g.quotas.maxProvisions, usage.provisions, id)
    && (role in g.roles ==> Below(g.roles[role].quotas.maxProvisions, usage.provisions, id))
  }

  ghost predicate MayUse(g: GlobalPolicy, role: string, id: Identity, r: Resource, usage: Usage) {
    && RoleAdmitted(r, role) && IdentityAdmitted(r, id.sub) && RegionAdmitted(r)
    && SessionsLeft(g, role, id, r, usage) && ProvisionsLeft(g, role, id, usage)
  }

  ghost predicate RateLeft(g: GlobalPolicy, resource: Option<Resource>, provider: Option<string>, usage: Usage, price: Prices) {
    var rate := price(provider, if resource.Some? then resource.value.instanceType else None);
    g.quotas.maxEurPerHour.Some? ==>
      usage.eurPerHour + (if rate.Some? then rate.value else 0.0) <= g.quotas.maxEurPerHour.value + 0.000000001
  }

  ghost predicate MoneyLeft(g: GlobalPolicy, usage: Usage) {
    g.quotas.maxFleetEur.Some? ==> usage.eurSpent < g.quotas.maxFleetEur.value
  }

  ghost predicate Affordable(g: GlobalPolicy, resource: Option<Resource>, provider: Option<string>, usage: Usage, price: Prices) {
    RateLeft(g, resource, provider, usage, price) && MoneyLeft(g, usage)
  }

  /** Every constraint binds a non-admin on its own, the budget binds everyone, and nothing else does; for the
      role and the provider that the decision is about. */
  lemma AllowedExactly(g: GlobalPolicy, id: Identity, role: string, action: string, resource: Option<Resource>,
                       request: Request, provider: Option<string>, usage: Usage, price: Prices)
    requires DecidesBy(g, id, role) && IsAbout(resource, request, provider)
    ensures Evaluate(g, id, action, resource, request, usage, price).allow <==>
            && (g.adminRole in id.roles ||
                (MayAct(g, role, id, action, provider) && (resource.Some? ==> MayUse(g, role, id, resource.value, usage))))
            && (action == "request_compute" ==> Affordable(g, resource, provider, usage, price))
  {
    RoleOfExactly(g, id, role);
    AllowedByRole(g, id, action, resource, request, usage, price);
  }

  lemma AllowedByRole(g: GlobalPolicy, id: Identity, action: string, resource: Option<Resource>,
                      request: Request, usage: Usage, price: Prices)
    ensures var role, provider := RoleOf(g, id.roles), ProviderOf(resource, request);
            Evaluate(g, id, action, resource, request, usage, price).allow <==>
            && (IsAdmin(g, id) ||
                (MayAct(g, role, id, action, provider) && (resource.Some? ==> MayUse(g, role, id, resource.value, usage))))
            && (action == "request_compute" ==> Affordable(g, resource, provider, usage, price))
  {
    var role := RoleOf(g, id.roles);
    AllowedByChecks(g, id, action, resource, request, usage, price);
    BudgetExactly(g, action, resource, request, usage, price);
    ActExactly(g, role, action, ProviderOf(resource, request));
    if resource.Some? {
      UseExactly(g, role, id, resource.value, usage);
    }
  }

  /** Step by step, as the checks have it. */
  lemma AllowedByChecks(g: GlobalPolicy, id: Identity, action: string, r: Option<Resource>, q: Request, u: Usage, price: Prices)
    ensures Evaluate(g, id, action, r, q, u, price).allow <==>
      (IsAdmin(g, id) || ChecksPass(g, id, action, r, q, u)) && BudgetCheck(g, action, r, q, u, price).None?
    ensures Evaluate(g, id, action, r, q, u, price).allow ==>
      Evaluate(g, id, action, r, q, u, price).security == Some(Join(Join(g.require, PolicyOf(r).require), q.tighten))
  {
  }

  ghost predicate ChecksPass(g: GlobalPolicy, id: Identity, action: string, r: Option<Resource>, q: Request, u: Usage) {
    && !(g.require.jwt && id.anon)
    && RoleCheck(g, RoleOf(g, id.roles), action, ProviderOf(r, q)).None?
    && (r.Some? ==> ResourceCheck(g, id, RoleOf(g, id.roles), r.value, u).None?)
  }

  lemma BudgetExactly(g: GlobalPolicy, action: string, resource: Option<Resource>, request: Request, usage: Usage, price: Prices)
    ensures BudgetCheck(g, action, resource, request, usage, price).None? <==>
            (action == "request_compute" ==> Affordable(g, resource, ProviderOf(resource, request), usage, price))
  {
  }

  lemma ActExactly(g: GlobalPolicy, role: string, action: string, provider: Option<string>)
    ensures RoleCheck(g, role, action, provider).None? <==>
            MayDo(g, role, action) && (provider.Some? ==> KeepsToTheList(g, role) && MayChoose(g, role, provider.value))
  {
  }

  lemma UseExactly(g: GlobalPolicy, role: string, id: Identity, r: Resource, usage: Usage)
    ensures ResourceCheck(g, id, role, r, usage).None? <==> MayUse(g, role, id, r, usage)
  {
    SessionsExactly(g, role, id, r, usage);
    ProvisionsExactly(g, role, id, usage);
  }

  lemma SessionsExactly(g: GlobalPolicy, role: string, id: Identity, r: Resource, usage: Usage)
    ensures SessionsLeft(g, role, id, r, usage) <==>
      !Reached(TightenQuota(RoleCeiling(g, RoleTable(g, role)), PolicyOf(Some(r)).maxConcurrent), Count(usage.concurrent, id.Actor()))
  {
  }

  lemma ProvisionsExactly(g: GlobalPolicy, role: string, id: Identity, usage: Usage)
    ensures ProvisionsLeft(g, role, id, usage) <==>
      !Reached(TightenQuota(g.quotas.maxProvisions, RoleTable(g, role).quotas.maxProvisions), Count(usage.provisions, id.Actor()))
  {
  }

  // ---- what the answer says --------------------------------------------------------------------------

  /** The first constraint that is not met, in the order in which a denial names them. */
  ghost predicate Denies(g: GlobalPolicy, role: string, id: Identity, action: string, resource: Option<Resource>,
                         provider: Option<string>, usage: Usage, reason: string) {
    if g.require.jwt && id.anon then reason == "jwt required"
    else if !MayAct(g, role, id, action, provider) then RefusesAct(g, role, action, provider, reason)
    else resource.Some? && RefusesUse(g, role, id, resource.value, usage, reason)
  }

  ghost predicate RefusesAct(g: GlobalPolicy, role: string, action: string, provider: Option<string>, reason: string) {
    if !MayDo(g, role, action) then reason == "role '" + role + "' may not '" + action + "'"
    else if provider.None? then false
    else if !KeepsToTheList(g, role) then reason == "request widens an admin-defined allowlist"
    else reason == "provider '" + provider.value + "' not allowed for role '" + role + "'"
  }

  ghost predicate RefusesUse(g: GlobalPolicy, role: string, id: Identity, r: Resource, usage: Usage, reason: string) {
    if !RoleAdmitted(r, role) then reason == "resource '" + r.name + "' not allowed for role '" + role + "'"
    else if !IdentityAdmitted(r, id.sub) then reason == "identity not allowed on resource '" + r.name + "'"
    else if !RegionAdmitted(r) then reason == "region '" + r.region.value + "' not allowed for '" + r.name + "'"
    else if !SessionsLeft(g, role, id, r, usage) then reason == "quota exceeded (max concurrent resources)"
    else !ProvisionsLeft(g, role, id, usage) && reason == "quota exceeded (max total provisions)"
  }

  ghost predicate ExceedsBudget(g: GlobalPolicy, resource: Option<Resource>, provider: Option<string>, usage: Usage,
                                price: Prices, reason: string) {
    if !RateLeft(g, resource, provider, usage, price) then reason == "budget cap exceeded (max EUR/hour)"
    else !MoneyLeft(g, usage) && reason == "budget cap exceeded (max fleet spend)"
  }

  /** A denial carries no security, and its reason is the first constraint not met; the budget comes last. */
  lemma DenialNamesTheFirst(g: GlobalPolicy, id: Identity, role: string, action: string, resource: Option<Resource>,
                            request: Request, provider: Option<string>, usage: Usage, price: Prices)
    requires DecidesBy(g, id, role) && IsAbout(resource, request, provider)
    requires !Evaluate(g, id, action, resource, request, usage, price).allow
    ensures var d := Evaluate(g, id, action, resource, request, usage, price);
            && d.security.None?
            && ((g.adminRole !in id.roles && Denies(g, role, id, action, resource, provider, usage, d.reason))
                || (action == "request_compute" && ExceedsBudget(g, resource, provider, usage, price, d.reason)
                    && (g.adminRole in id.roles
                        || (MayAct(g, role, id, action, provider) && (resource.Some? ==> MayUse(g, role, id, resource.value, usage))))))
  {
    RoleOfExactly(g, id, role);
    ActRefused(g, role, action, provider);
    BudgetRefused(g, action, resource, request, usage, price);
    if resource.Some? {
      UseRefused(g, role, id, resource.value, usage);
    }
    DeniedByChecks(g, id, action, resource, request, usage, price);
  }

  lemma DeniedByChecks(g: GlobalPolicy, id: Identity, action: string, r: Option<Resource>, q: Request, u: Usage, price: Prices)
    requires !Evaluate(g, id, action, r, q, u, price).allow
    ensures var role := RoleOf(g, id.roles);
            var act := RoleCheck(g, role, action, ProviderOf(r, q));
            var use := if r.Some? then ResourceCheck(g, id, role, r.value, u) else None;
            Evaluate(g, id, action, r, q, u, price) == Deny(
              if !IsAdmin(g, id) && g.require.jwt && id.anon then "jwt required"
              else if !IsAdmin(g, id) && act.Some? then act.value
              else if !IsAdmin(g, id) && use.Some? then use.value
              else BudgetCheck(g, action, r, q, u, price).GetOr(""))
    ensures (IsAdmin(g, id) || ChecksPass(g, id, action, r, q, u)) ==> BudgetCheck(g, action, r, q, u, price).Some?
  {
  }

  lemma ActRefused(g: GlobalPolicy, role: string, action: string, provider: Option<string>)
    ensures var refused := RoleCheck(g, role, action, provider);
      && (refused.None? <==> MayDo(g, role, action) && (provider.Some? ==> KeepsToTheList(g, role) && MayChoose(g, role, provider.value)))
      && (refused.Some? ==> RefusesAct(g, role, action, provider, refused.value))
  {
    ActExactly(g, role, action, provider);
  }

  lemma BudgetRefused(g: GlobalPolicy, action: string, resource: Option<Resource>, request: Request, usage: Usage, price: Prices)
    ensures var refused := BudgetCheck(g, action, resource, request, usage, price);
      refused.Some? ==>
        action == "request_compute" && ExceedsBudget(g, resource, ProviderOf(resource, request), usage, price, refused.value)
  {
  }

  lemma UseRefused(g: GlobalPolicy, role: string, id: Identity, r: Resource, usage: Usage)
    ensures var refused := ResourceCheck(g, id, role, r, usage);
      && (refused.None? <==> MayUse(g, role, id, r, usage))
      && (refused.Some? ==> RefusesUse(g, role, id, r, usage, refused.value))
  {
    SessionsExactly(g, role, id, r, usage);
    ProvisionsExactly(g, role, id, usage);
  }

  /** A permission says whether it is an admin's, and enforces a flag exactly if the global policy, the resource
      or the request asks for it. */
  lemma PermissionEnforces(g: GlobalPolicy, id: Identity, action: string, resource: Option<Resource>,
                           request: Request, usage: Usage, price: Prices)
    requires Evaluate(g, id, action, resource, request, usage, price).allow
    ensures var d := Evaluate(g, id, action, resource, request, usage, price);
            var floor := if resource.Some? && resource.value.policy.Some? then resource.value.policy.value.require
                         else SecurityReqs(false, false, false);
            && d.reason == (if g.adminRole in id.roles then "admin" else "")
            && d.security.Some?
            && (d.security.value.e2e <==> g.require.e2e || floor.e2e || request.tighten.e2e)
            && (d.security.value.jwt <==> g.require.jwt || floor.jwt || request.tighten.jwt)
            && (d.security.value.tls <==> g.require.tls || floor.tls || request.tighten.tls)
  {
  }
}
