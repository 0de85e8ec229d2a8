/** The gateway's policy engine (gateway/policy.py): an admin-set floor that users may only tighten. */
module Policy {
  import opened Common

  // ---- data ---------------------------------------------------------------

  datatype Identity = Identity(sub: string, roles: seq<string>, anon: bool) {
    predicate HasRole(role: string) {
      role in roles
    }

    /** `identity.sub or identity.label` */
    function Actor(): string {
      if sub != "" then sub else if anon then "anon" else "?"
    }

    /** The same identity, carrying one more role. */
    function Granted(role: string): Identity {
      this.(roles := roles + [role])
    }
  }

  /** An allowlist; None means unbounded. Only membership is observable, so a set. */
  type Allowlist = Option<set<string>>

  datatype Quotas = Quotas(
    maxConcurrent: Option<int>,
    maxProvisions: Option<int>,
    maxEurPerHour: Option<real>,
    maxFleetEur: Option<real>)

  const NO_QUOTAS := Quotas(None, None, None, None)

  datatype RolePolicy = RolePolicy(allowedOps: set<string>, allowedProviders: Allowlist, quotas: Quotas)

  const NO_ROLE_POLICY := RolePolicy({}, None, NO_QUOTAS)

  datatype SecurityReqs = SecurityReqs(e2e: bool, jwt: bool, tls: bool) {
    predicate AtLeast(other: SecurityReqs) {
      (other.e2e ==> e2e) && (other.jwt ==> jwt) && (other.tls ==> tls)
    }
  }

  datatype GlobalPolicy = GlobalPolicy(
    require: SecurityReqs,
    adminRole: string,
    defaultRole: string,
    allowedProviders: Allowlist,
    quotas: Quotas,
    roles: map<string, RolePolicy>)

  datatype ResourcePolicy = ResourcePolicy(
    require: SecurityReqs,
    allowedRoles: Allowlist,
    allowedIdentities: Allowlist,
    maxConcurrent: Option<int>,
    allowedRegions: Allowlist)

  const NO_SECURITY := SecurityReqs(false, false, false)
  const NO_RESOURCE_POLICY := ResourcePolicy(NO_SECURITY, None, None, None, None)

  /** The fields of a catalog entry that a decision reads. */
  datatype Resource = Resource(
    name: string,
    provider: string,
    region: Option<string>,
    instanceType: Option<string>,
    reuse: bool,
    policy: Option<ResourcePolicy>)

  datatype Request = Request(tighten: SecurityReqs, provider: Option<string>)

  const NO_REQUEST := Request(NO_SECURITY, None)

  datatype Usage = Usage(
    concurrent: map<string, nat>,
    provisions: map<string, nat>,
    eurPerHour: real,
    eurSpent: real)

  datatype Decision = Decision(allow: bool, reason: string, security: Option<SecurityReqs>)

  const NO_USAGE := Usage(map[], map[], 0.0, 0.0)

  /** Price lookup of gateway/offerings.toml: provider and instance type to an hourly rate. */
  type Prices = (Option<string>, Option<string>) -> Option<real>

  const NO_PRICES: Prices := (p, t) => None

  function Deny(reason: string): Decision {
    Decision(false, reason, None)
  }

  // ---- tighten-only combinators -------------------------------------------

  function TightenAllowlist(admin: Allowlist, user: Allowlist): Result<Allowlist> {
    if admin.None? then Ok(user)
    else if user.None? then Ok(admin)
    else if !(user.value <= admin.value) then Err("request widens an admin-defined allowlist")
    else Ok(Some(admin.value * user.value))
  }

  function TightenQuota(admin: Option<int>, user: Option<int>): Option<int> {
    match (admin, user)
    case (None, _) => user
    case (_, None) => admin
    case (Some(a), Some(u)) => Some(Min(a, u))
  }

  function Join(a: SecurityReqs, b: SecurityReqs): SecurityReqs {
    SecurityReqs(a.e2e || b.e2e, a.jwt || b.jwt, a.tls || b.tls)
  }

  // ---- engine -------------------------------------------------------------

  /** The first of the identity's roles that the role table knows, else the default role. */
  function RoleOf(g: GlobalPolicy, roles: seq<string>): string {
    if roles == [] then g.defaultRole
    else if roles[0] in g.roles then roles[0]
    else RoleOf(g, roles[1..])
  }

  predicate IsAdmin(g: GlobalPolicy, id: Identity) {
    id.HasRole(g.adminRole)
  }

  function RoleTable(g: GlobalPolicy, role: string): RolePolicy {
    if role in g.roles then g.roles[role] else NO_ROLE_POLICY
  }

  /** `getattr(resource, "provider", None) or request.get("provider")` */
  function ProviderOf(resource: Option<Resource>, request: Request): Option<string> {
    if resource.Some? && resource.value.provider != "" then Some(resource.value.provider)
    else request.provider
  }

  function PolicyOf(resource: Option<Resource>): ResourcePolicy {
    if resource.Some? then resource.value.policy.GetOr(NO_RESOURCE_POLICY) else NO_RESOURCE_POLICY
  }

  function Count(counts: map<string, nat>, actor: string): nat {
    if actor in counts then counts[actor] else 0
  }

  predicate Reached(ceiling: Option<int>, count: int) {
    ceiling.Some? && count >= ceiling.value
  }

  /** The ceiling on concurrent sessions that does not depend on the resource. */
  function RoleCeiling(g: GlobalPolicy, rp: RolePolicy): Option<int> {
    TightenQuota(g.quotas.maxConcurrent, rp.quotas.maxConcurrent)
  }

  /** Step 2: the operation and provider checks. None means passed, Some(reason) denied. */
  function RoleCheck(g: GlobalPolicy, role: string, action: string, provider: Option<string>): Option<string> {
    var rp := RoleTable(g, role);
    if rp.allowedOps != {} && "*" !in rp.allowedOps && action !in rp.allowedOps then
      Some("role '" + role + "' may not '" + action + "'")
    else if provider.None? then None
    else
      match TightenAllowlist(g.allowedProviders, rp.allowedProviders)
      case Err(reason) => Some(reason)
      case Ok(providers) =>
        if providers.Some? && provider.value !in providers.value then
          Some("provider '" + provider.value + "' not allowed for role '" + role + "'")
        else None
  }

  /** Step 3: access rules and quotas of the resource the decision is about. */
  function ResourceCheck(g: GlobalPolicy, id: Identity, role: string, r: Resource, usage: Usage): Option<string> {
    var rp := RoleTable(g, role);
    var rpol := PolicyOf(Some(r));
    if rpol.allowedRoles.Some? && role !in rpol.allowedRoles.value then
      Some("resource '" + r.name + "' not allowed for role '" + role + "'")
    else if rpol.allowedIdentities.Some? && rpol.allowedIdentities.value != {}
            && id.sub !in rpol.allowedIdentities.value then
      Some("identity not allowed on resource '" + r.name + "'")
    else if rpol.allowedRegions.Some? && r.region.Some? && r.region.value !in rpol.allowedRegions.value then
      Some("region '" + r.region.value + "' not allowed for '" + r.name + "'")
    else if Reached(TightenQuota(RoleCeiling(g, rp), rpol.maxConcurrent), Count(usage.concurrent, id.Actor())) then
      Some("quota exceeded (max concurrent resources)")
    else if Reached(TightenQuota(g.quotas.maxProvisions, rp.quotas.maxProvisions),
                    Count(usage.provisions, id.Actor())) then
      Some("quota exceeded (max total provisions)")
    else None
  }

  /** Step 3b: spend caps, for everyone. */
  function BudgetCheck(g: GlobalPolicy, action: string, resource: Option<Resource>, request: Request,
                       usage: Usage, price: Prices): Option<string> {
    if action != "request_compute" then None
    else
      var itype := if resource.Some? then resource.value.instanceType else None;
      var newRate := price(ProviderOf(resource, request), itype).GetOr(0.0);
      if g.quotas.maxEurPerHour.Some?
         && usage.eurPerHour + newRate > g.quotas.maxEurPerHour.value + 0.000000001 then
        Some("budget cap exceeded (max EUR/hour)")
      else if g.quotas.maxFleetEur.Some? && usage.eurSpent >= g.quotas.maxFleetEur.value then
        Some("budget cap exceeded (max fleet spend)")
      else None
  }

  function Evaluate(g: GlobalPolicy, id: Identity, action: string, resource: Option<Resource>,
                    request: Request, usage: Usage, price: Prices): Decision {
    var admin := IsAdmin(g, id);
    if g.require.jwt && id.anon && !admin then Deny("jwt required")
    else
      var role := RoleOf(g, id.roles);
      var roleReason :=
        if admin then None else RoleCheck(g, role, action, ProviderOf(resource, request));
      if roleReason.Some? then Deny(roleReason.value)
      else
        var resourceReason :=
          if admin || resource.None? then None else ResourceCheck(g, id, role, resource.value, usage);
        if resourceReason.Some? then Deny(resourceReason.value)
        else
          var budgetReason := BudgetCheck(g, action, resource, request, usage, price);
          if budgetReason.Some? then Deny(budgetReason.value)
          else Decision(true, if admin then "admin" else "",
                        Some(Join(Join(g.require, PolicyOf(resource).require), request.tighten)))
  }
}
