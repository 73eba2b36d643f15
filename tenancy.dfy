/**
 * Which rows a signed-in user may list. The user's organisation id, when
 * present, scopes every ITAM query; otherwise the profile's tenant id does,
 * and a missing or zero tenant id falls back to tenant 1
 * (`profileData?.tenant_id || 1`). The lookups of the user's organisation
 * and profile are backend calls; their results arrive here as parameters.
 */
module Tenancy {
  import opened Common
  import opened Seqs
  import opened Store

  /** The tenant used when the profile names none. */
  const DefaultTenant: int := 1

  /** The scope a query is restricted to. */
  datatype Scope = Organisation(orgId: string) | Tenant(tenantId: int)

  /** `profileData?.tenant_id || 1` */
  function TenantId(profileTenant: Option<int>): (t: int)
    ensures t != 0
    ensures TruthyNum(profileTenant) ==> t == profileTenant.value
    ensures !TruthyNum(profileTenant) ==> t == DefaultTenant
  {
    if TruthyNum(profileTenant) then profileTenant.value else DefaultTenant
  }

  /**
   * The organisation when the user has one (a non-empty id), else the
   * profile's tenant; a tenant scope is never tenant 0.
   */
  function ResolveScope(orgId: Option<string>, profileTenant: Option<int>): (s: Scope)
    ensures s.Organisation? <==> Truthy(orgId)
    ensures s.Organisation? ==> s.orgId == orgId.value
    ensures s.Tenant? ==> s.tenantId == TenantId(profileTenant) && s.tenantId != 0
  {
    if Truthy(orgId) then Organisation(orgId.value) else Tenant(TenantId(profileTenant))
  }

  /** The two columns a scope predicate may name. */
  predicate IsScopeColumn(column: string) {
    column == "organisation_id" || column == "tenant_id"
  }

  /** A predicate that restricts the scope. */
  predicate IsScopePredicate(p: Predicate) {
    IsScopeColumn(p.column)
  }

  /** Adds the scope's predicate: `.eq("organisation_id", …)` or `.eq("tenant_id", …)`. */
  function Scoped(q: Query, s: Scope): Query {
    match s
    case Organisation(id) => q.WhereEq("organisation_id", Text(id))
    case Tenant(id) => q.WhereEq("tenant_id", Num(id))
  }

  /** The predicates of `q` that restrict its scope. */
  function ScopePredicates(q: Query): seq<Predicate> {
    Filter(q.predicates, IsScopePredicate)
  }

  /**
   * Scoping a query without a scope predicate gives it exactly one, which
   * names the organisation column for an organisation scope and the tenant
   * column otherwise; table and order are kept.
   */
  lemma ScopedAddsOnePredicate(q: Query, s: Scope)
    requires ScopePredicates(q) == []
    ensures var r := Scoped(q, s);
            r.table == q.table && r.order == q.order &&
            |ScopePredicates(r)| == 1 &&
            (s.Organisation? ==> ScopePredicates(r) == [Eq("organisation_id", Text(s.orgId))]) &&
            (s.Tenant? ==> ScopePredicates(r) == [Eq("tenant_id", Num(s.tenantId))])
  {
    var r := Scoped(q, s);
    FilterConcat(q.predicates, [r.predicates[|q.predicates|]], IsScopePredicate);
    assert r.predicates == q.predicates + [r.predicates[|q.predicates|]];
  }

  /** A row belongs to a scope: its organisation or tenant column holds the scope's id. */
  predicate InScope<R>(row: R, s: Scope, col: (R, string) -> Value) {
    match s
    case Organisation(id) => col(row, "organisation_id") == Text(id)
    case Tenant(id) => col(row, "tenant_id") == Num(id)
  }

  /** Scoping a query keeps exactly the rows it kept that also belong to the scope. */
  lemma ScopedKeeps<R>(row: R, q: Query, s: Scope, col: (R, string) -> Value)
    ensures Satisfies(row, Scoped(q, s).predicates, col) <==> Satisfies(row, q.predicates, col) && InScope(row, s, col)
  {
    match s
    case Organisation(id) => SatisfiesSnoc(row, q.predicates, Eq("organisation_id", Text(id)), col);
    case Tenant(id) => SatisfiesSnoc(row, q.predicates, Eq("tenant_id", Num(id)), col);
  }
}
