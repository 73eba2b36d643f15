/**
 * The assets list (AssetsList.tsx): the query its loader builds. Without a
 * signed-in user it fails with "Not authenticated"; otherwise it lists the
 * assets of the user's organisation (or, without one, of the profile's
 * tenant, defaulting to tenant 1), newest first, narrowed to one status when
 * the screen is given one. The store runs the query; `Select` says what that
 * returns.
 */
module AssetsList {
  import opened Common
  import opened Seqs
  import opened Store
  import opened Tenancy

  /** One row of the assets table, as far as the query reads it. */
  datatype Asset = Asset(
    id: int,
    name: string,
    status: Option<string>,
    organisationId: Option<string>,
    tenantId: Option<int>,
    createdAt: int)                  // milliseconds since the epoch

  /** Reads a column of an asset row; columns the model does not carry read as null. */
  function Column(a: Asset, column: string): Value {
    if column == "id" then Num(a.id)
    else if column == "name" then Text(a.name)
    else if column == "status" then TextOrNull(a.status)
    else if column == "organisation_id" then TextOrNull(a.organisationId)
    else if column == "tenant_id" then NumOrNull(a.tenantId)
    else if column == "created_at" then Num(a.createdAt)
    else Null
  }

  /** The assets query for a scope and an optional status, as the loader leaves it. */
  function AssetsQuery(scope: Scope, status: Option<string>): Query {
    var scoped := Scoped(From("assets", "created_at", false), scope);
    if Truthy(status) then scoped.WhereEq("status", Text(status.value)) else scoped
  }

  /**
   * The loader's query construction (`let query = …` reassigned under
   * conditions). `user` is the signed-in user's id, if any; `orgId` and
   * `profileTenant` are what the user and profile lookups returned.
   */
  method BuildQuery(user: Option<string>, orgId: Option<string>, profileTenant: Option<int>, status: Option<string>)
    returns (r: Result<Query>)
    ensures r.Err? <==> user.None?
    ensures r.Err? ==> r.message == "Not authenticated"
    ensures r.Ok? ==> r.value == AssetsQuery(ResolveScope(orgId, profileTenant), status)
  {
    if user.None? {
      return Err("Not authenticated");
    }
    var tenantId := TenantId(profileTenant);
    var query := From("assets", "created_at", false);
    if Truthy(orgId) {
      query := query.WhereEq("organisation_id", Text(orgId.value));
    } else {
      query := query.WhereEq("tenant_id", Num(tenantId));
    }
    if Truthy(status) {
      query := query.WhereEq("status", Text(status.value));
    }
    return Ok(query);
  }

  /**
   * The assets query reads the assets table newest first, carries exactly one
   * scope predicate (the organisation's when there is one, else the tenant's),
   * and a status predicate exactly when a status is given.
   */
  lemma AssetsQueryShape(orgId: Option<string>, profileTenant: Option<int>, status: Option<string>)
    ensures var q := AssetsQuery(ResolveScope(orgId, profileTenant), status);
            q.table == "assets" && q.order == Order("created_at", false) &&
            |ScopePredicates(q)| == 1 &&
            (Truthy(orgId) ==> ScopePredicates(q) == [Eq("organisation_id", Text(orgId.value))]) &&
            (!Truthy(orgId) ==> ScopePredicates(q) == [Eq("tenant_id", Num(TenantId(profileTenant)))]) &&
            ((exists p :: p in q.predicates && p.column == "status") <==> Truthy(status))
  {
    var scope := ResolveScope(orgId, profileTenant);
    var base := From("assets", "created_at", false);
    var scoped := Scoped(base, scope);
    ScopedAddsOnePredicate(base, scope);
    assert |scoped.predicates| == 1 && !IsScopeColumn("status");
    assert !(exists p :: p in scoped.predicates && p.column == "status");
    if Truthy(status) {
      var q := scoped.WhereEq("status", Text(status.value));
      FilterConcat(scoped.predicates, [Eq("status", Text(status.value))], IsScopePredicate);
      assert q.predicates[1] in q.predicates;
    }
  }

  /** An asset passes the assets query exactly when it is in scope and has the given status, if any. */
  lemma AssetsQueryKeeps(a: Asset, scope: Scope, status: Option<string>)
    ensures Satisfies(a, AssetsQuery(scope, status).predicates, Column) <==>
            InScope(a, scope, Column) && (Truthy(status) ==> a.status == status)
  {
    var base := From("assets", "created_at", false);
    assert base.predicates == [];
    ScopedKeeps(a, base, scope, Column);
    if Truthy(status) {
      SatisfiesSnoc(a, Scoped(base, scope).predicates, Eq("status", Text(status.value)), Column);
      assert Column(a, "status") == TextOrNull(a.status);
    }
  }

  /** The created_at column of an asset is its creation time. */
  lemma CreatedAtColumn(a: Asset)
    ensures Column(a, "created_at") == Num(a.createdAt)
  {
  }

  /** The rows the assets query keeps, as a function value. */
  function Listable(scope: Scope, status: Option<string>): Asset -> bool {
    (a: Asset) => InScope(a, scope, Column) && (Truthy(status) ==> a.status == status)
  }

  /**
   * What the list shows, the assets query run on the assets table: exactly
   * the assets of the scope (with the given status, when one is given),
   * newest first.
   */
  function ListedAssets(rows: seq<Asset>, scope: Scope, status: Option<string>): (listed: seq<Asset>)
    ensures forall a :: a in listed <==>
              a in rows && InScope(a, scope, Column) && (Truthy(status) ==> a.status == status)
    ensures multiset(listed) == multiset(Filter(rows, Listable(scope, status)))
    ensures forall i, j :: 0 <= i < j < |listed| ==> listed[i].createdAt >= listed[j].createdAt
  {
    var q := AssetsQuery(scope, status);
    assert q.order == Order("created_at", false);
    forall a: Asset
      ensures Satisfies(a, q.predicates, Column) <==>
              InScope(a, scope, Column) && (Truthy(status) ==> a.status == status)
      ensures Column(a, q.order.column) == Num(a.createdAt)
    {
      AssetsQueryKeeps(a, scope, status);
      CreatedAtColumn(a);
    }
    FilterExt(rows, Matching(q, Column), Listable(scope, status));
    Select(rows, q, Column)
  }
}
