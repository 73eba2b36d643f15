/**
 * The active asset assignments (AssetAssignmentsList.tsx): the loader's
 * query (assignments not yet returned, in the user's scope, most recently
 * assigned first) and the "return asset" mutation, which stamps
 * `returned_at` on one assignment row and then invalidates the cached
 * queries that show it. The assignments table of the backend store is held
 * in memory by `AssignmentsTable`.
 */
module AssetAssignmentsList {
  import opened Common
  import opened Seqs
  import opened Store
  import opened Tenancy
  import opened QueryCache

  /** One row of the asset assignments table, as far as this screen reads it. */
  datatype Assignment = Assignment(
    id: int,
    assetId: int,
    assignedTo: Option<string>,
    assignedAt: int,                 // milliseconds since the epoch
    returnedAt: Option<int>,         // null while the asset is still out
    organisationId: Option<string>,
    tenantId: Option<int>)

  /** Reads a column of an assignment row; columns the model does not carry read as null. */
  function Column(a: Assignment, column: string): Value {
    if column == "id" then Num(a.id)
    else if column == "asset_id" then Num(a.assetId)
    else if column == "assigned_to" then TextOrNull(a.assignedTo)
    else if column == "assigned_at" then Num(a.assignedAt)
    else if column == "returned_at" then NumOrNull(a.returnedAt)
    else if column == "organisation_id" then TextOrNull(a.organisationId)
    else if column == "tenant_id" then NumOrNull(a.tenantId)
    else Null
  }

  /** The assignments query for a scope, as the loader leaves it. */
  function AssignmentsQuery(scope: Scope): Query {
    Scoped(From("asset_assignments", "assigned_at", false).WhereIs("returned_at", Null), scope)
  }

  /**
   * The loader's query construction. `user` is the signed-in user's id, if
   * any; `orgId` and `profileTenant` are what the user and profile lookups
   * returned.
   */
  method BuildQuery(user: Option<string>, orgId: Option<string>, profileTenant: Option<int>)
    returns (r: Result<Query>)
    ensures r.Err? <==> user.None?
    ensures r.Err? ==> r.message == "Not authenticated"
    ensures r.Ok? ==> r.value == AssignmentsQuery(ResolveScope(orgId, profileTenant))
  {
    if user.None? {
      return Err("Not authenticated");
    }
    var tenantId := TenantId(profileTenant);
    var query := From("asset_assignments", "assigned_at", false).WhereIs("returned_at", Null);
    if Truthy(orgId) {
      query := query.WhereEq("organisation_id", Text(orgId.value));
    } else {
      query := query.WhereEq("tenant_id", Num(tenantId));
    }
    return Ok(query);
  }

  /**
   * The assignments query reads the assignments table, most recently
   * assigned first, tests `returned_at` for null, and carries exactly one
   * scope predicate, resolved as for the assets list.
   */
  lemma AssignmentsQueryShape(orgId: Option<string>, profileTenant: Option<int>)
    ensures var q := AssignmentsQuery(ResolveScope(orgId, profileTenant));
            q.table == "asset_assignments" && q.order == Order("assigned_at", false) &&
            Is("returned_at", Null) in q.predicates &&
            |ScopePredicates(q)| == 1 &&
            (Truthy(orgId) ==> ScopePredicates(q) == [Eq("organisation_id", Text(orgId.value))]) &&
            (!Truthy(orgId) ==> ScopePredicates(q) == [Eq("tenant_id", Num(TenantId(profileTenant)))])
  {
    var base := From("asset_assignments", "assigned_at", false).WhereIs("returned_at", Null);
    assert base.predicates == [Is("returned_at", Null)];
    assert !IsScopeColumn("returned_at");
    ScopedAddsOnePredicate(base, ResolveScope(orgId, profileTenant));
    assert AssignmentsQuery(ResolveScope(orgId, profileTenant)).predicates[0] == Is("returned_at", Null);
  }

  /** An assignment passes the query exactly when it is in scope and not yet returned. */
  lemma AssignmentsQueryKeeps(a: Assignment, scope: Scope)
    ensures Satisfies(a, AssignmentsQuery(scope).predicates, Column) <==>
            InScope(a, scope, Column) && a.returnedAt.None?
  {
    var base := From("asset_assignments", "assigned_at", false).WhereIs("returned_at", Null);
    SatisfiesSnoc(a, [], Is("returned_at", Null), Column);
    assert [] + [Is("returned_at", Null)] == base.predicates;
    ScopedKeeps(a, base, scope, Column);
    assert Column(a, "returned_at") == NumOrNull(a.returnedAt);
  }

  /** The rows the assignments query keeps, as a function value. */
  function Active(scope: Scope): Assignment -> bool {
    (a: Assignment) => InScope(a, scope, Column) && a.returnedAt.None?
  }

  /** The list the screen shows: what the assignments query returns on the table. */
  function ActiveAssignments(rows: seq<Assignment>, scope: Scope): (r: seq<Assignment>)
    ensures forall a :: a in r <==> a in rows && InScope(a, scope, Column) && a.returnedAt.None?
    ensures multiset(r) == multiset(Filter(rows, Active(scope)))
    ensures forall i, j :: 0 <= i < j < |r| ==> r[i].assignedAt >= r[j].assignedAt
  {
    var q := AssignmentsQuery(scope);
    forall a: Assignment {
      AssignmentsQueryKeeps(a, scope);
    }
    assert q.order == Order("assigned_at", false);
    assert forall a: Assignment :: Column(a, q.order.column) == Num(a.assignedAt);
    FilterExt(rows, Matching(q, Column), Active(scope));
    Select(rows, q, Column)
  }

  /** One row under the update: `returned_at` set to `now` when it has the id. */
  function StampAt(id: int, now: int): Assignment -> Assignment {
    (a: Assignment) => if a.id == id then a.(returnedAt := Some(now)) else a
  }

  /**
   * The store's update `update({ returned_at: now }).eq("id", id)`: the
   * rows with that id get `returned_at` set to `now`, and no other row or
   * field changes.
   */
  function StampReturned(rows: seq<Assignment>, id: int, now: int): (r: seq<Assignment>)
    ensures |r| == |rows|
    ensures forall i :: 0 <= i < |rows| && rows[i].id != id ==> r[i] == rows[i]
    ensures forall i :: 0 <= i < |rows| && rows[i].id == id ==>
              r[i].returnedAt == Some(now) && r[i].(returnedAt := rows[i].returnedAt) == rows[i]
  {
    Map(rows, StampAt(id, now))
  }

  /** Stamping leaves no unreturned row with the id and keeps every copy of the other rows. */
  lemma StampedCount(rows: seq<Assignment>, id: int, now: int, a: Assignment)
    requires a.returnedAt.None?
    ensures multiset(StampReturned(rows, id, now))[a] == if a.id == id then 0 else multiset(rows)[a]
  {
    var after := StampReturned(rows, id, now);
    if a.id == id {
      assert a !in after;
    } else {
      MapFixedCount(rows, StampAt(id, now), a);
    }
  }

  /**
   * Returning an assignment takes it, and nothing else, off the active list:
   * afterwards the list holds the old list's rows without those of that id.
   */
  lemma ReturnLeavesActiveList(rows: seq<Assignment>, scope: Scope, id: int, now: int)
    ensures forall a :: a in ActiveAssignments(StampReturned(rows, id, now), scope) <==>
                        a in ActiveAssignments(rows, scope) && a.id != id
  {
    var after := StampReturned(rows, id, now);
    forall a
      ensures a in after && a.returnedAt.None? <==> a in rows && a.returnedAt.None? && a.id != id
    {
      if a in after && a.returnedAt.None? {
        var i :| 0 <= i < |after| && after[i] == a;
        assert rows[i].id != id;
      }
      if a in rows && a.id != id {
        var i :| 0 <= i < |rows| && rows[i] == a;
        assert after[i] == a;
      }
    }
  }

  /**
   * Counted with multiplicity: after the return, the active list holds no
   * row of that id and every other row exactly as often as before.
   */
  lemma ReturnLeavesActiveCounts(rows: seq<Assignment>, scope: Scope, id: int, now: int, a: Assignment)
    ensures multiset(ActiveAssignments(StampReturned(rows, id, now), scope))[a] ==
            if a.id == id then 0 else multiset(ActiveAssignments(rows, scope))[a]
  {
    var after := StampReturned(rows, id, now);
    FilterMultiplicity(after, Active(scope));
    FilterMultiplicity(rows, Active(scope));
    if a.returnedAt.None? {
      StampedCount(rows, id, now, a);
    }
  }

  /** The assignments table of the store, with the screen's mutation on it. */
  class AssignmentsTable {
    var rows: seq<Assignment>

    constructor(rows: seq<Assignment>)
      ensures this.rows == rows
    {
      this.rows := rows;
    }

    /**
     * `returnAsset.mutate(assignmentId)`: the update at `now`, then on
     * success a toast and three invalidations, or on a store error (its
     * message in `storeError`) the error toast and nothing else.
     */
    method ReturnAsset(client: QueryClient, assignmentId: int, now: int, storeError: Option<string>)
      returns (toast: Toast)
      modifies this, client
      ensures storeError.None? ==>
                rows == StampReturned(old(rows), assignmentId, now) &&
                client.invalidated == old(client.invalidated) + [["asset-assignments"], ["itam-stats"], ["assets"]] &&
                toast == Success("Asset returned successfully")
      ensures storeError.None? ==>
                forall rest: seq<string> :: client.Stale(["assets"] + rest) && client.Stale(["itam-stats"] + rest) &&
                                            client.Stale(["asset-assignments"] + rest)
      ensures storeError.Some? ==>
                rows == old(rows) && client.invalidated == old(client.invalidated) &&
                toast == Failure("Failed to return asset: " + storeError.value)
    {
      if storeError.Some? {
        return Failure("Failed to return asset: " + storeError.value);
      }
      rows := StampReturned(rows, assignmentId, now);
      toast := Success("Asset returned successfully");
      client.Invalidate(["asset-assignments"]);
      client.Invalidate(["itam-stats"]);
      client.Invalidate(["assets"]);
      forall rest: seq<string>
        ensures client.Stale(["assets"] + rest) && client.Stale(["itam-stats"] + rest) &&
                client.Stale(["asset-assignments"] + rest)
      {
        var n := |client.invalidated|;
        assert PrefixOf(client.invalidated[n - 1], ["assets"] + rest);
        assert PrefixOf(client.invalidated[n - 2], ["itam-stats"] + rest);
        assert PrefixOf(client.invalidated[n - 3], ["asset-assignments"] + rest);
      }
    }
  }
}
