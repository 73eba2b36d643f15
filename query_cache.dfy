/**
 * The client-side bookkeeping a mutation leaves behind: the query keys it
 * invalidates (react-query's `invalidateQueries`, which marks every cached
 * query whose key starts with the given key) and the toast it raises.
 * Refetching and the cache's contents are not part of this model.
 */
module QueryCache {

  /** A query key, e.g. `["assets", status]`. */
  type QueryKey = seq<string>

  /** A toast notification: a success or an error, with the text it shows. */
  datatype Toast = Success(text: string) | Failure(text: string)

  /** `prefix` is a leading part of `key`: invalidating `prefix` reaches `key`. */
  predicate PrefixOf(prefix: QueryKey, key: QueryKey) {
    |prefix| <= |key| && key[..|prefix|] == prefix
  }

  /** The query cache, as far as mutations touch it. */
  class QueryClient {
    /** The keys passed to `invalidateQueries`, in order. */
    var invalidated: seq<QueryKey>

    constructor()
      ensures invalidated == []
    {
      invalidated := [];
    }

    /** A cached query is stale once some invalidated key is a prefix of its key. */
    predicate Stale(key: QueryKey)
      reads this
    {
      exists i :: 0 <= i < |invalidated| && PrefixOf(invalidated[i], key)
    }

    /** `queryClient.invalidateQueries({ queryKey: key })` */
    method Invalidate(key: QueryKey)
      modifies this
      ensures invalidated == old(invalidated) + [key]
      ensures Stale(key)
      ensures forall k :: old(Stale(k)) ==> Stale(k)
    {
      invalidated := invalidated + [key];
      assert PrefixOf(invalidated[|invalidated| - 1], key);
      forall k | old(Stale(k))
        ensures Stale(k)
      {
        var i :| 0 <= i < |old(invalidated)| && PrefixOf(old(invalidated)[i], k);
        assert invalidated[i] == old(invalidated)[i];
      }
    }
  }
}
