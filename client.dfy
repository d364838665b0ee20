/** The client (`IocasteClient`): an append-only list of the queries it has
    created, invalidation by key hash, and a factory for mutations. */
module Client {
  import opened JsValues
  import Mutation

  /** A created query. Its implementation is not part of this model; what the
      client relies on is its key and its `refetch`, counted here. */
  class Query {
    const key: QueryKey
    var refetchCount: nat

    constructor (key: QueryKey)
      ensures this.key == key && refetchCount == 0
    {
      this.key := key;
      refetchCount := 0;
    }

    method Refetch()
      modifies this
      ensures refetchCount == old(refetchCount) + 1
    {
      refetchCount := refetchCount + 1;
    }
  }

  /** Index of the first query, in list order, whose key hashes to `h`. */
  function FirstMatch(queries: seq<Query>, h: string, hash: QueryKey -> string): (r: Option<nat>)
    ensures r.Some? ==> r.value < |queries| && hash(queries[r.value].key) == h
    ensures r.Some? ==> forall j :: 0 <= j < r.value ==> hash(queries[j].key) != h
    ensures r.None? ==> forall j :: 0 <= j < |queries| ==> hash(queries[j].key) != h
  {
    if queries == [] then None
    else if hash(queries[0].key) == h then Some(0)
    else match FirstMatch(queries[1..], h, hash)
      case Some(i) => Some(i + 1)
      case None => None
  }

  /** `IocasteClient`. */
  class IocasteClient {
    var queries: seq<Query>

    constructor ()
      ensures queries == []
    {
      queries := [];
    }

    /** The `find` in `invalidateQueries`: a linear scan in insertion order
        for the first query whose key hash equals that of `key`. */
    method FindQuery(key: QueryKey, hash: QueryKey -> string) returns (found: Option<nat>)
      ensures found == FirstMatch(queries, hash(key), hash)
    {
      var h := hash(key);
      var i := 0;
      while i < |queries|
        invariant 0 <= i <= |queries|
        invariant forall j :: 0 <= j < i ==> hash(queries[j].key) != h
      {
        if hash(queries[i].key) == h {
          return Some(i);
        }
        i := i + 1;
      }
      return None;
    }

    /** `invalidateQueries`: refetch the first matching query, and only it;
        with no match, do nothing. The list itself never changes. */
    method InvalidateQueries(key: QueryKey, hash: QueryKey -> string)
      modifies queries
      ensures queries == old(queries)
      ensures match FirstMatch(queries, hash(key), hash)
        case Some(i) =>
          && queries[i].refetchCount == old(queries[i].refetchCount) + 1
          && forall q :: q in queries && q != queries[i] ==> q.refetchCount == old(q.refetchCount)
        case None =>
          forall q :: q in queries ==> q.refetchCount == old(q.refetchCount)
    {
      var found := FindQuery(key, hash);
      if found.Some? {
        queries[found.value].Refetch();
      }
    }

    /** `createMutation`: a fresh mutation in its initial state; the query
        list is untouched. */
    method CreateMutation(options: Mutation.MutationOptions) returns (m: Mutation.IocasteMutation)
      ensures fresh(m) && m.options == options && m.State() == Mutation.InitialMutationState
      ensures m.resolverInputs == [] && m.outstanding == 0
      ensures queries == old(queries)
    {
      m := new Mutation.IocasteMutation(options);
    }

    /** `createQuery`: append exactly one new query to the end of the list
        and return it; earlier entries keep their place. */
    method CreateQuery(key: QueryKey) returns (q: Query)
      modifies this
      ensures fresh(q) && q.key == key && q.refetchCount == 0
      ensures queries == old(queries) + [q]
    {
      q := new Query(key);
      queries := queries + [q];
    }
  }
}
