# iocaste-query, modelled in Dafny

A model of the core of iocaste-query, a small Svelte data-fetching library. It covers four sequential pieces:

- **Query cache entry** (`IocasteQueryCacheClass`, module `QueryCache`). An entry has three fields: `isLoading`, `data` and `error`. A run sets `isLoading`, awaits the internal run resolver, then copies the resolver's `{ data, error }` record into the fields and clears `isLoading`. A run is triggered on mount (if `refetchOnMount` is set), on a visibility change (if the page is visible and `refetchOnWindowFocus` is set) and by `refetch`. The `await` splits each run into `BeginRun` and `CompleteRun`. A ghost history of these half-runs lets the model state what overlapping runs do. Nothing cancels a run. The last result to arrive wins. Every arrival clears `isLoading`, even while another run is still outstanding.
- **Mutation command object** (`IocasteMutationClass`, module `Mutation`). The internal resolver wraps the mutation function's outcome into a `{ data, error }` record. `mutate` sets `isLoading`, awaits that record, and assigns `data` or `error` only when the record's field is truthy. A success therefore never clears an earlier error. A failure never clears earlier data. A falsy result such as `0`, `""` or `false` is dropped. `onSuccess` and `onError`, if supplied, are called exactly when their field is assigned.
- **Client query registry** (`IocasteClient`, module `Client`). `createQuery` appends one new query to an append-only list. `invalidateQueries` refetches the first query, in insertion order, whose key hash equals the given key's hash. Otherwise it does nothing.
- **Keyed cache prototype** (`CounterLad`, module `SubClasses`). A shared map from key hash to a store. `getCache` returns the stored entry and refetches it on a hit, and creates and stores a new entry on a miss. A consumer subscribes to its store on construction. The first pass of its key effect only sets `hasMounted`. Every later pass resolves the store again, calls the previous unsubscriber, then subscribes to the resolved store. The model proves each consumer always has exactly one live subscription, across its own key changes and those of other consumers sharing the map.

Shared definitions are in `JsValues`: JavaScript values, the truthiness test, outcomes, the `{ data, error }` record and query keys. The configuration record and its all-true defaults are in `QueryConfig`.

`createQueryKeyHash` is not defined in the source files modelled here. Every operation that hashes therefore takes the hash as a parameter `hash: QueryKey -> string`. It stands for the hash as it evaluates at that moment; key accessors can make it change over time. No property of it is assumed: not injectivity, not a join format.

The query cache has no cancellation, per-key deduplication, `enabled` flag or subscriber fan-out, and neither does the model.

## Model

| member | source | states |
|---|---|---|
| `JsValues.FalsyValues` | src/lib/iocaste-query/iocasteMutation.svelte.ts:84-92 | the values that `if (data)` and `if (error)` skip are exactly undefined, null, false, 0, NaN, 0n and "" |
| `QueryCache.LastCompletion` | src/lib/iocaste-query/iocasteQueryCache.svelte.ts:18-26 | finds the last result arrival in a history of run starts and arrivals: only run starts come after it, and with no arrival every event is a start |
| `QueryCache.LastCompletionWins` | src/lib/iocaste-query/iocasteQueryCache.svelte.ts:18-26 | for any interleaving of overlapping runs, `data` and `error` are exactly the record of the last arrival (replaced, not merged), and `isLoading` holds iff a run began after that arrival; with no arrival, `data` and `error` are untouched |
| `QueryCache.LoadingImpliesOutstanding` | src/lib/iocaste-query/iocasteQueryCache.svelte.ts:18-26 | on any history the `await` can produce from a new entry, `isLoading` implies that some run is still outstanding |
| `QueryCache.OverlappingRuns` | src/lib/iocaste-query/iocasteQueryCache.svelte.ts:18-26 | with two overlapping runs, the first arrival already reports not-loading while one run is still outstanding, and the second arrival overwrites its data and error; no run is cancelled |
| `QueryCache.QueryCacheEntry.constructor` | src/lib/iocaste-query/iocasteQueryCache.svelte.ts:10-41 | a new entry is not loading, its `data` and `error` are undefined, and its history is empty; `config` is fixed from then on |
| `QueryCache.QueryCacheEntry.BeginRun` | src/lib/iocaste-query/iocasteQueryCache.svelte.ts:19-21 | starting a run sets `isLoading` before the await and leaves `data` and `error` untouched |
| `QueryCache.QueryCacheEntry.CompleteRun` | src/lib/iocaste-query/iocasteQueryCache.svelte.ts:21-25 | an arriving result of an outstanding run sets `data` and `error` to exactly its two fields and clears `isLoading` |
| `QueryCache.QueryCacheEntry.Mount` | src/lib/iocaste-query/iocasteQueryCache.svelte.ts:43-47 | the mount effect starts a run iff `refetchOnMount` is set, and changes nothing otherwise |
| `QueryCache.QueryCacheEntry.HandleWindowFocus` | src/lib/iocaste-query/iocasteQueryCache.svelte.ts:28-34 | a visibility change starts a run iff the page is visible and `refetchOnWindowFocus` is set, and changes nothing otherwise |
| `QueryCache.QueryCacheEntry.Refetch` | src/lib/iocaste-query/iocasteQueryCache.svelte.ts:58-60 | `refetch` starts exactly one run, with no condition |
| `Mutation.MutationOptionsOf` | src/lib/iocaste-query/iocasteMutation.svelte.ts:33-37 | `iocasteMutationOptions` returns its argument unchanged |
| `Mutation.RunResolver` | src/lib/iocaste-query/iocasteMutation.svelte.ts:62-76 | a resolved `v` becomes `{ data: v, error: undefined }` and a thrown `e` becomes `{ data: undefined, error: e }`; nothing is rethrown |
| `Mutation.RunResolverConflatesOnlyUndefined` | src/lib/iocaste-query/iocasteMutation.svelte.ts:62-76 | two outcomes give the same record iff they are equal or both carry `undefined`, so the record keeps every distinction except resolve-undefined versus throw-undefined |
| `Mutation.ResolvedUpdatesDataOnlyIfTruthy` | src/lib/iocaste-query/iocasteMutation.svelte.ts:82-94 | after a resolved `v`, `data` is `v` if `v` is truthy and keeps its old value otherwise; `error` is never cleared; `onSuccess(v)`, if supplied, is called iff `data` was assigned; `isLoading` ends false |
| `Mutation.ThrownUpdatesErrorOnlyIfTruthy` | src/lib/iocaste-query/iocasteMutation.svelte.ts:82-94 | after a thrown `e`, `error` is `e` if `e` is truthy and keeps its old value otherwise; `data` is never cleared; `onError(e)`, if supplied, is called iff `error` was assigned; `isLoading` ends false |
| `Mutation.ReplayMutationsData` | src/lib/iocaste-query/iocasteMutation.svelte.ts:80-95 | after a series of mutations, `data` is the last truthy resolved value (or the initial `data`), and `onSuccess` was called with exactly the truthy resolved values, in order |
| `Mutation.ReplayMutationsError` | src/lib/iocaste-query/iocasteMutation.svelte.ts:80-95 | after a series of mutations, `error` is the last truthy thrown value (or the initial `error`), and `onError` was called with exactly the truthy thrown values, in order |
| `Mutation.IocasteMutation.constructor` | src/lib/iocaste-query/iocasteMutation.svelte.ts:50-78 | a new mutation is not loading, its `data` and `error` are undefined, and no callback or resolver call has been made |
| `Mutation.IocasteMutation.BeginMutate` | src/lib/iocaste-query/iocasteMutation.svelte.ts:80-82 | `mutate` sets `isLoading` on entry and calls the mutation function with its input; nothing else changes |
| `Mutation.IocasteMutation.CompleteMutate` | src/lib/iocaste-query/iocasteMutation.svelte.ts:82-95 | after the await, the state is the one the lemmas above describe for the wrapped outcome: truthiness-guarded assignments and callbacks, and `isLoading` cleared for any outcome |
| `Client.Query.Refetch` | src/lib/iocaste-query/iocasteQuery.svelte.ts:48-53 | a query's `refetch` is recorded as exactly one more refetch |
| `Client.FirstMatch` | src/lib/iocaste-query/iocasteClient.svelte.ts:21-24 | gives the first index, in insertion order, whose query key hashes to the given string; it gives none iff no query's key does |
| `Client.IocasteClient.constructor` | src/lib/iocaste-query/iocasteClient.svelte.ts:16-18 | a new client has no queries |
| `Client.IocasteClient.FindQuery` | src/lib/iocaste-query/iocasteClient.svelte.ts:21-24 | the linear `find` scan returns the first match by key hash |
| `Client.IocasteClient.InvalidateQueries` | src/lib/iocaste-query/iocasteClient.svelte.ts:20-29 | refetches the first query whose key hash matches, once, and no other query, even when several share the hash; with no match, nothing changes; the query list never changes |
| `Client.IocasteClient.CreateMutation` | src/lib/iocaste-query/iocasteClient.svelte.ts:31-35 | returns a fresh mutation in its initial state, with no mutation-function call made and none outstanding, and leaves the query list untouched |
| `Client.IocasteClient.CreateQuery` | src/lib/iocaste-query/iocasteClient.svelte.ts:37-49 | appends exactly one fresh query with the given key to the end of the list and returns it; earlier entries and their order are unchanged |
| `SubClasses.CounterLadCache.constructor` | src/routes/reactivity/pain/SubClasses.svelte.ts:9-13 | a new store holds the drawn number and has no subscribers |
| `SubClasses.CounterLadCache.Refetch` | src/routes/reactivity/pain/SubClasses.svelte.ts:15-19 | `refetch` replaces the stored number with the newly drawn one and keeps the subscribers |
| `SubClasses.CacheMap.constructor` | src/routes/reactivity/pain/SubClasses.svelte.ts:85-89 | the shared map starts empty |
| `SubClasses.CounterLad.GetCache` | src/routes/reactivity/pain/SubClasses.svelte.ts:25-40 | on a hit, returns the stored entry and refetches it, with the map unchanged; on a miss, stores a fresh entry under the hash and returns it; afterwards the map holds the hash, every earlier key keeps its entry, and no other store changes |
| `SubClasses.CounterLad.constructor` | src/routes/reactivity/pain/SubClasses.svelte.ts:48-53 | resolves the store for the key (refetching it if already cached) and subscribes to it once; `hasMounted` starts false |
| `SubClasses.CounterLad.KeyEffect` | src/routes/reactivity/pain/SubClasses.svelte.ts:55-75 | the first pass only sets `hasMounted`, with no lookup and no subscription change; every later pass resolves the store for the current hash (refetching on a hit, even for an unchanged hash) and moves the single subscription to it; a store created on a miss has this consumer as its only subscriber; every other store keeps its number; the map only grows; `hasMounted` never goes back to false; other consumers' subscriptions are untouched |
| `SubClasses.CounterLad.Resubscribe` | src/routes/reactivity/pain/SubClasses.svelte.ts:67-73 | calling the previous unsubscriber before subscribing leaves exactly one live subscription, on the current store |
| `SubClasses.SecondConsumerSharesStore` | src/routes/reactivity/pain/SubClasses.svelte.ts:29-53 | a second consumer whose key hashes like the first one's gets the same store and refetches it; the map keeps one entry, and each consumer holds exactly one subscription |
| `SubClasses.KeyChangeKeepsOtherConsumerValid` | src/routes/reactivity/pain/SubClasses.svelte.ts:62-74 | when one of two consumers sharing a store changes to an uncached hash, it ends with one subscription on a new store, and the other consumer keeps its one subscription on the old store, whose number is unchanged |

## Left out

- Svelte runes and their scheduling. The `$effect` bodies are methods that the caller invokes: `QueryCacheEntry.Mount` and `CounterLad.KeyEffect`. Dependency tracking is framework behaviour, including the loop that reads the key's accessors (SubClasses.svelte.ts:56-60). The `$state` mirror `CounterLad.randomNumber` is left out too: the writable store pushes every `set` to it, and that is store internals.
- The writable store itself. A subscription is an entry in the store's `subscribers` multiset. Later values are not delivered to subscribers.
- Context scoping. This covers `createIocasteClient`, `getIocasteClient`, `internalSetCacheContext` and `internalGetCacheContext`. The client and the cache map are passed explicitly.
- DOM access. The `visibilitychange` listener is not added or removed, and `document.hidden` is a parameter.
- `Math.random` and `console.log`. The drawn number is an argument.
- The body of `createQueryKeyHash`. That file is not part of this model, and the hash is a parameter.
- The internals of `IocasteQueryClass`, which the source does not define yet. A query is modelled as its key plus a count of refetches.
- The type-level machinery in iocasteQuery.svelte.ts. This covers `DataTag`, the decorated keys and the declared `iocasteQueryOptions`. It has no runtime behaviour.
- `refetchOnNavigate`. The code reads it nowhere.
- The getter `CounterLad.count`. It returns the constant 0.
- A rejecting internal run resolver. `internalRun` has no try/catch (iocasteQueryCache.svelte.ts:21): the rejection leaves `isLoading` set and `data`/`error` as they were, and reaches `refetch` and `invalidateQueries`. The model shows this only as a `BeginRun` that never gets its `CompleteRun`.
- Promise semantics. Awaited calls are split into begin and complete steps. The query's `refetch` awaited by `invalidateQueries` is counted as one step.
- `Mutation.IocasteMutation.CompleteMutate`: `onSuccess` and `onError` are recorded as calls and assumed not to throw synchronously. A synchronous throw would reject `mutate` and leave `isLoading` set.
- JavaScript numbers are modelled as reals. So there is no Infinity and no floating-point rounding, and `-0` is the same as `0`, which is correct for truthiness.
