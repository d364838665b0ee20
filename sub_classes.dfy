/** The keyed-cache prototype: a shared map from key hash to a small store
    (`CounterLadCache`), and consumers (`CounterLad`) that get-or-create the
    store for their key, subscribe to it, and on every later pass of their
    key effect resolve the store again and move their one subscription to it.
    A store's subscribers are a multiset of consumers: subscribing twice
    without unsubscribing would show as a count of two. */
module SubClasses {
  import opened JsValues

  /** `CounterLadCache`: a store holding one number, set from a fresh random
      number on construction and replaced on every `refetch`. The random
      number is an argument here. */
  class CounterLadCache {
    var randomNumber: real
    var subscribers: multiset<CounterLad>

    constructor (newValue: real)
      ensures randomNumber == newValue && subscribers == multiset{}
    {
      randomNumber := newValue;
      subscribers := multiset{};
    }

    method Refetch(newValue: real)
      modifies this
      ensures randomNumber == newValue && subscribers == old(subscribers)
    {
      randomNumber := newValue;
    }
  }

  /** The shared cache map, passed explicitly. */
  class CacheMap {
    var entries: map<string, CounterLadCache>

    constructor ()
      ensures entries == map[]
    {
      entries := map[];
    }
  }

  /** `CounterLad`. `unsubscribe` is the store its live subscription is on
      (`null` for `undefined`). */
  class CounterLad {
    const key: QueryKey
    const cacheMap: CacheMap
    var cache: CounterLadCache
    var hasMounted: bool
    var unsubscribe: CounterLadCache?

    /** The consumer's live subscription is on its current store, and it has
        exactly one: one subscription there, none on any other store. */
    ghost predicate Valid()
      reads this, cacheMap, cacheMap.entries.Values
    {
      && cache in cacheMap.entries.Values
      && unsubscribe == cache
      && forall c :: c in cacheMap.entries.Values ==> c.subscribers[this] == if c == cache then 1 else 0
    }

    /** `getCache`: on a hit, refetch the stored entry and return it, the map
        unchanged; on a miss, create an entry, store it under the hash and
        return it. No other entry changes. */
    static method GetCache(cacheMap: CacheMap, key: QueryKey, hash: QueryKey -> string, newValue: real)
      returns (c: CounterLadCache)
      modifies cacheMap, cacheMap.entries.Values
      ensures var h := hash(key);
        && h in cacheMap.entries && cacheMap.entries[h] == c
        && c.randomNumber == newValue
        && (h in old(cacheMap.entries) ==>
              && c == old(cacheMap.entries[h])
              && cacheMap.entries == old(cacheMap.entries)
              && c.subscribers == old(c.subscribers))
        && (h !in old(cacheMap.entries) ==>
              && fresh(c)
              && cacheMap.entries == old(cacheMap.entries)[h := c]
              && c.subscribers == multiset{})
      ensures forall k :: k in old(cacheMap.entries) ==> k in cacheMap.entries && cacheMap.entries[k] == old(cacheMap.entries[k])
      ensures old(cacheMap.entries.Values) <= cacheMap.entries.Values
      ensures forall d :: d in old(cacheMap.entries.Values) && d != c ==>
        d.randomNumber == old(d.randomNumber) && d.subscribers == old(d.subscribers)
    {
      var keyHash := hash(key);
      if keyHash in cacheMap.entries {
        c := cacheMap.entries[keyHash];
        c.Refetch(newValue);
      } else {
        c := new CounterLadCache(newValue);
        cacheMap.entries := cacheMap.entries[keyHash := c];
      }
    }

    /** The constructor: resolve the store for `key` (refetching it if it
        was already cached) and subscribe to it. */
    constructor (key: QueryKey, cacheMap: CacheMap, hash: QueryKey -> string, newValue: real)
      modifies cacheMap, cacheMap.entries.Values
      ensures Valid() && !hasMounted && this.key == key && this.cacheMap == cacheMap
      ensures var h := hash(key);
        && h in cacheMap.entries && cache == cacheMap.entries[h]
        && cache.randomNumber == newValue
        && (h in old(cacheMap.entries) ==>
              && cache == old(cacheMap.entries[h])
              && cacheMap.entries == old(cacheMap.entries)
              && cache.subscribers == old(cacheMap.entries[h].subscribers) + multiset{this})
        && (h !in old(cacheMap.entries) ==>
              && fresh(cache)
              && cacheMap.entries == old(cacheMap.entries)[h := cache]
              && cache.subscribers == multiset{this})
      ensures forall d :: d in old(cacheMap.entries.Values) && d != cache ==>
        d.randomNumber == old(d.randomNumber) && d.subscribers == old(d.subscribers)
    {
      this.key := key;
      this.cacheMap := cacheMap;
      var c := GetCache(cacheMap, key, hash, newValue);
      cache := c;
      hasMounted := false;
      new;
      cache.subscribers := cache.subscribers + multiset{this};
      unsubscribe := cache;
    }

    /** The key effect, one pass; `hash` is the key's hash as evaluated now
        and `newValue` the random number a refetch or construction would
        draw. The first pass only marks the consumer mounted. Every later
        pass resolves the store again (refetching it on a hit, even for an
        unchanged hash), drops the previous subscription and subscribes to
        the resolved store, so one subscription stays live. */
    method KeyEffect(hash: QueryKey -> string, newValue: real)
      requires Valid()
      modifies this, cacheMap, cacheMap.entries.Values
      ensures Valid() && hasMounted
      ensures !old(hasMounted) ==>
        && cache == old(cache)
        && cacheMap.entries == old(cacheMap.entries)
        && forall d :: d in cacheMap.entries.Values ==>
             d.randomNumber == old(d.randomNumber) && d.subscribers == old(d.subscribers)
      ensures old(hasMounted) ==>
        var h := hash(key);
        && h in cacheMap.entries && cache == cacheMap.entries[h]
        && cache.randomNumber == newValue
        && (h in old(cacheMap.entries) ==> cache == old(cacheMap.entries[h]) && cacheMap.entries == old(cacheMap.entries))
        && (h !in old(cacheMap.entries) ==> fresh(cache) && cacheMap.entries == old(cacheMap.entries)[h := cache])
      ensures old(hasMounted) && hash(key) !in old(cacheMap.entries) ==> cache.subscribers == multiset{this}
      ensures old(cacheMap.entries.Values) <= cacheMap.entries.Values
      ensures forall d :: d in old(cacheMap.entries.Values) && d != cache ==> d.randomNumber == old(d.randomNumber)
      ensures forall d, l :: d in old(cacheMap.entries.Values) && l != this ==>
        d.subscribers[l] == old(d.subscribers[l])
    {
      if !hasMounted {
        hasMounted := true;
      } else {
        var c := GetCache(cacheMap, key, hash, newValue);
        cache := c;
        Resubscribe();
      }
    }

    /** The tail of a later effect pass: call the previous unsubscriber, if
        any, then subscribe to the current store. Only this consumer's
        subscription counts change. */
    method Resubscribe()
      requires cache in cacheMap.entries.Values
      requires unsubscribe != null ==> unsubscribe in cacheMap.entries.Values
      requires forall d :: d in cacheMap.entries.Values ==>
        d.subscribers[this] == if d == unsubscribe then 1 else 0
      modifies this, cacheMap.entries.Values
      ensures Valid()
      ensures cache == old(cache) && hasMounted == old(hasMounted)
      ensures forall d :: d in cacheMap.entries.Values ==> d.randomNumber == old(d.randomNumber)
      ensures forall d, l :: d in cacheMap.entries.Values && l != this ==>
        d.subscribers[l] == old(d.subscribers[l])
    {
      if unsubscribe != null {
        unsubscribe.subscribers := unsubscribe.subscribers - multiset{this};
      }
      cache.subscribers := cache.subscribers + multiset{this};
      unsubscribe := cache;
    }
  }

  /** Two consumers whose keys hash alike share one store: the second
      construction refetches it instead of creating another, and both
      consumers keep exactly one live subscription each. */
  method SecondConsumerSharesStore(key1: QueryKey, key2: QueryKey, hash: QueryKey -> string, v1: real, v2: real)
    returns (first: CounterLad, second: CounterLad)
    requires hash(key1) == hash(key2)
    ensures first != second && first.cacheMap == second.cacheMap
    ensures first.cache == second.cache && second.cache.randomNumber == v2
    ensures first.cacheMap.entries == map[hash(key1) := first.cache]
    ensures first.Valid() && second.Valid()
    ensures first.cache.subscribers == multiset{first, second}
  {
    var cacheMap := new CacheMap();
    first := new CounterLad(key1, cacheMap, hash, v1);
    second := new CounterLad(key2, cacheMap, hash, v2);
  }

  /** Two consumers share a map; after the second one's key changes to a hash
      not yet cached, it holds one subscription on a new store, and the first
      consumer still holds its one subscription on the old store, whose
      number is untouched. */
  method KeyChangeKeepsOtherConsumerValid(key1: QueryKey, key2: QueryKey,
                                          hash1: QueryKey -> string, hash2: QueryKey -> string,
                                          v1: real, v2: real, v3: real)
    returns (first: CounterLad, second: CounterLad)
    requires hash1(key1) == hash1(key2) && hash2(key2) != hash1(key1)
    ensures first.cacheMap == second.cacheMap && first.cache != second.cache
    ensures first.Valid() && second.Valid()
    ensures first.cache.randomNumber == v2 && second.cache.randomNumber == v3
    ensures first.cache.subscribers == multiset{first} && second.cache.subscribers == multiset{second}
    ensures first.cacheMap.entries == map[hash1(key1) := first.cache, hash2(key2) := second.cache]
  {
    var cacheMap := new CacheMap();
    first := new CounterLad(key1, cacheMap, hash1, v1);
    second := new CounterLad(key2, cacheMap, hash1, v2);
    second.KeyEffect(hash1, v2);
    second.KeyEffect(hash2, v3);
  }
}
