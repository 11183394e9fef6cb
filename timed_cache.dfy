/** The relay's timed cache (`getWithCache`): one string-keyed map of
    `{value, timestamp, lifetime}` entries with lazy expiry. An entry is
    usable while `now - timestamp < lifetime`; nothing is ever evicted, an
    expired entry is only overwritten by the next fetch for its key. The
    clock is the parameter `now` (milliseconds); the fetcher's result is
    the parameter `fetched`, used only on a miss. */
module TimedCache {
  import opened Wrappers

  /** Default lifetime of an entry: 60 minutes in milliseconds. */
  const CACHE_LIFETIME: nat := 60 * 60 * 1000

  datatype Entry<V> = Entry(value: V, timestamp: int, lifetime: int)

  type Entries<V> = map<string, Entry<V>>

  /** The lazy expiry test made on every read. */
  predicate IsFresh<V>(e: Entry<V>, now: int) {
    now - e.timestamp < e.lifetime
  }

  /** The stored value for `key`, if there is one and it has not expired. */
  function FreshValue<V>(m: Entries<V>, key: string, now: int): Option<V> {
    if key in m && IsFresh(m[key], now) then Some(m[key].value) else None
  }

  /** `cache.set(key, {value, timestamp: now, lifetime: lifetime ?? CACHE_LIFETIME})`. */
  function Stored<V>(m: Entries<V>, key: string, value: V, lifetime: Option<int>, now: int): Entries<V> {
    m[key := Entry(value, now, lifetime.GetOr(CACHE_LIFETIME))]
  }

  /** What one `getWithCache` call returns, the cache afterwards, and whether it ran the fetcher. */
  datatype Got<V> = Got(value: V, entries: Entries<V>, invoked: bool)

  /** `getWithCache(key, fetcher, lifetime)` at time `now`, where the fetcher yields `fetched`. */
  function CacheGet<V>(m: Entries<V>, key: string, fetched: V, lifetime: Option<int>, now: int): (r: Got<V>)
    // the fetcher runs exactly when there is no unexpired entry
    ensures r.invoked <==> FreshValue(m, key, now).None?
    // on a hit the stored value comes back and the cache is untouched
    ensures !r.invoked ==> r.value == m[key].value && r.entries == m
    // the returned value is always the one the cache now holds for `key`
    ensures key in r.entries && r.entries[key].value == r.value
    // on a miss the fetched value comes back, stamped with `now`
    ensures r.invoked ==> r.value == fetched && r.entries[key] == Entry(fetched, now, lifetime.GetOr(CACHE_LIFETIME))
    // no other key changes and no key disappears
    ensures r.entries.Keys == m.Keys + {key}
    ensures forall k :: k in m && k != key ==> r.entries[k] == m[k]
  {
    match FreshValue(m, key, now)
    case Some(v) => Got(v, m, false)
    case None => Got(fetched, Stored(m, key, fetched, lifetime, now), true)
  }

  /** A second read of a key within the lifetime of the entry the first read stored
      returns the first read's value without running its own fetcher. */
  lemma CacheGetWithinLifetime<V>(m: Entries<V>, key: string, f1: V, f2: V,
                                  lt1: Option<int>, lt2: Option<int>, t1: int, t2: int)
    requires t2 - t1 < lt1.GetOr(CACHE_LIFETIME)
    requires CacheGet(m, key, f1, lt1, t1).invoked
    ensures var first := CacheGet(m, key, f1, lt1, t1);
            CacheGet(first.entries, key, f2, lt2, t2) == Got(f1, first.entries, false)
  {
  }

  /** Once the lifetime of the stored entry has run out, the next read fetches again and
      replaces the entry. */
  lemma CacheGetAfterLifetime<V>(m: Entries<V>, key: string, f1: V, f2: V,
                                 lt1: Option<int>, lt2: Option<int>, t1: int, t2: int)
    requires t2 - t1 >= lt1.GetOr(CACHE_LIFETIME)
    requires CacheGet(m, key, f1, lt1, t1).invoked
    ensures var first := CacheGet(m, key, f1, lt1, t1);
            var second := CacheGet(first.entries, key, f2, lt2, t2);
            second.invoked && second.value == f2 &&
            second.entries == Stored(first.entries, key, f2, lt2, t2)
  {
  }

  /** The module-level cache object. */
  class Cache<V> {
    var entries: Entries<V>

    constructor ()
      ensures entries == map[]
    {
      entries := map[];
    }

    /** `getWithCache` for a fetcher whose result does not depend on the cache. */
    method Get(key: string, fetched: V, lifetime: Option<int>, now: int) returns (value: V, invoked: bool)
      modifies this
      ensures Got(value, entries, invoked) == CacheGet(old(entries), key, fetched, lifetime, now)
    {
      if key in entries {
        var cached := entries[key];
        if now - cached.timestamp < cached.lifetime {
          return cached.value, false;
        }
      }
      Set(key, fetched, lifetime, now);
      return fetched, true;
    }

    /** `cache.set`, stamping the entry with `now`. */
    method Set(key: string, value: V, lifetime: Option<int>, now: int)
      modifies this
      ensures entries == Stored(old(entries), key, value, lifetime, now)
    {
      entries := entries[key := Entry(value, now, lifetime.GetOr(CACHE_LIFETIME))];
    }
  }
}
