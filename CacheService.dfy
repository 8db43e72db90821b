/**
 * The expiring in-memory cache of the rates server: a table from string keys
 * to entries that remember the value and the time it was written, with one
 * time-to-live shared by every entry. Expiry is lazy: `Get` treats an old
 * entry as absent but never removes it; only a later `Set` of the same key
 * replaces it.
 *
 * The wall clock is not modelled: every operation that reads it takes the
 * current time in milliseconds as an explicit `now` argument.
 */
module Cache {

  datatype Option<T> = None | Some(value: T)

  /** What the cache keeps for one key: the value and the time it was stored. */
  datatype Entry<T> = Entry(data: T, timestamp: int)

  /** An entry is fresh while its age is strictly below the time-to-live. */
  predicate Fresh<T>(e: Entry<T>, ttl: int, now: int)
  {
    now - e.timestamp < ttl
  }

  /** The answer of a lookup of `key` at time `now` in the table `m`. */
  function Lookup<T>(m: map<string, Entry<T>>, ttl: int, key: string, now: int): Option<T>
  {
    if key in m && Fresh(m[key], ttl, now) then Some(m[key].data) else None
  }

  /** The table after storing `data` under `key` at time `now`. */
  function Store<T>(m: map<string, Entry<T>>, key: string, data: T, now: int): map<string, Entry<T>>
  {
    m[key := Entry(data, now)]
  }

  class CacheService<T> {
    var cache: map<string, Entry<T>>
    const cacheDuration: int

    /** A new cache is empty and keeps the time-to-live it was given. */
    constructor (cacheDuration: int)
      ensures cache == map[]
      ensures this.cacheDuration == cacheDuration
    {
      cache := map[];
      this.cacheDuration := cacheDuration;
    }

    /**
     * The stored value for `key` if it was written less than `cacheDuration`
     * milliseconds before `now`, and `None` otherwise. Changes nothing.
     */
    method Get(key: string, now: int) returns (r: Option<T>)
      ensures r == Lookup(cache, cacheDuration, key, now)
    {
      if key in cache {
        var cachedItem := cache[key];
        if now - cachedItem.timestamp < cacheDuration {
          return Some(cachedItem.data);
        }
      }
      return None;
    }

    /** Replaces the entry of `key` by `data` stamped with `now`; other keys keep theirs. */
    method Set(key: string, data: T, now: int)
      modifies this
      ensures cache == Store(old(cache), key, data, now)
      ensures key in cache && cache[key] == Entry(data, now)
      ensures forall k :: k in old(cache) && k != key ==> k in cache && cache[k] == old(cache)[k]
      ensures cache.Keys == old(cache).Keys + {key}
    {
      cache := cache[key := Entry(data, now)];
    }
  }

  /** Nothing is found in a freshly built cache, whatever the key and the time. */
  lemma EmptyCacheMisses<T>(ttl: int, key: string, now: int)
    ensures var empty: map<string, Entry<T>> := map[]; Lookup(empty, ttl, key, now) == None
  {
  }

  /** A value stored at `t` is read back unchanged at any `now` with `now - t < ttl`. */
  lemma GetAfterSetWithinTtl<T>(m: map<string, Entry<T>>, ttl: int, key: string, data: T, t: int, now: int)
    requires now - t < ttl
    ensures Lookup(Store(m, key, data, t), ttl, key, now) == Some(data)
  {
  }

  /** A value stored at `t` is no longer returned once `now - t >= ttl`. */
  lemma GetAfterSetExpired<T>(m: map<string, Entry<T>>, ttl: int, key: string, data: T, t: int, now: int)
    requires now - t >= ttl
    ensures Lookup(Store(m, key, data, t), ttl, key, now) == None
  {
  }

  /** Storing under one key does not change what a lookup of another key answers. */
  lemma SetLeavesOtherKeys<T>(m: map<string, Entry<T>>, ttl: int, key: string, data: T, t: int, other: string, now: int)
    requires other != key
    ensures Lookup(Store(m, key, data, t), ttl, other, now) == Lookup(m, ttl, other, now)
  {
  }

  /** With no store in between, a key that reads as absent stays absent at every later time. */
  lemma MissIsPermanent<T>(m: map<string, Entry<T>>, ttl: int, key: string, now: int, later: int)
    requires now <= later
    requires Lookup(m, ttl, key, now) == None
    ensures Lookup(m, ttl, key, later) == None
  {
  }

  /**
   * With a non-positive time-to-live no stored value is ever returned, as long
   * as the clock has not gone backwards since the entries were written.
   */
  lemma NonPositiveTtlNeverHits<T>(m: map<string, Entry<T>>, ttl: int, key: string, now: int)
    requires ttl <= 0
    requires forall k :: k in m ==> m[k].timestamp <= now
    ensures Lookup(m, ttl, key, now) == None
  {
  }
}
