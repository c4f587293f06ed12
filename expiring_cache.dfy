/**
  The lock-free expiring cache of the main service tree: every write and removal
  happens unconditionally, and reads delete the expired entry they find.
*/
module ExpiringCache {
  import opened Wrappers
  import opened CacheEntries

  /** `CacheService`: the shared key to (value, expiration) map. The clock is the `now` argument. */
  class CacheService<V> {
    var cache: CacheMap<V>

    constructor ()
      ensures cache == map[]
    {
      cache := map[];
    }

    /** `put(key, value)`: the default time-to-live of five minutes. */
    method Put(key: string, value: V, now: int)
      modifies this
      ensures cache == old(cache)[key := CacheEntry(value, now + DEFAULT_EXPIRATION)]
    {
      PutWithExpiration(key, value, DEFAULT_EXPIRATION, now);
    }

    /** `put(key, value, expirationMs)`: replaces any earlier entry for `key`. */
    method PutWithExpiration(key: string, value: V, expirationMs: int, now: int)
      modifies this
      ensures cache == old(cache)[key := CacheEntry(value, now + expirationMs)]
    {
      var expirationTime := now + expirationMs;
      cache := cache[key := CacheEntry(value, expirationTime)];
    }

    /** `get(key)`: the live value, or absent; an expired entry is deleted, and nothing else. */
    method Get(key: string, now: int) returns (r: Option<V>)
      modifies this
      ensures r == Lookup(old(cache), key, now)
      ensures key !in old(cache) ==> r == None && cache == old(cache)
      ensures key in old(cache) && old(cache)[key].IsExpired(now) ==>
                r == None && cache == old(cache) - {key}
      ensures key in old(cache) && !old(cache)[key].IsExpired(now) ==>
                r == Some(old(cache)[key].value) && cache == old(cache)
    {
      if key !in cache {
        return None;
      }
      var entry := cache[key];
      if entry.IsExpired(now) {
        cache := cache - {key};
        return None;
      }
      r := Some(entry.value);
    }

    /** `contains(key)`: true exactly when `get(key)` would answer, with the same deletion. */
    method Contains(key: string, now: int) returns (b: bool)
      modifies this
      ensures b == Lookup(old(cache), key, now).Some?
      ensures cache == EvictIfExpired(old(cache), key, now)
    {
      if key !in cache {
        return false;
      }
      var entry := cache[key];
      if entry.IsExpired(now) {
        cache := cache - {key};
        return false;
      }
      b := true;
    }

    /** `remove(key)`: deletes `key` only. */
    method Remove(key: string)
      modifies this
      ensures cache == old(cache) - {key}
    {
      cache := cache - {key};
    }

    /** `clear()`: deletes every entry. */
    method Clear()
      modifies this
      ensures cache == map[]
      ensures forall key, t :: Lookup(cache, key, t) == None
    {
      cache := map[];
    }
  }

  /** `put(k, v)` immediately followed by `get(k)` returns `v` and leaves the new entry in place. */
  method PutThenGet<V>(c: CacheService<V>, key: string, value: V, now: int) returns (r: Option<V>)
    modifies c
    ensures r == Some(value)
    ensures c.cache == old(c.cache)[key := CacheEntry(value, now + DEFAULT_EXPIRATION)]
  {
    c.Put(key, value, now);
    r := c.Get(key, now);
  }
}
