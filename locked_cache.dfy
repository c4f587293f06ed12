/**
  The lock-guarded expiring cache of the secondary service tree: `put`, `remove` and
  `clear` mutate only when `tryLock(1000 ms)` succeeds and are silently skipped
  otherwise. The outcome of `tryLock` (including an interrupted wait) is the
  `locked` argument of each call.
*/
module LockedCache {
  import opened Wrappers
  import opened CacheEntries

  class CacheService<V> {
    var cache: CacheMap<V>

    constructor ()
      ensures cache == map[]
    {
      cache := map[];
    }

    /** `put(key, value)`: the default time-to-live of five minutes. */
    method Put(key: string, value: V, now: int, locked: bool)
      modifies this
      ensures cache == if locked then old(cache)[key := CacheEntry(value, now + DEFAULT_EXPIRATION)]
                       else old(cache)
    {
      PutWithExpiration(key, value, DEFAULT_EXPIRATION, now, locked);
    }

    /** `put(key, value, expirationMs)`: under the lock, replaces any entry for `key`; else a no-op. */
    method PutWithExpiration(key: string, value: V, expirationMs: int, now: int, locked: bool)
      modifies this
      ensures locked ==> cache == old(cache)[key := CacheEntry(value, now + expirationMs)]
      ensures !locked ==> cache == old(cache)
    {
      if locked {
        var expirationTime := now + expirationMs;
        cache := cache[key := CacheEntry(value, expirationTime)];
      }
    }

    /**
      `get(key)`: the live value, or absent. An expired entry is handed to `remove`,
      which deletes that key only if it obtains the lock.
    */
    method Get(key: string, now: int, locked: bool) returns (r: Option<V>)
      modifies this
      ensures r == Lookup(old(cache), key, now)
      ensures key !in old(cache) ==> r == None && cache == old(cache)
      ensures key in old(cache) && old(cache)[key].IsExpired(now) ==>
                r == None && cache == (if locked then old(cache) - {key} else old(cache))
      ensures key in old(cache) && !old(cache)[key].IsExpired(now) ==>
                r == Some(old(cache)[key].value) && cache == old(cache)
    {
      if key !in cache {
        return None;
      }
      var entry := cache[key];
      if entry.IsExpired(now) {
        Remove(key, locked);
        return None;
      }
      r := Some(entry.value);
    }

    /** `contains(key)`: true exactly when `get(key)` would answer, with the same side effect. */
    method Contains(key: string, now: int, locked: bool) returns (b: bool)
      modifies this
      ensures b == Lookup(old(cache), key, now).Some?
      ensures cache == if locked then EvictIfExpired(old(cache), key, now) else old(cache)
    {
      if key !in cache {
        return false;
      }
      var entry := cache[key];
      if entry.IsExpired(now) {
        Remove(key, locked);
        return false;
      }
      b := true;
    }

    /** `remove(key)`: under the lock deletes `key` only; else a no-op. */
    method Remove(key: string, locked: bool)
      modifies this
      ensures cache == if locked then old(cache) - {key} else old(cache)
    {
      if locked {
        cache := cache - {key};
      }
    }

    /** `clear()`: under the lock deletes every entry; else a no-op. */
    method Clear(locked: bool)
      modifies this
      ensures cache == if locked then map[] else old(cache)
    {
      if locked {
        cache := map[];
      }
    }
  }

  /**
    A read whose removal was skipped for want of the lock answers exactly as one whose
    removal went through, at that instant and at every later one.
  */
  method SkippedRemovalIsHarmless<V>(c: CacheService<V>, key: string, now: int, locked: bool, t: int, lockedLater: bool)
    returns (first: Option<V>, later: Option<V>)
    requires now <= t
    modifies c
    ensures first == Lookup(old(c.cache), key, now)
    ensures later == Lookup(old(c.cache), key, t)
  {
    first := c.Get(key, now, locked);
    EvictionUnobservable(old(c.cache), key, now, key, t);
    later := c.Get(key, t, lockedLater);
  }
}
