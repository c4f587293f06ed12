/**
  The entry both cache services store, and the logical reading of a cache map at an
  instant: an entry counts as present until the clock passes its expiration time.
*/
module CacheEntries {
  import opened Wrappers

  /** `DEFAULT_EXPIRATION`: five minutes, in milliseconds. */
  const DEFAULT_EXPIRATION: int := 300000

  /** `CacheEntry`: an immutable value with its absolute expiration instant (epoch ms). */
  datatype CacheEntry<V> = CacheEntry(value: V, expirationTime: int) {
    /** `isExpired()`: strictly after the expiration instant. */
    predicate IsExpired(now: int) {
      now > expirationTime
    }
  }

  type CacheMap<V> = map<string, CacheEntry<V>>

  /** What `get(key)` answers at instant `now`: absent when missing or expired. */
  function Lookup<V>(cache: CacheMap<V>, key: string, now: int): Option<V> {
    if key in cache && !cache[key].IsExpired(now) then Some(cache[key].value) else None
  }

  /** The map after a read at `now` that deletes the expired entry it found under `key`. */
  function EvictIfExpired<V>(cache: CacheMap<V>, key: string, now: int): CacheMap<V> {
    if key in cache && cache[key].IsExpired(now) then cache - {key} else cache
  }

  /** An entry is still live at its expiration instant and gone one millisecond later. */
  lemma ExpiryBoundary<V>(e: CacheEntry<V>)
    ensures !e.IsExpired(e.expirationTime)
    ensures e.IsExpired(e.expirationTime + 1)
  {
  }

  /**
    A value written at `now` with time-to-live `ttl` is read back at every instant up
    to `now + ttl` and never after; the other keys read as before.
  */
  lemma PutThenLookup<V>(cache: CacheMap<V>, key: string, value: V, now: int, ttl: int, t: int)
    ensures Lookup(cache[key := CacheEntry(value, now + ttl)], key, t)
            == if t <= now + ttl then Some(value) else None
    ensures forall other :: other != key ==>
              Lookup(cache[key := CacheEntry(value, now + ttl)], other, t) == Lookup(cache, other, t)
  {
  }

  /**
    Deleting an expired entry on a read is invisible to every later read: whether or
    not the deletion happens, every key reads the same at `now` and afterwards.
  */
  lemma EvictionUnobservable<V>(cache: CacheMap<V>, key: string, now: int, other: string, t: int)
    requires now <= t
    ensures Lookup(EvictIfExpired(cache, key, now), other, t) == Lookup(cache, other, t)
  {
  }

  /** Once expired, an entry stays absent: a read that answers at `t` also answered earlier. */
  lemma LookupMonotone<V>(cache: CacheMap<V>, key: string, earlier: int, t: int)
    requires earlier <= t
    requires Lookup(cache, key, t).Some?
    ensures Lookup(cache, key, earlier) == Lookup(cache, key, t)
  {
  }
}
