/** The in-process backend of the cache service (services/cache.py): a
    dictionary from key to `{data, expires_at}` with lazy expiry on read, a
    default time-to-live, substring invalidation, clear, and get-or-set.
    The clock is the explicit parameter `now`, in seconds. */
module Cache {
  import opened Common

  datatype CacheEntry<V> = CacheEntry(data: V, expiresAt: real)

  /** One hour, the service's default time-to-live. */
  const DefaultTtl: int := 3600

  /** `ttl or self.cache_ttl`: a missing or zero ttl falls back to the default. */
  function EffectiveTtl(ttl: Option<int>, fallback: int): (t: int)
    ensures ttl.None? || ttl.value == 0 ==> t == fallback
    ensures ttl.Some? && ttl.value != 0 ==> t == ttl.value
  {
    if ttl.Some? && ttl.value != 0 then ttl.value else fallback
  }

  /** What `get_or_set` is handed to produce a value on a miss: a plain value,
      or a callable (sync or async) whose call would return `result`. */
  datatype Producer<V> = Plain(value: V) | Callable(result: V)

  /** The message of the exception `get_or_set` raises when it reaches the
      `asyncio` name, which the module never imports. */
  const AsyncioNameError: string := "name 'asyncio' is not defined"

  class CacheService<V> {
    var memoryCache: map<string, CacheEntry<V>>
    const cacheTtl: int

    constructor ()
      ensures memoryCache == map[] && cacheTtl == DefaultTtl
    {
      memoryCache := map[];
      cacheTtl := DefaultTtl;
    }

    /** A live entry (read strictly before its expiry) is returned; an
        expired one is deleted and reads as absent; an absent key changes
        nothing. */
    method Get(key: string, now: real) returns (r: Option<V>)
      modifies this
      ensures key !in old(memoryCache) ==> r.None? && memoryCache == old(memoryCache)
      ensures key in old(memoryCache) && now < old(memoryCache)[key].expiresAt ==>
                r == Some(old(memoryCache)[key].data) && memoryCache == old(memoryCache)
      ensures key in old(memoryCache) && now >= old(memoryCache)[key].expiresAt ==>
                r.None? && memoryCache == old(memoryCache) - {key}
    {
      r := None;
      if key in memoryCache {
        var item := memoryCache[key];
        if now < item.expiresAt {
          r := Some(item.data);
        } else {
          memoryCache := memoryCache - {key};
        }
      }
    }

    /** Stores `data` under `key` until `now` plus the effective ttl,
        replacing any previous entry for the key and no other; always succeeds. */
    method Set(key: string, data: V, ttl: Option<int>, now: real) returns (ok: bool)
      modifies this
      ensures ok
      ensures memoryCache == old(memoryCache)[key := CacheEntry(data, now + EffectiveTtl(ttl, cacheTtl) as real)]
    {
      var t := if ttl.Some? && ttl.value != 0 then ttl.value else cacheTtl;
      memoryCache := memoryCache[key := CacheEntry(data, now + t as real)];
      ok := true;
    }

    /** The source's get-or-set. A hit returns the cached value and ignores
        the producer; a miss with a plain value stores and returns it; a miss
        with a callable raises, because the `asyncio` name it consults is not
        defined in the module (the expired entry the read found is already
        gone by then). */
    method GetOrSetAsWritten(key: string, producer: Producer<V>, ttl: Option<int>, now: real)
      returns (r: Outcome<V>)
      modifies this
      ensures key in old(memoryCache) && now < old(memoryCache)[key].expiresAt ==>
                r == Returned(old(memoryCache)[key].data) && memoryCache == old(memoryCache)
      ensures !(key in old(memoryCache) && now < old(memoryCache)[key].expiresAt) ==>
                match producer
                case Plain(v) =>
                  r == Returned(v) &&
                  memoryCache == old(memoryCache)[key := CacheEntry(v, now + EffectiveTtl(ttl, cacheTtl) as real)]
                case Callable(_) =>
                  r == Raised(AsyncioNameError) && memoryCache == old(memoryCache) - {key}
    {
      var cached := Get(key, now);
      if cached.Some? {
        return Returned(cached.value);
      }
      match producer
      case Callable(_) =>
        r := Raised(AsyncioNameError);
      case Plain(v) =>
        var _ := Set(key, v, ttl, now);
        r := Returned(v);
    }

    /** Get-or-set as evidently intended: on a miss a callable is called and
        its result stored and returned, just as a plain value is. */
    method GetOrSet(key: string, producer: Producer<V>, ttl: Option<int>, now: real) returns (r: V)
      modifies this
      ensures key in old(memoryCache) && now < old(memoryCache)[key].expiresAt ==>
                r == old(memoryCache)[key].data && memoryCache == old(memoryCache)
      ensures !(key in old(memoryCache) && now < old(memoryCache)[key].expiresAt) ==>
                r == (if producer.Plain? then producer.value else producer.result) &&
                memoryCache == old(memoryCache)[key := CacheEntry(r, now + EffectiveTtl(ttl, cacheTtl) as real)]
    {
      var cached := Get(key, now);
      if cached.Some? {
        return cached.value;
      }
      r := if producer.Plain? then producer.value else producer.result;
      var _ := Set(key, r, ttl, now);
    }

    /** Deletes exactly the keys that contain `pattern` as a literal
        substring (no glob syntax); every other entry is kept as it was. */
    method Invalidate(pattern: string) returns (ok: bool)
      modifies this
      ensures ok
      ensures forall k :: k in memoryCache <==> k in old(memoryCache) && !Contains(k, pattern)
      ensures forall k :: k in memoryCache ==> memoryCache[k] == old(memoryCache)[k]
    {
      var keysToDelete := set k | k in memoryCache.Keys && Contains(k, pattern);
      ghost var doomed := keysToDelete;
      while keysToDelete != {}
        invariant keysToDelete <= doomed
        invariant memoryCache == old(memoryCache) - (doomed - keysToDelete)
        decreases keysToDelete
      {
        var k :| k in keysToDelete;
        memoryCache := memoryCache - {k};
        keysToDelete := keysToDelete - {k};
      }
      ok := true;
    }

    /** Empties the cache; always succeeds. */
    method ClearAll() returns (ok: bool)
      modifies this
      ensures ok && memoryCache == map[]
    {
      memoryCache := map[];
      ok := true;
    }
  }

  /** A key without a `*` never contains the pattern "key*", so invalidating
      with "key*" deletes nothing from a cache whose keys have no `*`. */
  lemma StarPatternIsLiteral(k: string)
    requires '*' !in k
    ensures !Contains(k, "key*")
  {
    if Contains(k, "key*") {
      ContainsChar(k, "key*", '*');
    }
  }

  // ---------------------------------------------------------------------------
  // Clients: what a caller can conclude from the contracts alone
  // ---------------------------------------------------------------------------

  /** A value set with a non-zero ttl is read back at any time strictly
      before its expiry. */
  method SetThenGet<V>(c: CacheService<V>, key: string, v: V, ttl: int, now: real, later: real)
    returns (r: Option<V>)
    requires ttl != 0 && later < now + ttl as real
    modifies c
    ensures r == Some(v)
  {
    var _ := c.Set(key, v, Some(ttl), now);
    r := c.Get(key, later);
  }

  /** Once the expiry time is reached the entry reads as absent and is gone. */
  method SetThenGetExpired<V>(c: CacheService<V>, key: string, v: V, ttl: int, now: real, later: real)
    returns (r: Option<V>)
    requires ttl != 0 && later >= now + ttl as real
    modifies c
    ensures r.None? && key !in c.memoryCache
  {
    var _ := c.Set(key, v, Some(ttl), now);
    r := c.Get(key, later);
  }

  /** On an empty cache, get-or-set with a callable raises instead of
      producing a value. */
  method GetOrSetCallableOnEmpty<V>(key: string, result: V, now: real) returns (r: Outcome<V>)
    ensures r == Raised(AsyncioNameError)
  {
    var c := new CacheService<V>();
    r := c.GetOrSetAsWritten(key, Callable(result), Some(60), now);
  }

  /** With the intended get-or-set, a second call within the ttl returns the
      first call's value and does not use the second producer. */
  method GetOrSetTwice<V>(key: string, first: V, second: V, now: real, later: real) returns (r1: V, r2: V)
    requires now <= later < now + 60.0
    ensures r1 == first && r2 == first
  {
    var c := new CacheService<V>();
    r1 := c.GetOrSet(key, Callable(first), Some(60), now);
    r2 := c.GetOrSet(key, Callable(second), Some(60), later);
  }

  /** Invalidating with "key*" keeps the entries "key1", "key2" and
      "other_key": the pattern is matched literally. */
  method InvalidateStarKeepsKeys<V>(a: V, b: V, d: V, now: real) returns (ok: bool)
    ensures ok
  {
    var c := new CacheService<V>();
    var _ := c.Set("key1", a, Some(60), now);
    var _ := c.Set("key2", b, Some(60), now);
    var _ := c.Set("other_key", d, Some(60), now);
    assert "key1" in c.memoryCache && "key2" in c.memoryCache && "other_key" in c.memoryCache;
    var _ := c.Invalidate("key*");
    assert "key1" in c.memoryCache by {
      StarPatternIsLiteral("key1");
    }
    assert "key2" in c.memoryCache by {
      StarPatternIsLiteral("key2");
    }
    assert "other_key" in c.memoryCache by {
      StarPatternIsLiteral("other_key");
    }
    ok := "key1" in c.memoryCache && "key2" in c.memoryCache && "other_key" in c.memoryCache;
  }
}
