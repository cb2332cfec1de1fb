/**
 * The client-side response cache of the news service
 * (frontend/src/services/newsService.ts): a map from keys to timestamped
 * entries that expire after 30 seconds, read through by `getNews` and
 * `getStats` and emptied by `deleteNews` and `fetchNews`.
 *
 * Times are the milliseconds `Date.now()` returns, passed in. Response bodies
 * are opaque values of type `D`; a request's outcome is an oracle parameter,
 * None when the request failed.
 */
module NewsCache {
  import opened Wrappers

  /** `CACHE_DURATION`: 30 seconds. */
  const CacheDuration: int := 30 * 1000

  /** `CacheItem`. */
  datatype CacheItem<D> = CacheItem(data: D, timestamp: int, key: string)

  /** What `get` would return for `key` at time `now`: a stored entry not older than 30 s. */
  function Lookup<D>(entries: map<string, CacheItem<D>>, key: string, now: int): (r: Option<D>)
  {
    if key in entries && now - entries[key].timestamp <= CacheDuration then Some(entries[key].data) else None
  }

  /** The entries after `get` at `now`: an expired entry for `key` is deleted. */
  function Evict<D>(entries: map<string, CacheItem<D>>, key: string, now: int): (r: map<string, CacheItem<D>>)
  {
    if key in entries && now - entries[key].timestamp > CacheDuration then entries - {key} else entries
  }

  /**
   * `get` misses an absent key; an entry at most 30 s old is returned as
   * stored and kept; an older one misses and is removed; other keys are never
   * touched.
   */
  lemma LookupFacts<D>(entries: map<string, CacheItem<D>>, key: string, now: int)
    ensures key !in entries ==> Lookup(entries, key, now).None? && Evict(entries, key, now) == entries
    ensures key in entries && now - entries[key].timestamp <= CacheDuration ==>
      Lookup(entries, key, now) == Some(entries[key].data) && Evict(entries, key, now) == entries
    ensures key in entries && now - entries[key].timestamp > CacheDuration ==>
      Lookup(entries, key, now).None? && key !in Evict(entries, key, now)
    ensures forall k :: k != key ==> (k in Evict(entries, key, now) <==> k in entries)
    ensures forall k :: k != key && k in entries ==> Evict(entries, key, now)[k] == entries[k]
  {
  }

  /** A value set at `t` is what `get` returns for the next 30 s, and other keys read as before. */
  lemma SetThenLookup<D>(entries: map<string, CacheItem<D>>, key: string, data: D, t: int, now: int, other: string)
    requires other != key
    ensures now - t <= CacheDuration ==> Lookup(entries[key := CacheItem(data, t, key)], key, now) == Some(data)
    ensures now - t > CacheDuration ==> Lookup(entries[key := CacheItem(data, t, key)], key, now).None?
    ensures Lookup(entries[key := CacheItem(data, t, key)], other, now) == Lookup(entries, other, now)
  {
  }

  /** `ApiCache`. */
  class ApiCache<D> {
    var entries: map<string, CacheItem<D>>

    /** Every entry is stored under its own key. */
    ghost predicate Valid()
      reads this
    {
      forall k :: k in entries ==> entries[k].key == k
    }

    constructor ()
      ensures Valid() && entries == map[]
    {
      entries := map[];
    }

    /** `get`. */
    method Get(key: string, now: int) returns (r: Option<D>)
      requires Valid()
      modifies this
      ensures Valid()
      ensures r == Lookup(old(entries), key, now) && entries == Evict(old(entries), key, now)
    {
      if key !in entries {
        return None;
      }
      var item := entries[key];
      if now - item.timestamp > CacheDuration {
        entries := entries - {key};
        return None;
      }
      return Some(item.data);
    }

    /** `set`: the key now holds the data, stamped `now`; other keys are unchanged. */
    method Set(key: string, data: D, now: int)
      requires Valid()
      modifies this
      ensures Valid()
      ensures entries == old(entries)[key := CacheItem(data, now, key)]
    {
      entries := entries[key := CacheItem(data, now, key)];
    }

    /** `clear`. */
    method Clear()
      modifies this
      ensures Valid() && entries == map[]
    {
      entries := map[];
    }
  }

  /**
   * The read-through step of `getNews` and `getStats`: a hit is returned
   * without a request; on a miss the request is made once and, when it
   * succeeds, its body is cached under the key and returned.
   */
  method ReadThrough<D>(cache: ApiCache<D>, key: string, now: int, response: Option<D>)
    returns (r: Option<D>, requested: bool)
    requires cache.Valid()
    modifies cache
    ensures cache.Valid()
    ensures requested <==> Lookup(old(cache.entries), key, now).None?
    ensures !requested ==> r == Lookup(old(cache.entries), key, now) && cache.entries == old(cache.entries)
    ensures requested ==> r == response
    ensures requested && response.Some? ==> cache.entries == old(cache.entries)[key := CacheItem(response.value, now, key)]
    ensures requested && response.None? ==> cache.entries == Evict(old(cache.entries), key, now)
  {
    LookupFacts(cache.entries, key, now);
    var cached := cache.Get(key, now);
    if cached.Some? {
      return cached, false;
    }
    requested := true;
    if response.None? {
      return None, requested;
    }
    cache.Set(key, response.value, now);
    r := response;
  }

  /** The key `getNews` caches under: `"news_"` and the `JSON.stringify` text of its parameters. */
  function NewsKey(paramsJson: string): (k: string)
  {
    "news_" + paramsJson
  }

  const StatsKey: string := "stats"

  /** The two read-through keys never collide: a news key starts with "news_". */
  lemma KeysDistinct(paramsJson: string)
    ensures NewsKey(paramsJson) != StatsKey
    ensures NewsKey(paramsJson)[..5] == "news_"
  {
    assert |NewsKey(paramsJson)| >= 5;
    assert NewsKey(paramsJson)[0] == 'n' != StatsKey[0];
  }

  /** `getNews`. */
  method GetNews<D>(cache: ApiCache<D>, paramsJson: string, now: int, response: Option<D>)
    returns (r: Option<D>, requested: bool)
    requires cache.Valid()
    modifies cache
    ensures cache.Valid()
    ensures requested <==> Lookup(old(cache.entries), NewsKey(paramsJson), now).None?
    ensures !requested ==> r == Lookup(old(cache.entries), NewsKey(paramsJson), now) && cache.entries == old(cache.entries)
    ensures requested ==> r == response
    ensures requested && response.Some? ==>
      cache.entries == old(cache.entries)[NewsKey(paramsJson) := CacheItem(response.value, now, NewsKey(paramsJson))]
  {
    r, requested := ReadThrough(cache, NewsKey(paramsJson), now, response);
  }

  /** `getStats`. */
  method GetStats<D>(cache: ApiCache<D>, now: int, response: Option<D>)
    returns (r: Option<D>, requested: bool)
    requires cache.Valid()
    modifies cache
    ensures cache.Valid()
    ensures requested <==> Lookup(old(cache.entries), StatsKey, now).None?
    ensures !requested ==> r == Lookup(old(cache.entries), StatsKey, now) && cache.entries == old(cache.entries)
    ensures requested ==> r == response
    ensures requested && response.Some? ==>
      cache.entries == old(cache.entries)[StatsKey := CacheItem(response.value, now, StatsKey)]
  {
    r, requested := ReadThrough(cache, StatsKey, now, response);
  }

  /**
   * `deleteNews` and `fetchNews`: once the request succeeds every entry is
   * dropped; when it fails (the call throws first) the cache is untouched.
   */
  method InvalidateAfter<D>(cache: ApiCache<D>, succeeded: bool)
    requires cache.Valid()
    modifies cache
    ensures cache.Valid()
    ensures succeeded ==> cache.entries == map[]
    ensures !succeeded ==> cache.entries == old(cache.entries)
  {
    if succeeded {
      cache.Clear();
    }
  }
}
