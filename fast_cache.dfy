/**
 * The in-memory TTL cache agent: catalog, enrichment and search caches stamped with
 * the time they were written. An entry is readable while it is younger than the TTL
 * and is evicted only once it is strictly older than the TTL.
 */
module FastCache {
  import opened Wrappers
  import opened JsonData
  import opened Text
  import opened Lists
  import opened CatalogAgent

  /** `self.ttl`: one hour, in seconds. */
  const Ttl: real := 3600.0

  /** A cached value and the timestamp it was stored at. */
  datatype Entry<T> = Entry(data: T, time: real)

  /** `_is_cached_valid`: strictly younger than the TTL. */
  predicate IsCachedValid(cacheTime: real, now: real) {
    now - cacheTime < Ttl
  }

  /** The cached value of `key` if there is one that is still valid at `now`. */
  function Lookup<T>(cache: map<string, Entry<T>>, key: string, now: real): (r: Option<T>)
    ensures r.Some? <==> key in cache && IsCachedValid(cache[key].time, now)
    ensures r.Some? ==> r.value == cache[key].data
  {
    if key in cache && IsCachedValid(cache[key].time, now) then Some(cache[key].data) else None
  }

  /** The entries `clear_expired_cache` keeps: those not strictly older than the TTL. */
  function Prune<T>(cache: map<string, Entry<T>>, now: real): (r: map<string, Entry<T>>)
    ensures forall k :: k in r <==> k in cache && !(now - cache[k].time > Ttl)
    ensures forall k :: k in r ==> r[k] == cache[k]
  {
    map k | k in cache && !(now - cache[k].time > Ttl) :: cache[k]
  }

  /** A stored entry is read back while valid and not after; other keys are unaffected. */
  lemma LookupAfterStore<T>(cache: map<string, Entry<T>>, key: string, data: T, t: real, k: string, now: real)
    ensures k == key ==> Lookup(cache[key := Entry(data, t)], k, now) == (if now - t < Ttl then Some(data) else None)
    ensures k != key ==> Lookup(cache[key := Entry(data, t)], k, now) == Lookup(cache, k, now)
  {
  }

  /** Eviction never changes what a read at the same instant returns. */
  lemma PruneKeepsReads<T>(cache: map<string, Entry<T>>, k: string, now: real)
    ensures Lookup(Prune(cache, now), k, now) == Lookup(cache, k, now)
  {
  }

  /** An entry aged exactly the TTL can no longer be read, yet eviction keeps it. */
  lemma AgedExactlyTtl<T>(cache: map<string, Entry<T>>, k: string, now: real)
    requires k in cache && now - cache[k].time == Ttl
    ensures Lookup(cache, k, now).None?
    ensures k in Prune(cache, now)
  {
  }

  /** `f"catalog_{content_type}"`. */
  function CatalogCacheKey(contentType: string): string {
    "catalog_" + contentType
  }

  /** What `get_cached_catalog` returns: the valid cached list, else `[]`. */
  function CachedCatalog(cache: map<string, Entry<seq<Item>>>, contentType: string, now: real): seq<Item> {
    Lookup(cache, CatalogCacheKey(contentType), now).GetOr([])
  }

  /** After caching `data` for a type, reads of that type return `data` for one hour, then `[]`. */
  lemma CacheThenGet(cache: map<string, Entry<seq<Item>>>, contentType: string, data: seq<Item>, t: real, now: real)
    ensures var c := cache[CatalogCacheKey(contentType) := Entry(data, t)];
      CachedCatalog(c, contentType, now) == if now - t < Ttl then data else []
  {
    LookupAfterStore(cache, CatalogCacheKey(contentType), data, t, CatalogCacheKey(contentType), now);
  }

  /** Different types never share a catalog cache entry. */
  lemma CatalogCacheKeyInjective(a: string, b: string)
    requires CatalogCacheKey(a) == CatalogCacheKey(b)
    ensures a == b
  {
    assert a == CatalogCacheKey(a)[8..] && b == CatalogCacheKey(b)[8..];
  }

  /**
   * The search cache key: the string `_get_cache_key("search", query, limit)` hashes.
   * The MD5 step is left out, so the key is the hash's pre-image.
   */
  function SearchCacheKey(query: string, limit: int): string {
    "search|" + query + "|" + IntToString(limit)
  }

  /** The search cache is keyed on exactly the pair (query, limit). */
  lemma SearchCacheKeyInjective(q1: string, l1: int, q2: string, l2: int)
    requires SearchCacheKey(q1, l1) == SearchCacheKey(q2, l2)
    ensures q1 == q2 && l1 == l2
  {
    var d1, d2 := IntToString(l1), IntToString(l2);
    assert SearchCacheKey(q1, l1) == ("search|" + q1) + ['|'] + d1;
    assert SearchCacheKey(q2, l2) == ("search|" + q2) + ['|'] + d2;
    assert '|' !in d1 by {
      forall k | 0 <= k < |d1| ensures d1[k] != '|' { }
    }
    assert '|' !in d2 by {
      forall k | 0 <= k < |d2| ensures d2[k] != '|' { }
    }
    SplitAtLast("search|" + q1, d1, "search|" + q2, d2, '|');
    assert q1 == ("search|" + q1)[7..] && q2 == ("search|" + q2)[7..];
    IntToStringInjective(l1, l2);
  }

  /** `search_fast`'s test: the lower-cased query is in the lower-cased title or in some lower-cased genre. */
  predicate Matches(item: Item, queryLower: string) {
    Contains(Lower(item.title), queryLower) ||
    exists k :: 0 <= k < |item.genres| && Contains(Lower(item.genres[k]), queryLower)
  }

  /** `Matches` as the filter test. */
  function SearchMatch(queryLower: string): Item -> bool {
    (item: Item) => Matches(item, queryLower)
  }

  /** How many matches `search_fast` collects before its `break`: `limit`, but at least the first one. */
  function SearchQuota(limit: int): nat {
    if limit >= 1 then limit else 1
  }

  /** The external-data skeleton of `get_enriched_with_external_only`. */
  datatype ExternalData = ExternalData(
    malRating: Option<real>, imdbRating: Option<real>, coverImage: Option<string>, sources: seq<string>)

  /** `get_enriched_with_external_only`: the external calls are disabled, so every field is empty. */
  function GetEnrichedWithExternalOnly(title: string, contentType: string): (r: ExternalData)
    ensures r.malRating.None? && r.imdbRating.None? && r.coverImage.None? && r.sources == []
  {
    ExternalData(None, None, None, [])
  }

  class FastCacheAgent {
    var catalogCache: map<string, Entry<seq<Item>>>
    var enrichmentCache: map<string, Entry<Json>>
    var searchCache: map<string, Entry<seq<Item>>>

    constructor ()
      ensures catalogCache == map[] && enrichmentCache == map[] && searchCache == map[]
    {
      catalogCache := map[];
      enrichmentCache := map[];
      searchCache := map[];
    }

    /** `get_cached_catalog`: the valid cached list of that type, else `[]`; nothing is deleted. */
    method GetCachedCatalog(contentType: string, now: real) returns (r: seq<Item>)
      ensures r == CachedCatalog(catalogCache, contentType, now)
    {
      var cacheKey := CatalogCacheKey(contentType);
      if cacheKey in catalogCache {
        var cached := catalogCache[cacheKey];
        if IsCachedValid(cached.time, now) {
          return cached.data;
        }
      }
      return [];
    }

    /** `cache_catalog`: (re)writes the entry of that type, stamped `now`. */
    method CacheCatalog(contentType: string, data: seq<Item>, now: real)
      modifies this
      ensures catalogCache == old(catalogCache)[CatalogCacheKey(contentType) := Entry(data, now)]
      ensures enrichmentCache == old(enrichmentCache) && searchCache == old(searchCache)
    {
      catalogCache := catalogCache[CatalogCacheKey(contentType) := Entry(data, now)];
    }

    /**
     * `search_fast`: a valid cached result for (query, limit) is returned whatever the catalog;
     * otherwise the matches in catalog order, stopping once `limit` are collected, are cached and returned.
     */
    method SearchFast(query: string, catalogData: seq<Item>, limit: int, now: real) returns (results: seq<Item>)
      modifies this
      ensures Lookup(old(searchCache), SearchCacheKey(query, limit), now).Some? ==>
        results == old(searchCache)[SearchCacheKey(query, limit)].data && searchCache == old(searchCache)
      ensures Lookup(old(searchCache), SearchCacheKey(query, limit), now).None? ==>
        results == Take(Filter(catalogData, SearchMatch(Lower(query))), SearchQuota(limit)) &&
        searchCache == old(searchCache)[SearchCacheKey(query, limit) := Entry(results, now)]
      ensures catalogCache == old(catalogCache) && enrichmentCache == old(enrichmentCache)
    {
      var cacheKey := SearchCacheKey(query, limit);
      if cacheKey in searchCache {
        var cached := searchCache[cacheKey];
        if IsCachedValid(cached.time, now) {
          return cached.data;
        }
      }
      results := CollectMatches(catalogData, Lower(query), limit);
      searchCache := searchCache[cacheKey := Entry(results, now)];
    }

    /** The matching loop of `search_fast`, with its `break` once `limit` results are collected. */
    static method CollectMatches(catalogData: seq<Item>, queryLower: string, limit: int) returns (results: seq<Item>)
      ensures results == Take(Filter(catalogData, SearchMatch(queryLower)), SearchQuota(limit))
    {
      var keep := SearchMatch(queryLower);
      results := [];
      var i := 0;
      while i < |catalogData|
        invariant 0 <= i <= |catalogData|
        invariant results == Filter(catalogData[..i], keep)
        invariant |results| < SearchQuota(limit)
      {
        var item := catalogData[i];
        FilterSnoc(catalogData, i, keep);
        if keep(item) {
          results := results + [item];
          if |results| >= limit {
            FilterQuota(catalogData, i + 1, keep, SearchQuota(limit));
            return;
          }
        }
        i := i + 1;
      }
      assert catalogData[..i] == catalogData;
    }

    /** `clear_expired_cache`: every entry strictly older than the TTL is removed from all three caches. */
    method ClearExpiredCache(now: real)
      modifies this
      ensures catalogCache == Prune(old(catalogCache), now)
      ensures enrichmentCache == Prune(old(enrichmentCache), now)
      ensures searchCache == Prune(old(searchCache), now)
    {
      catalogCache := Prune(catalogCache, now);
      enrichmentCache := Prune(enrichmentCache, now);
      searchCache := Prune(searchCache, now);
    }
  }
}
