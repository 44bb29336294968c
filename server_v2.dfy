/**
 * The v2 server: recommendations from in-memory catalogs through an exclude filter and
 * genre and mood filters that fall back to their input when nothing matches, a count
 * clamp and a shuffle; plus per-user history, watch-later lists and settings held in
 * module-level dictionaries, modelled as the fields of one object.
 */
module ServerV2 {
  import opened Wrappers
  import opened JsonData
  import opened Text
  import opened Lists
  import opened CatalogAgent
  import StaticServer

  /** `ct.lower().replace("-", "_")`. */
  function V2Key(ct: string): string {
    ReplaceChar(Lower(ct), '-', '_')
  }

  /** Lower-casing first or replacing first gives the same key, so v2 finds the catalogs the static server finds. */
  lemma V2KeyCommutes(ct: string)
    ensures V2Key(ct) == StaticServer.CatalogKey(ct)
  {
  }

  /** Startup's copy of one catalog: an item without a (non-empty) content type gets the catalog's name. */
  function WithType(key: string, items: seq<Item>): (r: seq<Item>)
    ensures |r| == |items|
    ensures forall i :: 0 <= i < |items| ==>
      r[i] == if items[i].contentType.None? || items[i].contentType.value == "" then items[i].(contentType := Some(key)) else items[i]
  {
    seq(|items|, i requires 0 <= i < |items| =>
      if items[i].contentType.None? || items[i].contentType.value == "" then items[i].(contentType := Some(key)) else items[i])
  }

  /** `cached_catalogs` as startup leaves it (ratings, cover images and enrichment aside). */
  function StartupCatalogs(cats: map<string, seq<Item>>): map<string, seq<Item>> {
    map k | k in cats :: WithType(k, cats[k])
  }

  /** After startup every cached item has a non-empty content type, and each catalog keeps its items' other fields. */
  lemma StartupTypesFilled(cats: map<string, seq<Item>>, k: string, i: int)
    requires Loaded(cats) && k in cats && 0 <= i < |cats[k]|
    ensures k in StartupCatalogs(cats) && |StartupCatalogs(cats)[k]| == |cats[k]|
    ensures var x := StartupCatalogs(cats)[k][i];
      x.contentType.Some? && x.contentType.value != "" && x.(contentType := cats[k][i].contentType) == cats[k][i]
  {
    assert k in CatalogFiles;
    assert k != "";
  }

  /** The pool: the cached catalogs of the requested types that exist, in request order (repeats included). */
  function V2Pool(cached: map<string, seq<Item>>, types: seq<string>): seq<Item>
    decreases |types|
  {
    if |types| == 0 then []
    else
      var key := V2Key(types[|types| - 1]);
      V2Pool(cached, types[..|types| - 1]) + (if key in cached then cached[key] else [])
  }

  /** `item.get("title", "").lower() not in excluded`. */
  function NotExcluded(excluded: seq<string>): Item -> bool {
    (item: Item) => Lower(item.title) !in excluded
  }

  /** Some requested word equals, case-insensitively, some word the item has. */
  predicate AnyLowerIn(wanted: seq<string>, have: seq<string>) {
    exists k :: 0 <= k < |wanted| && Lower(wanted[k]) in LowerAll(have)
  }

  function GenreHit(genres: seq<string>): Item -> bool {
    (item: Item) => AnyLowerIn(genres, item.genres)
  }

  function MoodHit(moods: seq<string>): Item -> bool {
    (item: Item) => AnyLowerIn(moods, item.mood)
  }

  /** A filter that keeps its input when nothing passes (inactive when nothing is requested). */
  function Fallback(items: seq<Item>, active: bool, keep: Item -> bool): seq<Item> {
    if !active then items
    else
      var filtered := Filter(items, keep);
      if |filtered| > 0 then filtered else items
  }

  /** Falling back never empties a pool, never adds items, and when anything passes only passing items remain. */
  lemma FallbackProperties(items: seq<Item>, active: bool, keep: Item -> bool)
    ensures |items| > 0 ==> |Fallback(items, active, keep)| > 0
    ensures forall x :: x in Fallback(items, active, keep) ==> x in items
    ensures active && (exists x :: x in items && keep(x)) ==> forall x :: x in Fallback(items, active, keep) ==> keep(x)
    ensures active && (forall x :: x in items ==> !keep(x)) ==> Fallback(items, active, keep) == items
  {
    var filtered := Filter(items, keep);
    if active && |filtered| > 0 {
      // A non-empty filter result names a passing item of the pool.
      assert filtered[0] in items && keep(filtered[0]);
    }
  }

  /** The exclude, genre and mood stages of the pipeline, in that order. */
  function V2Filtered(pool: seq<Item>, exclude: Option<seq<string>>, genres: Option<seq<string>>,
                      moods: Option<seq<string>>): seq<Item>
  {
    var ex := exclude.GetOr([]);
    var afterExclude := if |ex| > 0 then Filter(pool, NotExcluded(LowerAll(ex))) else pool;
    var gs, ms := genres.GetOr([]), moods.GetOr([]);
    Fallback(Fallback(afterExclude, |gs| > 0, GenreHit(gs)), |ms| > 0, MoodHit(ms))
  }

  /** Nothing excluded survives, whichever fallbacks fire. */
  lemma ExcludedNeverReturned(pool: seq<Item>, exclude: seq<string>, genres: Option<seq<string>>,
                              moods: Option<seq<string>>, x: Item)
    requires x in V2Filtered(pool, Some(exclude), genres, moods)
    ensures x in pool && Lower(x.title) !in LowerAll(exclude)
  {
    var gs, ms := genres.GetOr([]), moods.GetOr([]);
    var afterExclude := if |exclude| > 0 then Filter(pool, NotExcluded(LowerAll(exclude))) else pool;
    FallbackProperties(afterExclude, |gs| > 0, GenreHit(gs));
    FallbackProperties(Fallback(afterExclude, |gs| > 0, GenreHit(gs)), |ms| > 0, MoodHit(ms));
    if |exclude| > 0 {
      assert x in afterExclude;
    } else {
      assert LowerAll(exclude) == [];
    }
  }

  /** `min(request.count or 15, 50)` as written: `None` and 0 give 15, a negative count stays negative. */
  function CountAsWritten(count: Option<int>): int {
    Min(if count.None? || count.value == 0 then 15 else count.value, 50)
  }

  /** As written, `count = -1` with 60 candidates selects 59 of them, past the cap of 50. */
  lemma NegativeCountOverruns(items: seq<Item>)
    requires |items| == 60
    ensures |PyPrefix(items, CountAsWritten(Some(-1)))| == 59
  {
  }

  /** The clamp as intended: `None` and 0 give 15, and the result lies in 0..50. */
  function ClampedCount(count: Option<int>): (n: nat)
    ensures n <= 50
    ensures count.None? || count.value == 0 ==> n == 15
    ensures count.Some? && 0 < count.value <= 50 ==> n == count.value
    ensures count.Some? && count.value > 50 ==> n == 50
  {
    Max(CountAsWritten(count), 0)
  }

  /** The two agree on every non-negative count. */
  lemma ClampAgreesOnNonNegative(count: Option<int>)
    requires count.None? || count.value >= 0
    ensures ClampedCount(count) == CountAsWritten(count)
  {
  }

  /** One recommendation of the v2 response. */
  datatype V2Recommendation = V2Recommendation(
    recommendationId: string, contentId: string, title: string, contentType: Option<string>,
    genres: seq<string>, mood: seq<string>, rating: real, description: string, rank: nat)

  function FormatV2(batchId: string, i: nat, item: Item): V2Recommendation {
    V2Recommendation(batchId + "_" + NatToString(i), item.id, item.title, item.contentType,
      item.genres, item.mood, item.rating, item.description.GetOr(""), i + 1)
  }

  /** An entry of `user_history`: served by a recommendation, or posted by the client. */
  datatype HistoryEntry =
    | Served(contentId: string, title: string, contentType: Option<string>, timestamp: string)
    | Posted(contentId: string, title: string, contentType: Option<string>, rating: Option<real>,
             notes: Option<string>, timestamp: string)

  /** An entry of `user_watchlater`. */
  datatype WatchLaterEntry = WatchLaterEntry(contentId: string, title: string, contentType: string, addedAt: string)

  /** `d.get(key, [])`. */
  function ListOf<V>(m: map<string, seq<V>>, key: string): seq<V> {
    if key in m then m[key] else []
  }

  /** The history entries a batch of selected items adds. */
  function ServedEntries(items: seq<Item>, now: string): (r: seq<HistoryEntry>)
    ensures |r| == |items|
    ensures forall k :: 0 <= k < |items| ==> r[k] == Served(items[k].id, items[k].title, items[k].contentType, now)
  {
    seq(|items|, k requires 0 <= k < |items| => Served(items[k].id, items[k].title, items[k].contentType, now))
  }

  /** `[item for item in entries if item.get("content_id") != content_id]`. */
  function OtherContent(contentId: string): HistoryEntry -> bool {
    (e: HistoryEntry) => e.contentId != contentId
  }

  function OtherWatch(contentId: string): WatchLaterEntry -> bool {
    (e: WatchLaterEntry) => e.contentId != contentId
  }

  /** No content id appears twice in a watch-later list. */
  predicate UniqueIds(entries: seq<WatchLaterEntry>) {
    forall i, j :: 0 <= i < j < |entries| ==> entries[i].contentId != entries[j].contentId
  }

  /** `list[-100:]` after an append: the last (at most) 100 entries. */
  function KeepLast(h: seq<HistoryEntry>, n: nat): (r: seq<HistoryEntry>)
    ensures |r| == Min(|h|, n)
    ensures r == h[|h| - |r|..]
  {
    if |h| > n then h[|h| - n..] else h
  }

  /** The settings returned for a user who has none. */
  const DefaultSettings: Json := JObj(map["theme" := JStr("dark"), "preferred_genres" := JArr([]), "content_preferences" := JArr([])])

  /** The successful `/recommendations` response. */
  datatype V2Response = V2Response(status: string, userId: string, batchId: string, count: nat,
                                   recommendations: seq<V2Recommendation>)

  /** The `/search` response: the untruncated count and the first 50 results. */
  datatype V2SearchResponse = V2SearchResponse(query: string, count: nat, results: seq<Item>)

  /** `query_lower in title.lower() or query_lower in description.lower()`. */
  function TitleOrDescription(queryLower: string): Item -> bool {
    (item: Item) => Contains(Lower(item.title), queryLower) || Contains(Lower(item.description.GetOr("")), queryLower)
  }

  /** The items of the visited catalogs, in visiting order. */
  function Concat(cats: map<string, seq<Item>>, keys: seq<string>): seq<Item>
    requires forall k :: k in keys ==> k in cats
    decreases |keys|
  {
    if |keys| == 0 then [] else Concat(cats, keys[..|keys| - 1]) + cats[keys[|keys| - 1]]
  }

  class V2Server {
    /** `cached_catalogs`, filled once at startup. */
    const cachedCatalogs: map<string, seq<Item>>
    var userHistory: map<string, seq<HistoryEntry>>
    var userWatchlater: map<string, seq<WatchLaterEntry>>
    var userSettings: map<string, Json>

    /** Every watch-later list is free of repeated content ids. */
    ghost predicate Valid()
      reads this
    {
      Loaded(cachedCatalogs) && forall u :: u in userWatchlater ==> UniqueIds(userWatchlater[u])
    }

    /** The startup pass over `catalog_manager.catalogs`. */
    constructor (catalogs: map<string, seq<Item>>)
      requires Loaded(catalogs)
      ensures Valid()
      ensures cachedCatalogs == StartupCatalogs(catalogs) && userHistory == map[] && userWatchlater == map[] && userSettings == map[]
    {
      cachedCatalogs := StartupCatalogs(catalogs);
      userHistory := map[];
      userWatchlater := map[];
      userSettings := map[];
    }

    /** The pool loop: each requested type's cached catalog, when there is one, extends the pool. */
    method CollectPool(types: seq<string>) returns (allItems: seq<Item>)
      ensures allItems == V2Pool(cachedCatalogs, types)
    {
      allItems := [];
      var i := 0;
      while i < |types|
        invariant 0 <= i <= |types|
        invariant allItems == V2Pool(cachedCatalogs, types[..i])
      {
        var ctKey := V2Key(types[i]);
        assert types[..i + 1][..i] == types[..i];
        if ctKey in cachedCatalogs {
          allItems := allItems + cachedCatalogs[ctKey];
        }
        i := i + 1;
      }
      assert types[..|types|] == types;
    }

    /**
     * `get_recommendations`: empty types and an empty pool raise 400 inside the `try` and are
     * answered 500; otherwise the filtered pool is shuffled, cut to the clamped count and
     * ranked, and every selected item is appended to the user's history.
     */
    method GetRecommendations(userId: string, genres: Option<seq<string>>, moods: Option<seq<string>>,
                              types: seq<string>, exclude: Option<seq<string>>, count: Option<int>,
                              batchId: string, now: string)
      returns (r: Result<V2Response, HttpError>, shuffled: seq<Item>)
      requires Valid()
      modifies this
      ensures Valid()
      ensures userWatchlater == old(userWatchlater) && userSettings == old(userSettings)
      ensures |types| == 0 ==> r == Failure(HttpError(500, "400: content_types required"))
      ensures |types| > 0 && V2Pool(cachedCatalogs, types) == [] ==> r == Failure(HttpError(500, "400: No items found"))
      ensures r.Failure? ==> userHistory == old(userHistory)
      ensures |types| > 0 && V2Pool(cachedCatalogs, types) != [] ==> (
        r.Success? &&
        multiset(shuffled) == multiset(V2Filtered(V2Pool(cachedCatalogs, types), exclude, genres, moods)) &&
        var selected := Take(shuffled, ClampedCount(count));
        |r.value.recommendations| == |selected| && r.value.count == |selected| &&
        r.value.batchId == batchId && r.value.userId == userId &&
        (forall k :: 0 <= k < |selected| ==> r.value.recommendations[k] == FormatV2(batchId, k, selected[k])) &&
        userHistory == if |selected| == 0 then old(userHistory)
                       else old(userHistory)[userId := ListOf(old(userHistory), userId) + ServedEntries(selected, now)])
    {
      shuffled := [];
      if |types| == 0 {
        return Failure(HttpError(500, "400: content_types required")), shuffled;
      }
      var allItems := CollectPool(types);
      if |allItems| == 0 {
        return Failure(HttpError(500, "400: No items found")), shuffled;
      }
      allItems := ApplyFilters(allItems, exclude, genres, moods);
      var n := ClampedCount(count);
      // `random.shuffle`: any arrangement of the pool.
      shuffled :| multiset(shuffled) == multiset(allItems);
      var selected := Take(shuffled, n);
      var recommendations := RecordBatch(userId, batchId, selected, now);
      r := Success(V2Response("success", userId, batchId, |recommendations|, recommendations));
    }

    /** The exclusion filter, then the genre and mood filters with their fallbacks. */
    static method ApplyFilters(pool: seq<Item>, exclude: Option<seq<string>>, genres: Option<seq<string>>,
                               moods: Option<seq<string>>) returns (allItems: seq<Item>)
      ensures allItems == V2Filtered(pool, exclude, genres, moods)
    {
      allItems := pool;
      var ex := exclude.GetOr([]);
      if |ex| > 0 {
        var excluded := LowerAll(ex);
        allItems := Filter(allItems, NotExcluded(excluded));
      }
      var gs, ms := genres.GetOr([]), moods.GetOr([]);
      if |gs| > 0 {
        allItems := FilterWithFallback(allItems, GenreHit(gs));
      }
      if |ms| > 0 {
        allItems := FilterWithFallback(allItems, MoodHit(ms));
      }
    }

    /** One genre or mood filter loop, kept only if it found something. */
    static method FilterWithFallback(items: seq<Item>, keep: Item -> bool) returns (r: seq<Item>)
      ensures r == Fallback(items, true, keep)
    {
      var filtered: seq<Item> := [];
      var i := 0;
      while i < |items|
        invariant 0 <= i <= |items|
        invariant filtered == Filter(items[..i], keep)
      {
        FilterSnoc(items, i, keep);
        if keep(items[i]) {
          filtered := filtered + [items[i]];
        }
        i := i + 1;
      }
      assert items[..|items|] == items;
      r := if |filtered| > 0 then filtered else items;
    }

    /** The ranking loop: formats each selected item and appends it to the user's history. */
    method RecordBatch(userId: string, batchId: string, selected: seq<Item>, now: string)
      returns (recommendations: seq<V2Recommendation>)
      requires Valid()
      modifies this
      ensures Valid()
      ensures |recommendations| == |selected|
      ensures forall k :: 0 <= k < |selected| ==> recommendations[k] == FormatV2(batchId, k, selected[k])
      ensures userHistory == if |selected| == 0 then old(userHistory)
                             else old(userHistory)[userId := ListOf(old(userHistory), userId) + ServedEntries(selected, now)]
      ensures userWatchlater == old(userWatchlater) && userSettings == old(userSettings)
    {
      recommendations := [];
      var i := 0;
      while i < |selected|
        invariant 0 <= i <= |selected|
        invariant Valid()
        invariant |recommendations| == i
        invariant forall k :: 0 <= k < i ==> recommendations[k] == FormatV2(batchId, k, selected[k])
        invariant i == 0 ==> userHistory == old(userHistory)
        invariant i > 0 ==> userHistory == old(userHistory)[userId := ListOf(old(userHistory), userId) + ServedEntries(selected[..i], now)]
        invariant userWatchlater == old(userWatchlater) && userSettings == old(userSettings)
      {
        var item := selected[i];
        recommendations := recommendations + [FormatV2(batchId, i, item)];
        assert ListOf(userHistory, userId) == ListOf(old(userHistory), userId) + ServedEntries(selected[..i], now);
        if userId !in userHistory {
          userHistory := userHistory[userId := []];
        }
        userHistory := userHistory[userId := userHistory[userId] + [Served(item.id, item.title, item.contentType, now)]];
        assert ServedEntries(selected[..i + 1], now) == ServedEntries(selected[..i], now) + [Served(item.id, item.title, item.contentType, now)];
        assert userHistory[userId] == ListOf(old(userHistory), userId) + ServedEntries(selected[..i + 1], now);
        assert userHistory == old(userHistory)[userId := userHistory[userId]];
        i := i + 1;
      }
      assert selected[..|selected|] == selected;
    }

    /** `add_to_history`: appends the entry, then keeps only the last 100. */
    method AddToHistory(userId: string, contentId: string, contentType: string, title: string,
                        rating: Option<real>, notes: Option<string>, now: string) returns (count: nat)
      requires Valid()
      modifies this
      ensures Valid()
      ensures var entry := Posted(contentId, title, Some(contentType), rating, notes, now);
        userHistory == old(userHistory)[userId := KeepLast(ListOf(old(userHistory), userId) + [entry], 100)]
      ensures count == |userHistory[userId]| && count <= 100
      ensures userHistory[userId][count - 1] == Posted(contentId, title, Some(contentType), rating, notes, now)
      ensures userWatchlater == old(userWatchlater) && userSettings == old(userSettings)
    {
      if userId !in userHistory {
        userHistory := userHistory[userId := []];
      }
      var historyItem := Posted(contentId, title, Some(contentType), rating, notes, now);
      userHistory := userHistory[userId := userHistory[userId] + [historyItem]];
      if |userHistory[userId]| > 100 {
        var h := userHistory[userId];
        userHistory := userHistory[userId := h[|h| - 100..]];
      }
      count := |userHistory[userId]|;
    }

    /** `remove_from_history`: every entry with that content id goes; an unknown user is a no-op. */
    method RemoveFromHistory(userId: string, contentId: string)
      requires Valid()
      modifies this
      ensures Valid()
      ensures userId in old(userHistory) ==>
        userHistory == old(userHistory)[userId := Filter(old(userHistory)[userId], OtherContent(contentId))]
      ensures userId !in old(userHistory) ==> userHistory == old(userHistory)
      ensures userWatchlater == old(userWatchlater) && userSettings == old(userSettings)
    {
      if userId in userHistory {
        userHistory := userHistory[userId := Filter(userHistory[userId], OtherContent(contentId))];
      }
    }

    /** `add_to_watchlater`: a content id already on the list is reported and not added again. */
    method AddToWatchLater(userId: string, contentId: string, title: string, contentType: string, now: string)
      returns (status: string, count: Option<nat>)
      requires Valid()
      modifies this
      ensures Valid()
      ensures var before := ListOf(old(userWatchlater), userId);
        ((exists k :: 0 <= k < |before| && before[k].contentId == contentId) ==>
          status == "already_exists" && count.None? && userWatchlater == old(userWatchlater)[userId := before]) &&
        (!(exists k :: 0 <= k < |before| && before[k].contentId == contentId) ==>
          status == "added" && count == Some(|before| + 1) &&
          userWatchlater == old(userWatchlater)[userId := before + [WatchLaterEntry(contentId, title, contentType, now)]])
      ensures userHistory == old(userHistory) && userSettings == old(userSettings)
    {
      if userId !in userWatchlater {
        userWatchlater := userWatchlater[userId := []];
      }
      var list := userWatchlater[userId];
      if exists k :: 0 <= k < |list| && list[k].contentId == contentId {
        return "already_exists", None;
      }
      userWatchlater := userWatchlater[userId := list + [WatchLaterEntry(contentId, title, contentType, now)]];
      return "added", Some(|list| + 1);
    }

    /** `remove_from_watchlater`: every entry with that content id goes; an unknown user is a no-op. */
    method RemoveFromWatchLater(userId: string, contentId: string)
      requires Valid()
      modifies this
      ensures Valid()
      ensures userId in old(userWatchlater) ==>
        userWatchlater == old(userWatchlater)[userId := Filter(old(userWatchlater)[userId], OtherWatch(contentId))]
      ensures userId !in old(userWatchlater) ==> userWatchlater == old(userWatchlater)
      ensures userHistory == old(userHistory) && userSettings == old(userSettings)
    {
      if userId in userWatchlater {
        var list := userWatchlater[userId];
        var kept := Filter(list, OtherWatch(contentId));
        FilterKeepsUnique(list, contentId);
        userWatchlater := userWatchlater[userId := kept];
      }
    }

    /** `create_user`: stores the preferences (or `{}`) as the user's settings. */
    method CreateUser(userId: string, preferences: Option<map<string, Json>>)
      requires Valid()
      modifies this
      ensures Valid()
      ensures userSettings == old(userSettings)[userId := JObj(preferences.GetOr(map[]))]
      ensures userHistory == old(userHistory) && userWatchlater == old(userWatchlater)
    {
      userSettings := userSettings[userId := JObj(preferences.GetOr(map[]))];
    }

    /** `update_settings`: the settings model's dictionary replaces the user's settings. */
    method UpdateSettings(userId: string, theme: string, preferredGenres: Option<seq<string>>,
                          contentPreferences: Option<seq<string>>)
      requires Valid()
      modifies this
      ensures Valid()
      ensures userSettings == old(userSettings)[userId := SettingsJson(theme, preferredGenres, contentPreferences)]
      ensures userHistory == old(userHistory) && userWatchlater == old(userWatchlater)
    {
      userSettings := userSettings[userId := SettingsJson(theme, preferredGenres, contentPreferences)];
    }

    /** `get_settings`: the stored settings, or the dark-theme default. */
    function GetSettings(userId: string): (r: Json)
      reads this
      ensures userId in userSettings ==> r == userSettings[userId]
      ensures userId !in userSettings ==> r == DefaultSettings
    {
      if userId in userSettings then userSettings[userId] else DefaultSettings
    }

    /**
     * `search`: a named type that is not cached raises 404; otherwise the items of the chosen
     * catalogs whose title or description contains the lower-cased query, the first 50 of them,
     * with the untruncated count.
     */
    method Search(q: string, contentType: Option<string>) returns (r: Result<V2SearchResponse, HttpError>)
      requires Valid()
      ensures contentType.Some? && contentType.value != "" && V2Key(contentType.value) !in cachedCatalogs <==> r.Failure?
      ensures r.Failure? ==> r.error == HttpError(404, "Content type not found")
      ensures r.Success? ==>
        var pool := if contentType.Some? && contentType.value != "" then cachedCatalogs[V2Key(contentType.value)]
                    else Concat(cachedCatalogs, KeysInOrder(cachedCatalogs));
        var matches := Filter(pool, TitleOrDescription(Lower(q)));
        r.value == V2SearchResponse(q, |matches|, Take(matches, 50))
    {
      var queryLower := Lower(q);
      var pool: seq<Item>;
      if contentType.Some? && contentType.value != "" {
        var ctKey := V2Key(contentType.value);
        if ctKey !in cachedCatalogs {
          return Failure(HttpError(404, "Content type not found"));
        }
        pool := cachedCatalogs[ctKey];
      } else {
        KeysInOrderExact(cachedCatalogs);
        pool := ConcatLoop(cachedCatalogs, KeysInOrder(cachedCatalogs));
      }
      var results := MatchLoop(pool, TitleOrDescription(queryLower));
      r := Success(V2SearchResponse(q, |results|, Take(results, 50)));
    }

    /** `for items in catalogs_to_search.values(): ...`: the catalogs in key order. */
    static method ConcatLoop(cats: map<string, seq<Item>>, keys: seq<string>) returns (items: seq<Item>)
      requires forall k :: k in keys ==> k in cats
      ensures items == Concat(cats, keys)
    {
      items := [];
      var i := 0;
      while i < |keys|
        invariant 0 <= i <= |keys|
        invariant items == Concat(cats, keys[..i])
      {
        assert keys[..i + 1][..i] == keys[..i];
        items := items + cats[keys[i]];
        i := i + 1;
      }
      assert keys[..|keys|] == keys;
    }

    /** The matching loop of `search`. */
    static method MatchLoop(items: seq<Item>, keep: Item -> bool) returns (results: seq<Item>)
      ensures results == Filter(items, keep)
    {
      results := [];
      var i := 0;
      while i < |items|
        invariant 0 <= i <= |items|
        invariant results == Filter(items[..i], keep)
      {
        FilterSnoc(items, i, keep);
        if keep(items[i]) {
          results := results + [items[i]];
        }
        i := i + 1;
      }
      assert items[..|items|] == items;
    }
  }

  /** `UserSettings(...).dict()`. */
  function SettingsJson(theme: string, preferredGenres: Option<seq<string>>, contentPreferences: Option<seq<string>>): Json {
    JObj(map["theme" := JStr(theme),
             "preferred_genres" := if preferredGenres.None? then JNull else StrList(preferredGenres.value),
             "content_preferences" := if contentPreferences.None? then JNull else StrList(contentPreferences.value)])
  }

  /** Removing entries keeps a watch-later list free of repeats, and removes every entry of that id. */
  lemma FilterKeepsUnique(list: seq<WatchLaterEntry>, contentId: string)
    requires UniqueIds(list)
    ensures UniqueIds(Filter(list, OtherWatch(contentId)))
    ensures forall e :: e in Filter(list, OtherWatch(contentId)) ==> e.contentId != contentId
  {
    UniqueFilter(list, OtherWatch(contentId));
  }

  /** In a list with unique ids, no later entry shares the first entry's id. */
  lemma UniqueHead(list: seq<WatchLaterEntry>)
    requires |list| > 0 && UniqueIds(list)
    ensures forall y :: y in list[1..] ==> y.contentId != list[0].contentId
  {
    forall y | y in list[1..] ensures y.contentId != list[0].contentId {
      var m :| 0 <= m < |list[1..]| && list[1..][m] == y;
      assert list[m + 1] == y;
    }
  }

  /** An entry with a new id may head a list with unique ids. */
  lemma UniqueCons(x: WatchLaterEntry, rest: seq<WatchLaterEntry>)
    requires UniqueIds(rest) && forall y :: y in rest ==> y.contentId != x.contentId
    ensures UniqueIds([x] + rest)
  {
    var r := [x] + rest;
    forall i, j | 0 <= i < j < |r| ensures r[i].contentId != r[j].contentId {
      assert r[j] == rest[j - 1] && rest[j - 1] in rest;
      if i > 0 {
        assert r[i] == rest[i - 1];
      }
    }
  }

  /** Filtering keeps ids unique. */
  lemma {:induction false} UniqueFilter(list: seq<WatchLaterEntry>, p: WatchLaterEntry -> bool)
    requires UniqueIds(list)
    ensures UniqueIds(Filter(list, p))
    decreases |list|
  {
    if |list| > 0 {
      assert UniqueIds(list[1..]) by {
        forall i, j | 0 <= i < j < |list[1..]| ensures list[1..][i].contentId != list[1..][j].contentId {
          assert list[1..][i] == list[i + 1] && list[1..][j] == list[j + 1];
        }
      }
      UniqueFilter(list[1..], p);
      var rest := Filter(list[1..], p);
      if p(list[0]) {
        UniqueHead(list);
        UniqueCons(list[0], rest);
        assert Filter(list, p) == [list[0]] + rest;
      } else {
        assert Filter(list, p) == rest;
      }
    }
  }

  /** After `add_to_history` the list never exceeds 100 and ends with the new entry, the rest in order. */
  lemma HistoryCap(h: seq<HistoryEntry>, e: HistoryEntry)
    ensures |KeepLast(h + [e], 100)| <= 100
    ensures KeepLast(h + [e], 100)[|KeepLast(h + [e], 100)| - 1] == e
    ensures |h| < 100 ==> KeepLast(h + [e], 100) == h + [e]
  {
  }
}
