# Otakuverse in Dafny

Otakuverse is a recommendation backend for anime, manga, films, web series and related media.
This project models its core in Dafny and proves properties of the model. The core covered here is:

- the **catalog manager** (`CatalogAgent`): it loads nine JSON catalogs, searches them by genre and/or
  mood and by type, sorts hits by rating, filters out consumed items, and provides the
  `search_catalogs` agent tool;
- the **SQLite history database** (`HistoryDb`): users, content history and saved recommendations, with
  the ordering of each query;
- four **HTTP servers**:
  - the static catalog server (`StaticServer`): mood expansion, consumed filtering, top 10, batch rows,
    catalog listing and title search with relevance tiers;
  - the fast cached server (`FastServer`): relevance scoring and the top 20;
  - the in-memory v2 server (`ServerV2`): filters with fallbacks, shuffling, the history cap,
    watch-later, settings and search;
  - the live-data server (`RealData`): per-type queries, formatting of MyAnimeList and IMDb results,
    the quality filter, the search cache and the de-duplicated catalog;
- the **fast cache agent** (`FastCache`): TTL caches of catalogs and searches;
- the **Gemini enrichment agent** (`GeminiAgent`): unwrapping of fenced JSON replies, error results and
  fallbacks;
- the **image and rating handler** (`ImageRating`): routing each content type to MyAnimeList or IMDb,
  and memoising both lookups;
- the servers' `.env` loader (`EnvFile`).

Helper modules:

- `Wrappers`: Option and Result.
- `JsonData`: a JSON value type.
- `Text`: ASCII `lower`/`strip`, `find`, `split`/`join`, and integer formatting.
- `Lists`: filters, dedup and Python slices.
- `Sorting`: Python's stable `sorted`, as a stable insertion sort over a total preorder, proved ordered,
  a permutation and stable.

Objects whose fields the source mutates are classes with `modifies` clauses:

- `CatalogManager`, `HistoryDatabase`, `FastCacheAgent`, `V2Server`, `RealDataServer` and
  `ImageAndRatingHandler`;
- module-level dictionaries of the servers become fields of their server class;
- the loops of the source are methods with invariants, each proved equal to a specification function.

Code that only computes a value is modelled as functions, with lemmas about them. This covers the
formatters, the query tables and the Gemini reply handling.

Outside effects are parameters of the model. These are:

- the network fetches (MyAnimeList, Jikan, OMDb);
- the Gemini model's reply and `json.loads`;
- the clock (`now`) and uuid batch ids;
- `random.shuffle` and `random.choice`, modelled as a nondeterministic permutation or member.

An `HTTPException` raised inside a `try ... except Exception` block is re-raised by the source as a
500 whose detail is `"<code>: <detail>"`. The model states exactly those codes and messages.

## Model

| member | source | states |
|---|---|---|
| CatalogAgent.CatalogManager.constructor | otakuverse/catalog_agent/agent.py:15-30 | the manager holds the loaded catalogs, whose keys are catalog file names without `.json` |
| CatalogAgent.KeysInOrderExact | otakuverse/catalog_agent/agent.py:19-30 | dictionary order lists every loaded category exactly once |
| CatalogAgent.KnownKeysExact | otakuverse/catalog_agent/agent.py:37-41 | a catalog is visited iff some requested type, with spaces made `_` and lower-cased, names a loaded catalog |
| CatalogAgent.NoKnownTypeSelectsNothing | otakuverse/catalog_agent/agent.py:37-47 | types given but none loaded: nothing is visited, so the search is empty |
| CatalogAgent.NoTypesSelectsAll | otakuverse/catalog_agent/agent.py:42-43 | without types every loaded catalog is visited |
| CatalogAgent.CatalogManager.SelectCatalogs | otakuverse/catalog_agent/agent.py:36-43 | the selection loop returns the known requested keys in request order, or all keys |
| CatalogAgent.CatalogManager.Gather | otakuverse/catalog_agent/agent.py:48-63 | the nested loop collects, in catalog order, the kept items stamped with their category |
| CatalogAgent.CollectExact | otakuverse/catalog_agent/agent.py:48-63 | an item is collected iff it is a kept item of a visited catalog, stamped with that catalog's key |
| CatalogAgent.CatalogManager.SearchByGenres | otakuverse/catalog_agent/agent.py:32-65 | the result is sorted by rating descending and holds exactly the stamped items of the visited catalogs with a genre equal to a requested one after lower/strip |
| CatalogAgent.CatalogManager.SearchByMood | otakuverse/catalog_agent/agent.py:67-100 | the same for mood tags |
| CatalogAgent.CatalogManager.SearchByGenreAndMood | otakuverse/catalog_agent/agent.py:102-144 | the same, when a genre match and a mood match are both needed |
| CatalogAgent.CatalogManager.GetByType | otakuverse/catalog_agent/agent.py:146-158 | every item of the known requested catalogs (repeats counted), stamped, sorted by rating, a permutation of the collected items |
| CatalogAgent.SortedByRating | otakuverse/catalog_agent/agent.py:65 | sorting by rating descending is ordered, a permutation, and stable on equal ratings |
| CatalogAgent.FilterOutConsumed | otakuverse/catalog_agent/agent.py:160-162 | an item is kept iff it is in the input and its id is not consumed |
| CatalogAgent.FilterOutConsumedConcat | otakuverse/catalog_agent/agent.py:160-162 | the filter keeps the order, distributing over concatenation |
| CatalogAgent.FilterOutConsumedKeeps | otakuverse/catalog_agent/agent.py:160-162 | a list with no consumed item passes unchanged |
| CatalogAgent.CatalogManager.GetAvailableTypes | otakuverse/catalog_agent/agent.py:199-205 | the loaded categories, each exactly once |
| CatalogAgent.CommaList | otakuverse/catalog_agent/agent.py:172-174 | an absent or empty string gives no entries; otherwise entry `i` is the stripped `i`-th comma-separated part, one entry per part |
| CatalogAgent.RunQuery | otakuverse/catalog_agent/agent.py:176-185 | dispatches in the order genre+mood, genre, mood, type, none |
| CatalogAgent.SearchCatalogs | otakuverse/catalog_agent/agent.py:169-191 | success, the untruncated count, and the first 20 results |
| HistoryDb.HistoryDatabase.constructor | otakuverse/history_agent/db.py:17-65 | three empty tables |
| HistoryDb.OrdersAreTotalPreorders | otakuverse/history_agent/db.py:102-164 | the ORDER BY clauses used are total preorders |
| HistoryDb.HistoryDatabase.CreateUser | otakuverse/history_agent/db.py:67-77 | INSERT OR REPLACE: the user's old row is dropped and a fresh one with the preferences or `{}` is added; other tables unchanged |
| HistoryDb.HistoryDatabase.GetUser | otakuverse/history_agent/db.py:79-87 | Some exactly when a row with that id exists, and then that row |
| HistoryDb.CreateThenGet | otakuverse/history_agent/db.py:67-87 | after create_user, get_user returns exactly the new row |
| HistoryDb.FilterDistinctUsers | otakuverse/history_agent/db.py:67-77 | replacing a user keeps `user_id` a primary key |
| HistoryDb.HistoryDatabase.AddToHistory | otakuverse/history_agent/db.py:89-100 | one row appended with the next AUTOINCREMENT id, stamped now |
| HistoryDb.HistoryDatabase.GetUserHistory | otakuverse/history_agent/db.py:102-120 | a permutation of that user's rows (of that type if one is given), newest first |
| HistoryDb.HistoryDatabase.GetConsumedIds | otakuverse/history_agent/db.py:122-131 | distinct, and exactly the content ids of that user's rows |
| HistoryDb.HistoryDatabase.SaveRecommendation | otakuverse/history_agent/db.py:133-144 | one unviewed row appended with the next id |
| HistoryDb.HistoryDatabase.GetRecommendations | otakuverse/history_agent/db.py:146-164 | a permutation of the user's rows (of the batch if given), by ranking for a batch, else newest first then ranking |
| HistoryDb.HistoryDatabase.UpdatePreferences | otakuverse/history_agent/db.py:166-177 | only that user's row gets the preferences and `updated_at`; an absent user is a no-op |
| StaticServer.MoodMappingShape | otakuverse/api/server.py:18-27 | the eight labels, each mapped to four distinct tags |
| StaticServer.TranslateMoods | otakuverse/api/server.py:199-209 | the translation loop then `dict.fromkeys`: distinct, and a tag is present iff some requested mood contributes it |
| StaticServer.TranslateOne | otakuverse/api/server.py:202-207 | a known label becomes its tags; any other mood is kept lower-cased |
| StaticServer.GenerateExplanation | otakuverse/api/server.py:50-55 | the sentence names the type and the genres (or "mixed") and ends with the moods (or "various") |
| StaticServer.RecommendationsSafe | otakuverse/api/server.py:212-278 | at most 10 recommendations, none consumed, ranks 1..n, ids distinct within one batch |
| StaticServer.BatchQueryFindsBatch | otakuverse/api/server.py:238-278 | with a fresh batch id, querying that batch afterwards finds exactly the rows saved |
| StaticServer.GetRecommendations | otakuverse/api/server.py:178-290 | creates a missing user; 400 without types; otherwise the formatted selection, saved as one batch |
| StaticServer.SaveBatch | otakuverse/api/server.py:238-278 | the save loop appends one row per item with rank i+1 |
| StaticServer.GetCatalogByType | otakuverse/api/server.py:347-380 | 404 iff the normalised key is unknown, otherwise one entry per stored item, in order |
| StaticServer.ByTierTotalPreorder | otakuverse/api/server.py:411-420 | the `sort_key` order is a total preorder |
| StaticServer.RankedOrder | otakuverse/api/server.py:391-420 | every hit's lower-cased title contains the query; the hits are a permutation of the matching items collected in catalog order; sorted by the key (tier, lower-cased title): tiers (exact, prefix, contains) never go back down, and within one tier the lower-cased titles are in lexicographic order |
| StaticServer.RankedComplete | otakuverse/api/server.py:394-398 | every catalog item whose lower-cased title contains the query is among the ranked hits, stamped with its catalog's type |
| StaticServer.Search | otakuverse/api/server.py:383-429 | a blank query (after lower-casing and stripping) gives 500 "Search error: 400: ..." and only it fails; otherwise the hits are the ranked list of `RankedOrder` and `RankedComplete` cut by the slice `[:limit]`, with their count |
| FastCache.Lookup | otakuverse/agents/fast_cache_agent.py:29-42 | a value is read iff an entry exists that is strictly younger than the TTL |
| FastCache.LookupAfterStore | otakuverse/agents/fast_cache_agent.py:33-50 | a stored entry is read back for one hour and not after; other keys are unaffected |
| FastCache.CacheThenGet | otakuverse/agents/fast_cache_agent.py:33-50 | caching a catalog then reading it returns it within the hour, `[]` after |
| FastCache.CatalogCacheKeyInjective | otakuverse/agents/fast_cache_agent.py:33-47 | different types never share a catalog entry |
| FastCache.SearchCacheKeyInjective | otakuverse/agents/fast_cache_agent.py:24-27 | the search cache (its key built from "search", the query and the limit) is keyed on exactly (query, limit) |
| FastCache.Prune | otakuverse/agents/fast_cache_agent.py:171-181 | keeps exactly the entries not strictly older than the TTL, unchanged |
| FastCache.PruneKeepsReads | otakuverse/agents/fast_cache_agent.py:171-181 | eviction never changes what a read at the same instant returns |
| FastCache.AgedExactlyTtl | otakuverse/agents/fast_cache_agent.py:29-31 | an entry aged exactly the TTL is unreadable, since the read test is strict, yet survives eviction, whose test on line 178 is also strict |
| FastCache.GetEnrichedWithExternalOnly | otakuverse/agents/fast_cache_agent.py:52-66 | all external fields are empty |
| FastCache.FastCacheAgent.GetCachedCatalog | otakuverse/agents/fast_cache_agent.py:33-42 | the valid cached list of that type, else `[]` |
| FastCache.FastCacheAgent.CacheCatalog | otakuverse/agents/fast_cache_agent.py:44-50 | only that type's entry is rewritten, stamped now |
| FastCache.FastCacheAgent.SearchFast | otakuverse/agents/fast_cache_agent.py:141-169 | a valid hit returns the cached list; otherwise the first matches up to the quota are returned and cached |
| FastCache.FastCacheAgent.CollectMatches | otakuverse/agents/fast_cache_agent.py:153-162 | the loop with its `break` keeps the first matches, at most `limit` but at least one |
| FastCache.FastCacheAgent.ClearExpiredCache | otakuverse/agents/fast_cache_agent.py:171-181 | all three caches are pruned |
| FastServer.Pool | otakuverse/api/server_fast.py:173-191 | an item is pooled iff it is in the valid cached catalog of some requested type |
| FastServer.GatherPool | otakuverse/api/server_fast.py:173-191 | the gathering loop builds that pool |
| FastServer.HitCount | otakuverse/api/server_fast.py:199-204 | at most one point per requested word |
| FastServer.Scored | otakuverse/api/server_fast.py:194-207 | pooled items with their positive score |
| FastServer.ScoredComplete | otakuverse/api/server_fast.py:196-207 | every pooled item with a positive score is paired with that score in the scored list |
| FastServer.CutKeepsBest | otakuverse/api/server_fast.py:209-211 | the first 20 of a score-sorted list: at most 20, in order, and any item left out means 20 were kept, each scoring at least as much |
| FastServer.ScoreItems | otakuverse/api/server_fast.py:197-207 | the scoring loop computes exactly that list |
| FastServer.ScoreDescTotalPreorder | otakuverse/api/server_fast.py:210 | the sort key is a total preorder |
| FastServer.TopScored | otakuverse/api/server_fast.py:194-211 | at most 20 items, each from the pool with a positive score, scores never increasing; a pooled item with a positive score that is not selected means 20 items were selected, each scoring at least as much as it |
| FastServer.SelectionProperties | otakuverse/api/server_fast.py:193-214 | at most 20, all from the pool; when genres or moods are given, positive scores in non-increasing order, and any positively scored item left out means 20 items scoring at least as much were selected |
| FastServer.SelectionStable | otakuverse/api/server_fast.py:210 | equal scores keep pool order |
| FastServer.SelectItems | otakuverse/api/server_fast.py:193-214 | the relevance branch computes the selection |
| FastServer.EnrichmentFailureIsNull | otakuverse/api/server_fast.py:217-234 | a failed enrichment nulls that item's external fields and drops nothing |
| FastServer.FastRanksAndIds | otakuverse/api/server_fast.py:236-249 | ranks 1..n and distinct ids within a batch |
| FastServer.FormatLoop | otakuverse/api/server_fast.py:217-249 | the formatting loop computes the formatted list |
| FastServer.GetRecommendationsFast | otakuverse/api/server_fast.py:151-272 | 500 "400: content_types required" iff no types; otherwise the formatted selection of the cached pool |
| FastServer.SearchEndpoint | otakuverse/api/server_fast.py:275-298 | `search_fast` with limit 20 over all catalogs or the one named, with the result count; a valid cache entry is returned with the search cache unchanged, otherwise the fresh results are stored under the query key; the other caches are unchanged |
| FastServer.ConcatCatalogs | otakuverse/api/server_fast.py:283-286 | the loop concatenates the chosen catalogs in key order |
| ServerV2.V2KeyCommutes | otakuverse/api/server_v2.py:212 | v2's lower-then-replace key equals the static server's replace-then-lower key |
| ServerV2.WithType | otakuverse/api/server_v2.py:120-127 | same length; an item with a missing or empty type gets the catalog name, everything else stays |
| ServerV2.StartupTypesFilled | otakuverse/api/server_v2.py:115-156 | after startup every cached item has a non-empty type, other fields unchanged |
| ServerV2.V2Server.constructor | otakuverse/api/server_v2.py:115-156 | cached catalogs as startup leaves them; all per-user stores empty |
| ServerV2.V2Server.CollectPool | otakuverse/api/server_v2.py:210-217 | the pool loop builds the pool of the requested types |
| ServerV2.FallbackProperties | otakuverse/api/server_v2.py:228-245 | a falling-back filter never empties the pool or adds items, and keeps only passing items when any pass |
| ServerV2.V2Server.ApplyFilters | otakuverse/api/server_v2.py:218-244 | the exclusion, genre and mood stages together produce exactly the filtered pool `V2Filtered` describes |
| ServerV2.V2Server.FilterWithFallback | otakuverse/api/server_v2.py:228-245 | one filter loop is that fallback filter |
| ServerV2.ExcludedNeverReturned | otakuverse/api/server_v2.py:220-245 | no excluded title survives, whichever fallbacks fire |
| ServerV2.ClampedCount | otakuverse/api/server_v2.py:248-250 | the corrected count: 15 for none or 0, the count up to 50, never negative |
| ServerV2.ClampAgreesOnNonNegative | otakuverse/api/server_v2.py:248 | corrected and as-written counts agree on every non-negative count |
| ServerV2.NegativeCountOverruns | otakuverse/api/server_v2.py:248-250 | as written, count -1 over 60 candidates selects 59 |
| ServerV2.V2Server.GetRecommendations | otakuverse/api/server_v2.py:193-296 | both error answers; otherwise a shuffle of the filtered pool, cut to the clamped count, formatted, recorded in the history |
| ServerV2.V2Server.RecordBatch | otakuverse/api/server_v2.py:257-282 | rank i+1 and id batch_i per item; the history gains exactly those entries |
| ServerV2.KeepLast | otakuverse/api/server_v2.py:406-408 | the last min(n, length) entries |
| ServerV2.HistoryCap | otakuverse/api/server_v2.py:404-408 | the history never exceeds 100, ends with the new entry, and is unchanged below the cap |
| ServerV2.V2Server.AddToHistory | otakuverse/api/server_v2.py:390-410 | appends, caps at 100, and returns the new length |
| ServerV2.V2Server.RemoveFromHistory | otakuverse/api/server_v2.py:413-421 | drops every entry with that id; an unknown user is a no-op |
| ServerV2.V2Server.AddToWatchLater | otakuverse/api/server_v2.py:437-455 | "already_exists" with nothing changed, or "added" with the entry appended; ids stay unique |
| ServerV2.V2Server.RemoveFromWatchLater | otakuverse/api/server_v2.py:458-466 | drops every entry with that id, keeps ids unique; an unknown user is a no-op |
| ServerV2.FilterKeepsUnique | otakuverse/api/server_v2.py:458-466 | removal keeps ids unique and leaves no entry of that id |
| ServerV2.V2Server.CreateUser | otakuverse/api/server_v2.py:368-376 | the settings become the preferences or `{}` |
| ServerV2.V2Server.UpdateSettings | otakuverse/api/server_v2.py:482-486 | the settings become the model's dictionary |
| ServerV2.V2Server.GetSettings | otakuverse/api/server_v2.py:471-479 | the stored settings, or the dark-theme default |
| ServerV2.V2Server.Search | otakuverse/api/server_v2.py:340-363 | 404 iff a named type is unknown; otherwise the full match count and the first 50 matches |
| ServerV2.V2Server.MatchLoop | otakuverse/api/server_v2.py:353-357 | the match loop filters on title or description |
| RealData.RandomQueryTable | otakuverse/api/server_real_data.py:226-233 | list sizes 15, 12, 10 and 9, and "popular" for any other type |
| RealData.GetRandomQuery | otakuverse/api/server_real_data.py:224-234 | a member of the type's list; "popular" for an unknown type |
| RealData.FirstMoodGenreSpec | otakuverse/api/server_real_data.py:242-255 | the genre of the first known mood, and none iff no mood is known |
| RealData.MoodGenresAreAnimeQueries | otakuverse/api/server_real_data.py:226-255 | a mood's genre is an anime query or "drama" |
| RealData.GetSmartQuery | otakuverse/api/server_real_data.py:237-257 | a requested genre, else the first known mood's genre, else a random query of the type |
| RealData.FormatMal | otakuverse/api/server_real_data.py:260-307 | None iff the title is excluded; otherwise the content id is exactly `<prefix>_<id>`, rating = MAL score = mean or 0, and every other field is the node's (or its default), episodes only for anime |
| RealData.AnimeAndMangaIdsDiffer | otakuverse/api/server_real_data.py:260-307 | an anime id never equals a manga id |
| RealData.FormatImdb | otakuverse/api/server_real_data.py:310-335 | None iff the title is excluded; the genres rejoin to the kind; the rating is the parsed one or 0 |
| RealData.ProcessResultQuality | otakuverse/api/server_real_data.py:389-443 | kept items are rated at least 6.0, not excluded, and typed as fetched (tv_series becomes web_series) |
| RealData.ProcessPairedQuality | otakuverse/api/server_real_data.py:389-443 | the pooled items are good and have one of the four types |
| RealData.ProcessResultEmpty | otakuverse/api/server_real_data.py:389-443 | a type without a branch contributes nothing |
| RealData.MisalignedResultsLost | otakuverse/api/server_real_data.py:369-443 | as written, ["novels","anime"] loses the anime result; the corrected pairing keeps it |
| RealData.ProcessCorrected | otakuverse/api/server_real_data.py:369-443 | the corrected pairing (each result with its task's type) keeps only items rated at least 6.0, not excluded, of one of the four types |
| RealData.AlignedWhenAllSupported | otakuverse/api/server_real_data.py:369-443 | when all types are supported, the corrected and as-written pairings agree |
| RealData.RealDataServer.PlanQueries | otakuverse/api/server_real_data.py:369-384 | one (type, query) pair per requested type, each query obeying the smart-query rules; the results are exactly the fetches of the supported pairs, in order, one per supported type |
| RealData.PlanStep | otakuverse/api/server_real_data.py:375-384 | adding a type adds one fetch of its query exactly when the type is supported |
| RealData.TaskTypes | otakuverse/api/server_real_data.py:375-384 | the fetch tasks are the supported types in request order |
| RealData.RealDataServer.ProcessLoop | otakuverse/api/server_real_data.py:389-443 | the processing loop computes the paired processing |
| RealData.RealDataServer.ProcessItems | otakuverse/api/server_real_data.py:398-443 | the inner loop computes one result's processing |
| RealData.RealDataServer.Select | otakuverse/api/server_real_data.py:445-466 | 404 iff the pool is empty; otherwise a shuffle, cut and recorded |
| RealData.RealDataServer.RecordSelection | otakuverse/api/server_real_data.py:453-466 | ranks and ids per item; the history gains exactly those entries |
| RealData.RealDataServer.GetRecommendations | otakuverse/api/server_real_data.py:349-481 | 500 "400: ..." iff no types; 500 "404: ..." iff nothing qualifies; the queries obey the smart-query rules and the results are the fetches of the supported types; otherwise a shuffled, clamped selection of the correctly paired results |
| RealData.SearchKeyExact | otakuverse/api/server_real_data.py:530 | keys are equal iff the lower-cased queries and the limits are equal |
| RealData.CaseInsensitiveHit | otakuverse/api/server_real_data.py:530-538 | queries differing only in case share the cache entry |
| RealData.RealDataServer.SearchAnime | otakuverse/api/server_real_data.py:520-569 | 400 for a short query; a hit is from cache; an error or no result gives 500; otherwise the formatted records of the non-empty entries are cached in order and returned |
| RealData.RealDataServer.FormatLoop | otakuverse/api/server_real_data.py:548-552 | the loop keeps, in order, the formatted record of every non-empty entry and skips the empty ones |
| RealData.FormatEntry | otakuverse/api/server_real_data.py:260-265 | None iff the entry is the empty dictionary; otherwise the node's anime record with no exclusions |
| RealData.FormatAllAnimeExact | otakuverse/api/server_real_data.py:548-552 | a record is in the formatted list iff some non-empty entry formats to it, and there is one record per non-empty entry |
| RealData.DedupByIdSpec | otakuverse/api/server_real_data.py:594-602 | keeps input items only, one per id, and covers every id |
| RealData.DedupByIdFirst | otakuverse/api/server_real_data.py:594-602 | every kept item is the first item of the input with its id, and kept items appear in the order of those first positions |
| RealData.RealDataServer.DedupInto | otakuverse/api/server_real_data.py:598-602 | the inner loop extends the dedup and the seen set |
| RealData.RealDataServer.GetAllCachedItems | otakuverse/api/server_real_data.py:591-608 | one item per id covering every cached id, each the first cached item with that id, in cache order; total = unique = the item count |
| RealData.AllItemsUnique | otakuverse/api/server_real_data.py:591-608 | every cached id is listed exactly once |
| ImageRating.MalSearchType | otakuverse/api/image_rating_handler.py:21 | "anime" iff the type is anime or light_novels, else "manga" |
| ImageRating.ImageAndRatingHandler.constructor | otakuverse/api/image_rating_handler.py:10-16 | the OMDb key is the environment's or the default; both caches empty |
| ImageRating.ImageAndRatingHandler.ImdbData | otakuverse/api/image_rating_handler.py:46-50 | no lookup with an empty key |
| ImageRating.ImageAndRatingHandler.Gathered | otakuverse/api/image_rating_handler.py:97-106 | a MAL lookup for the four MAL types, an IMDb lookup for the four IMDb types, or nothing |
| ImageRating.RatingsRouting | otakuverse/api/image_rating_handler.py:105-115 | a present non-zero rating fills the MAL or the IMDb field with its source; no lookups give the empty record |
| ImageRating.RoutingDisjoint | otakuverse/api/image_rating_handler.py:99-103 | no type goes to both sources, and every catalog type except novels has one |
| ImageRating.ImageAndRatingHandler.RatingLoop | otakuverse/api/image_rating_handler.py:108-115 | the loop collects the ratings |
| ImageRating.ImageAndRatingHandler.GetRatings | otakuverse/api/image_rating_handler.py:83-118 | memoised: a hit returns the cached record; otherwise the collected record is stored |
| ImageRating.ImageAndRatingHandler.GetEnrichedItem | otakuverse/api/image_rating_handler.py:120-155 | memoised: MAL for its four types, IMDb for every other, the skeleton when the lookup fails |
| ImageRating.ImageAndRatingHandler.ClearCache | otakuverse/api/image_rating_handler.py:157-160 | both caches are emptied |
| ImageRating.RatingKeyInjective | otakuverse/api/image_rating_handler.py:85 | with dash-free types the rating key determines title and type |
| ImageRating.RatingKeyCollides | otakuverse/api/image_rating_handler.py:85 | a dash inside the type lets two pairs share one key |
| ImageRating.EnrichedKeyInjective | otakuverse/api/image_rating_handler.py:122 | the same for the enriched key |
| GeminiAgent.AfterFirstFence | otakuverse/agents/gemini_enrichment_agent.py:78 | `split("```")[1]` is the text after the leading fence up to the next fence, and holds no fence |
| GeminiAgent.UnwrappedHasNoFence | otakuverse/agents/gemini_enrichment_agent.py:74-81 | a fenced reply never hands a fence to the parser |
| GeminiAgent.UnfencedIsStripped | otakuverse/agents/gemini_enrichment_agent.py:74-81 | an unfenced reply is only stripped |
| GeminiAgent.FenceRoundTrip | otakuverse/agents/gemini_enrichment_agent.py:74-81 | a backtick-free body wrapped in a json fence unwraps to the stripped body |
| GeminiAgent.ContentEnrichment | otakuverse/agents/gemini_enrichment_agent.py:28-102 | unavailable without a model; the message of a failed call; success with the data, or a parse error |
| GeminiAgent.EnrichmentStatus | otakuverse/agents/gemini_enrichment_agent.py:40-102 | the status is one of three, and a model-less agent never succeeds |
| GeminiAgent.TemplateExplanation | otakuverse/agents/gemini_enrichment_agent.py:131 | the fallback sentence names the type, the genres and the moods |
| GeminiAgent.PersonalizedRecommendation | otakuverse/agents/gemini_enrichment_agent.py:104-131 | the stripped reply, or the template on failure |
| GeminiAgent.SearchCatalogWithAi | otakuverse/agents/gemini_enrichment_agent.py:133-178 | the parsed unwrapped reply, or `[]` on any failure |
| GeminiAgent.AnalyzeUserPreferences | otakuverse/agents/gemini_enrichment_agent.py:180-224 | the parsed unwrapped reply, or the fixed default |
| GeminiAgent.JsonMethodsAgree | otakuverse/agents/gemini_enrichment_agent.py:74-213 | the three JSON methods parse the same unwrapped text |
| EnvFile.ParseLine | otakuverse/api/server_v2.py:16-22 | a pair only for a non-comment line with `=`, split at the first `=`, with the parts stripped |
| EnvFile.ParseLineSplitsAtFirst | otakuverse/api/server_real_data.py:37-40 | the key part holds no `=` |
| EnvFile.LoadedEnvKeeps | otakuverse/api/server_v2.py:23-24 | once loading succeeds, existing variables keep their values, and every new key is a name `os.environ` accepts that comes from some line |
| EnvFile.LoadedEnvDefines | otakuverse/api/server_v2.py:23-24 | once loading succeeds, every key some line defines is in the environment |
| EnvFile.BadKeyAborts | otakuverse/api/server_v2.py:23-24 | a line naming a key `os.environ` rejects (empty, or holding a NUL) that is not already set makes the load fail |
| EnvFile.CleanLinesLoad | otakuverse/api/server_v2.py:16-24 | when every parsed assignment is acceptable, loading succeeds |
| EnvFile.FailureSticks | otakuverse/api/server_v2.py:16-24 | a load that fails on some prefix of the lines fails on the whole file |
| EnvFile.LeadingEqualsEmptyKey | otakuverse/api/server_v2.py:17-21 | a line whose stripped form starts with `=` parses to the empty key |
| EnvFile.EmptyKeyAbortsStart | otakuverse/api/server_v2.py:16-26 | a file holding a line such as `=x` makes the load fail, so the import of the server module raises |
| EnvFile.FirstDefinitionWins | otakuverse/api/server_real_data.py:41-42 | a later definition of a set key is ignored |
| EnvFile.LoadEnvFile | otakuverse/api/server_real_data.py:33-43 | the reading loop computes the loaded environment, or None when an assignment raises, stopping at that line |

## Left out

- Network I/O, files and the database are left out. The HTTP fetches (Jikan, MyAnimeList, OMDb), the Gemini calls, `json.load` of the catalog files and `json.loads`, SQLite and `os.environ` become parameters or oracle functions. Timeouts, retries and `asyncio.gather` concurrency are not modelled; gathered results arrive in task order.
- The clock and uuids are parameters (`now`, `batchId`). Freshness of a uuid is a precondition where a lemma needs it.
- `random` is modelled as nondeterminism: `random.shuffle` as any permutation, `random.choice` as any member.
- Python's `str.lower` and `str.strip` are modelled on ASCII only. There is no Unicode case folding.
- Floating-point ratings are modelled as reals. The IMDb rating string is parsed by an oracle, and a failed parse gives 0 (`FormatImdb`).
- The static and fast servers use md5 for cache keys. The model uses the unhashed string, whose injectivity is the intended property.
- The v2 server's startup is left partly out: its random ratings, cover images and Gemini enrichment are not modelled. Only the content-type fill is.
- From the v2 server, `get_all_catalogs` and `get_catalog_by_type` (verbatim dictionary reads) are left out, as are its random-catalog helper and health endpoints.
- The fast server's `get_catalog_by_type_fast` and `get_all_catalog_fast` are left out: they only read the cache through `GetCachedCatalog` and re-list it.
- The live-data server's `add_watchlater` is left out: it mirrors the v2 watch-later without the duplicate check. Its `get_search_cache` is left out too: it is a read-only summary whose key splitting uses a pattern that never occurs in its own keys.
- Prompts, ADK agent wiring, logging and `print` are left out, as is the env loader's search over several candidate `.env` paths (the lines of the found file are the input).
- An empty MyAnimeList entry (`{}`) is falsy and `search_anime` skips it (`MalEntry.EmptyEntry`); a non-empty entry without a `node` formats as a node with every field missing. The recommendation path reads such entries through their node: an empty entry has mean 0 there and is dropped by the rating filter before formatting, so it is modelled as a node with every field missing.
- CatalogAgent.SearchCatalogs: always succeeds; the `except` branch that answers success False with the error text (otakuverse/catalog_agent/agent.py:193-197) is not modelled, because the only exceptions it could catch come from the interpreter (a malformed catalog record), which the model's typed records rule out.
- StaticServer.GetRecommendations, StaticServer.Search and the catalog loaders: the `except Exception` branches that turn an unexpected non-HTTP error into a 500 are not modelled, because the typed model raises no such errors; only the HTTP errors the handlers raise themselves are.
- RealData.RealDataServer.GetRecommendations: the model pairs each result with the type of the task that produced it, which is the corrected behaviour (see Findings). The as-written pairing is `RealData.ProcessAsWritten`. The cut also uses the corrected, non-negative count `ServerV2.ClampedCount`: the requested count (15 when absent) is capped at 50 from above only at otakuverse/api/server_real_data.py:363 and used as a slice end at lines 449-450, so a negative count would keep all but the last few items. The as-written count is `ServerV2.CountAsWritten`, and the Findings row for otakuverse/api/server_v2.py:248-250 covers these lines too.
- ServerV2.V2Server.GetRecommendations: the cut uses the corrected, non-negative count (see Findings). The as-written count is `ServerV2.CountAsWritten`.
- EnvFile.LoadEnvFile: of the assignments `os.environ` rejects, only an empty name and a NUL in the name or the value are modelled, which is the POSIX behaviour; other platforms' limits on names are not.
- StaticServer.Search: `limit` is used as a Python slice bound, including negative values, through `PyPrefix`; nothing further is stated about negative limits.

## Findings

| source | as written | input that shows it | evidently intended | confidence | as-written member | corrected member |
|---|---|---|---|---|---|---|
| otakuverse/api/server_v2.py:248-250 | the requested count (15 when absent) is capped at 50 from above only and then used as a slice end; server_real_data.py does the same at lines 363 and 449-450 | `count = -1` with 60 pooled items: the slice `[:-1]` returns 59, past the cap of 50 | the count is clamped to 0..50 | not executed | ServerV2.NegativeCountOverruns | ServerV2.ClampedCount |
| otakuverse/api/server_real_data.py:369-443 | a fetch task is created only for supported types, but `results[i]` is read with the type `content_types[i]` | `content_types = ["novels", "anime"]`: the anime result sits at index 0 and is processed as "novels", so it is dropped | each result is processed with the type of the task that produced it | not executed | RealData.MisalignedResultsLost | RealData.ProcessCorrected |
