/**
 * The fast API server: recommendations from the TTL cache, scored by the number of
 * requested genres and moods an item carries, with a null fallback for failed enrichment.
 */
module FastServer {
  import opened Wrappers
  import opened Text
  import opened Sorting
  import opened Lists
  import opened CatalogAgent
  import opened FastCache
  import StaticServer

  /** The candidate pool: the cached catalogs of the requested types, concatenated in request order. */
  function Pool(cache: map<string, Entry<seq<Item>>>, types: seq<string>, now: real): (r: seq<Item>)
    ensures forall x :: x in r <==> exists k :: 0 <= k < |types| && x in CachedCatalog(cache, StaticServer.CatalogKey(types[k]), now)
    decreases |types|
  {
    if |types| == 0 then []
    else
      var init := Pool(cache, types[..|types| - 1], now);
      assert forall k :: 0 <= k < |types| - 1 ==> types[..|types| - 1][k] == types[k];
      init + CachedCatalog(cache, StaticServer.CatalogKey(types[|types| - 1]), now)
  }

  /** `w.lower() in [x.lower() for x in have]`. */
  function InLowered(have: seq<string>): string -> bool {
    (w: string) => Lower(w) in LowerAll(have)
  }

  /** `sum(1 for w in wanted if w.lower() in [x.lower() for x in have])`: repeated requests count again. */
  function HitCount(wanted: seq<string>, have: seq<string>): (n: nat)
    ensures n <= |wanted|
  {
    |Filter(wanted, InLowered(have))|
  }

  /** An item's relevance: its genre hits plus its mood hits. */
  function Score(item: Item, genres: seq<string>, moods: seq<string>): nat {
    HitCount(genres, item.genres) + HitCount(moods, item.mood)
  }

  /** An item's relevance as a value, so that the lemmas below need not look inside it. */
  function ScoreOf(genres: seq<string>, moods: seq<string>): Item -> nat {
    (item: Item) => Score(item, genres, moods)
  }

  /** `scored_items`: the items of positive score with their score, in pool order. */
  function Scored(pool: seq<Item>, score: Item -> nat): (r: seq<(Item, nat)>)
    ensures |r| <= |pool|
    ensures forall k :: 0 <= k < |r| ==> r[k].0 in pool && r[k].1 == score(r[k].0) > 0
    decreases |pool|
  {
    if |pool| == 0 then []
    else
      var init := Scored(pool[..|pool| - 1], score);
      var last := pool[|pool| - 1];
      var s := score(last);
      init + (if s > 0 then [(last, s)] else [])
  }

  /** No positive-score item is dropped: each appears with its score. */
  lemma {:induction false} ScoredComplete(pool: seq<Item>, score: Item -> nat, x: Item)
    requires x in pool && score(x) > 0
    ensures (x, score(x)) in Scored(pool, score)
    decreases |pool|
  {
    var init := pool[..|pool| - 1];
    var last := pool[|pool| - 1];
    assert Scored(pool, score) == Scored(init, score) + (if score(last) > 0 then [(last, score(last))] else []);
    if x != last {
      assert pool == init + [last];
      ScoredComplete(init, score, x);
    }
  }

  /** `key=lambda x: x[1], reverse=True`. */
  function ScoreDesc(): ((Item, nat), (Item, nat)) -> bool {
    (a: (Item, nat), b: (Item, nat)) => a.1 >= b.1
  }

  lemma ScoreDescTotalPreorder()
    ensures TotalPreorder(ScoreDesc())
  {
  }

  /** `[item for item, _ in xs]`. */
  function Items(xs: seq<(Item, nat)>): (r: seq<Item>)
    ensures |r| == |xs| && forall k :: 0 <= k < |xs| ==> r[k] == xs[k].0
  {
    seq(|xs|, k requires 0 <= k < |xs| => xs[k].0)
  }

  /** The items the fast pipeline returns, before formatting. */
  function Selection(pool: seq<Item>, genres: Option<seq<string>>, moods: Option<seq<string>>): seq<Item> {
    var gs := genres.GetOr([]);
    var ms := moods.GetOr([]);
    if |gs| > 0 || |ms| > 0 then Items(Take(SortBy(Scored(pool, ScoreOf(gs, ms)), ScoreDesc()), 20))
    else Take(pool, 20)
  }

  /** An element of `Scored` is a pool item paired with its positive score. */
  lemma ScoredElement(pool: seq<Item>, score: Item -> nat, e: (Item, nat))
    requires e in Scored(pool, score)
    ensures e.0 in pool && e.1 == score(e.0) > 0
  {
    var scored := Scored(pool, score);
    var m :| 0 <= m < |scored| && scored[m] == e;
  }

  /** The sorted scored list: in score order, a permutation of `Scored`, each pair a pool item with its positive score. */
  lemma SortedScored(pool: seq<Item>, score: Item -> nat)
    ensures var sorted := SortBy(Scored(pool, score), ScoreDesc());
      Sorted(sorted, ScoreDesc()) && multiset(sorted) == multiset(Scored(pool, score)) &&
      forall k :: 0 <= k < |sorted| ==> sorted[k].0 in pool && sorted[k].1 == score(sorted[k].0) > 0
  {
    var scored := Scored(pool, score);
    var sorted := SortBy(scored, ScoreDesc());
    ScoreDescTotalPreorder();
    SortByFacts(scored, ScoreDesc());
    forall k | 0 <= k < |sorted| ensures sorted[k].0 in pool && sorted[k].1 == score(sorted[k].0) > 0 {
      assert sorted[k] in sorted;
      ScoredElement(pool, score, sorted[k]);
    }
  }

  /**
   * The `[:20]` cut of a score-sorted list: at most 20 pool items of positive score, in score
   * order, and an item cut away had twenty ahead of it scoring at least as much.
   */
  lemma CutKeepsBest(sorted: seq<(Item, nat)>, pool: seq<Item>, score: Item -> nat)
    requires Sorted(sorted, ScoreDesc())
    requires forall k :: 0 <= k < |sorted| ==> sorted[k].0 in pool && sorted[k].1 == score(sorted[k].0) > 0
    ensures var sel := Items(Take(sorted, 20));
      |sel| <= 20 &&
      (forall k :: 0 <= k < |sel| ==> sel[k] in pool && score(sel[k]) > 0) &&
      (forall j, k :: 0 <= j < k < |sel| ==> score(sel[j]) >= score(sel[k])) &&
      (forall p :: 0 <= p < |sorted| && sorted[p].0 !in sel ==>
        |sel| == 20 && forall k :: 0 <= k < |sel| ==> score(sel[k]) >= sorted[p].1)
  {
    var top := Take(sorted, 20);
    var sel := Items(top);
    forall k | 0 <= k < |sel| ensures sel[k] == sorted[k].0 {
      assert top[k] == sorted[k];
    }
    forall j, k | 0 <= j < k < |sel| ensures score(sel[j]) >= score(sel[k]) {
      assert ScoreDesc()(sorted[j], sorted[k]);
    }
    forall p | 0 <= p < |sorted| && sorted[p].0 !in sel
      ensures |sel| == 20 && forall k :: 0 <= k < |sel| ==> score(sel[k]) >= sorted[p].1
    {
      forall k | 0 <= k < |sel| ensures score(sel[k]) >= sorted[p].1 {
        assert ScoreDesc()(sorted[k], sorted[p]);
      }
    }
  }

  /**
   * The scored branch: each kept item is from the pool with a positive score, scores never
   * increase, and any positive-score item left out is outranked by all twenty kept ones.
   */
  lemma TopScored(pool: seq<Item>, score: Item -> nat)
    ensures var sel := Items(Take(SortBy(Scored(pool, score), ScoreDesc()), 20));
      |sel| <= 20 &&
      (forall k :: 0 <= k < |sel| ==> sel[k] in pool && score(sel[k]) > 0) &&
      (forall j, k :: 0 <= j < k < |sel| ==> score(sel[j]) >= score(sel[k])) &&
      (forall x :: x in pool && score(x) > 0 && x !in sel ==>
        |sel| == 20 && forall k :: 0 <= k < |sel| ==> score(sel[k]) >= score(x))
  {
    var sorted := SortBy(Scored(pool, score), ScoreDesc());
    SortedScored(pool, score);
    CutKeepsBest(sorted, pool, score);
    var sel := Items(Take(sorted, 20));
    forall x | x in pool && score(x) > 0 && x !in sel
      ensures |sel| == 20 && forall k :: 0 <= k < |sel| ==> score(sel[k]) >= score(x)
    {
      ScoredComplete(pool, score, x);
      assert (x, score(x)) in multiset(sorted);
      var p :| 0 <= p < |sorted| && sorted[p] == (x, score(x));
      assert sorted[p].0 !in sel;
    }
  }

  /**
   * With genres or moods: at most 20 items, each from the pool with a positive score, scores
   * never increase down the list, and a positive-score item is left out only when twenty items
   * scoring at least as much are kept. Without them: the first 20 of the pool, in order.
   */
  lemma SelectionProperties(pool: seq<Item>, genres: Option<seq<string>>, moods: Option<seq<string>>)
    ensures var sel, gs, ms := Selection(pool, genres, moods), genres.GetOr([]), moods.GetOr([]);
      |sel| <= 20 &&
      ((|gs| > 0 || |ms| > 0) ==>
        (forall k :: 0 <= k < |sel| ==> sel[k] in pool && Score(sel[k], gs, ms) > 0) &&
        (forall j, k :: 0 <= j < k < |sel| ==> Score(sel[j], gs, ms) >= Score(sel[k], gs, ms)) &&
        (forall x :: x in pool && Score(x, gs, ms) > 0 && x !in sel ==>
          |sel| == 20 && forall k :: 0 <= k < |sel| ==> Score(sel[k], gs, ms) >= Score(x, gs, ms))) &&
      (gs == [] && ms == [] ==> sel == pool[..|sel|] && |sel| == Min(|pool|, 20))
  {
    var gs, ms := genres.GetOr([]), moods.GetOr([]);
    if |gs| > 0 || |ms| > 0 {
      var score := ScoreOf(gs, ms);
      TopScored(pool, score);
      assert Selection(pool, genres, moods) == Items(Take(SortBy(Scored(pool, score), ScoreDesc()), 20));
      assert forall x :: score(x) == Score(x, gs, ms);
    } else {
      assert Selection(pool, genres, moods) == Take(pool, 20);
    }
  }

  /** Stability: items of equal score keep their pool order (as `list.sort` is stable). */
  lemma SelectionStable(pool: seq<Item>, genres: seq<string>, moods: seq<string>, z: (Item, nat))
    ensures Ties(SortBy(Scored(pool, ScoreOf(genres, moods)), ScoreDesc()), z, ScoreDesc()) ==
      Ties(Scored(pool, ScoreOf(genres, moods)), z, ScoreDesc())
  {
    ScoreDescTotalPreorder();
    SortByStable(Scored(pool, ScoreOf(genres, moods)), z, ScoreDesc());
  }

  /** One entry of the fast `recommendations` list. */
  datatype FastRecommendation = FastRecommendation(
    recommendationId: string, contentId: string, title: string, contentType: Option<string>,
    genres: seq<string>, mood: seq<string>, rating: real, description: string,
    malScore: Option<real>, imdbScore: Option<real>, coverImage: Option<string>, rank: nat)

  /**
   * The outcome of one enrichment task (`gather(..., return_exceptions=True)`):
   * `None` stands for a raised exception.
   */
  type Enricher = (string, string) -> Option<ExternalData>

  /** The record used for a task that raised. */
  const NullEnrichment: ExternalData := ExternalData(None, None, None, [])

  /** The external data an item ends up with: the task's result, or nulls when it raised. */
  function EnrichmentOf(enrich: Enricher, item: Item): ExternalData {
    match enrich(item.title, item.contentType.GetOr(""))
    case None => NullEnrichment
    case Some(e) => e
  }

  function FormatFast(batchId: string, i: nat, item: Item, e: ExternalData): FastRecommendation {
    FastRecommendation(batchId + "_" + NatToString(i), item.id, item.title, item.contentType,
      item.genres, item.mood, item.rating, item.description.GetOr(""), e.malRating, e.imdbRating, e.coverImage, i + 1)
  }

  /** The formatted recommendations: position `i` gets rank `i + 1` and id `batch_i`. */
  function FormatAllFast(batchId: string, items: seq<Item>, enrich: Enricher): (r: seq<FastRecommendation>)
    ensures |r| == |items|
    ensures forall i :: 0 <= i < |items| ==> r[i] == FormatFast(batchId, i, items[i], EnrichmentOf(enrich, items[i]))
  {
    seq(|items|, i requires 0 <= i < |items| => FormatFast(batchId, i, items[i], EnrichmentOf(enrich, items[i])))
  }

  /** A failed enrichment never drops an item: it only nulls that item's external fields. */
  lemma EnrichmentFailureIsNull(batchId: string, items: seq<Item>, enrich: Enricher, i: nat)
    requires i < |items| && enrich(items[i].title, items[i].contentType.GetOr("")).None?
    ensures |FormatAllFast(batchId, items, enrich)| == |items|
    ensures var r := FormatAllFast(batchId, items, enrich)[i];
      r.malScore.None? && r.imdbScore.None? && r.coverImage.None? && r.contentId == items[i].id && r.rank == i + 1
  {
  }

  /** Ranks run 1..n and the ids of one batch are pairwise distinct. */
  lemma FastRanksAndIds(batchId: string, items: seq<Item>, enrich: Enricher)
    ensures var recs := FormatAllFast(batchId, items, enrich);
      (forall k :: 0 <= k < |recs| ==> recs[k].rank == k + 1) &&
      (forall j, k :: 0 <= j < k < |recs| ==> recs[j].recommendationId != recs[k].recommendationId)
  {
    var recs := FormatAllFast(batchId, items, enrich);
    forall j, k | 0 <= j < k < |recs| ensures recs[j].recommendationId != recs[k].recommendationId {
      if recs[j].recommendationId == recs[k].recommendationId {
        SuffixedIdInjective(batchId + "_", j, k);
      }
    }
  }

  /** The successful response. */
  datatype FastResponse = FastResponse(status: string, userId: string, count: nat, recommendations: seq<FastRecommendation>)

  /** The cached pool of the requested types, built by extending one list. */
  method GatherPool(agent: FastCacheAgent, types: seq<string>, now: real) returns (allItems: seq<Item>)
    ensures allItems == Pool(agent.catalogCache, types, now)
  {
    allItems := [];
    var i := 0;
    while i < |types|
      invariant 0 <= i <= |types|
      invariant allItems == Pool(agent.catalogCache, types[..i], now)
    {
      var items := agent.GetCachedCatalog(StaticServer.CatalogKey(types[i]), now);
      assert types[..i + 1][..i] == types[..i];
      allItems := allItems + items;
      i := i + 1;
    }
    assert types[..|types|] == types;
  }

  /** The score accumulation of one item: genre hits if genres were given, plus mood hits if moods were. */
  method ItemScore(item: Item, genres: seq<string>, moods: seq<string>) returns (score: nat)
    ensures score == Score(item, genres, moods)
  {
    score := 0;
    if |genres| > 0 {
      score := score + HitCount(genres, item.genres);
    }
    if |moods| > 0 {
      score := score + HitCount(moods, item.mood);
    }
  }

  /** One more pool item: it is kept, with its score, exactly when the score is positive. */
  lemma ScoredStep(pool: seq<Item>, i: nat, genres: seq<string>, moods: seq<string>)
    requires i < |pool|
    ensures var s := Score(pool[i], genres, moods);
      Scored(pool[..i + 1], ScoreOf(genres, moods)) == Scored(pool[..i], ScoreOf(genres, moods)) + (if s > 0 then [(pool[i], s)] else [])
  {
    assert pool[..i + 1][..i] == pool[..i];
  }

  /** The scoring loop: each item's score is summed and positive ones are kept with it. */
  method ScoreItems(pool: seq<Item>, genres: seq<string>, moods: seq<string>) returns (scored: seq<(Item, nat)>)
    ensures scored == Scored(pool, ScoreOf(genres, moods))
  {
    scored := [];
    var i := 0;
    while i < |pool|
      invariant 0 <= i <= |pool|
      invariant scored == Scored(pool[..i], ScoreOf(genres, moods))
    {
      var item := pool[i];
      var score := ItemScore(item, genres, moods);
      ScoredStep(pool, i, genres, moods);
      if score > 0 {
        scored := scored + [(item, score)];
      }
      i := i + 1;
    }
    assert pool[..|pool|] == pool;
  }

  /**
   * `get_recommendations_fast`: an empty type list raises 400 inside the handler's `try`,
   * so it is answered as 500 with the re-wrapped detail; otherwise the scored or first-20
   * selection of the cached pool, formatted with ranks 1..n. Nothing is saved.
   */
  method GetRecommendationsFast(agent: FastCacheAgent, userId: string, genres: Option<seq<string>>,
                                moods: Option<seq<string>>, types: seq<string>, batchId: string,
                                now: real, enrich: Enricher)
    returns (r: Result<FastResponse, HttpError>)
    ensures |types| == 0 <==> r.Failure?
    ensures r.Failure? ==> r.error == HttpError(500, "400: content_types required")
    ensures r.Success? ==>
      var recs := FormatAllFast(batchId, Selection(Pool(agent.catalogCache, types, now), genres, moods), enrich);
      r.value == FastResponse("success", userId, |recs|, recs)
  {
    if |types| == 0 {
      return Failure(HttpError(500, "400: content_types required"));
    }
    var allItems := GatherPool(agent, types, now);
    var available := SelectItems(allItems, genres, moods);
    var recommendations := FormatLoop(batchId, available, enrich);
    r := Success(FastResponse("success", userId, |recommendations|, recommendations));
  }

  /** The relevance branch of `get_recommendations_fast`: scored, sorted and cut to 20, or just cut to 20. */
  method SelectItems(allItems: seq<Item>, genres: Option<seq<string>>, moods: Option<seq<string>>)
    returns (available: seq<Item>)
    ensures available == Selection(allItems, genres, moods)
  {
    var gs, ms := genres.GetOr([]), moods.GetOr([]);
    if |gs| > 0 || |ms| > 0 {
      var scored := ScoreItems(allItems, gs, ms);
      var sorted := SortBy(scored, ScoreDesc());
      available := Items(Take(sorted, 20));
    } else {
      available := Take(allItems, 20);
    }
  }

  /** The formatting loop, replacing a raised enrichment with the null record. */
  method FormatLoop(batchId: string, available: seq<Item>, enrich: Enricher) returns (recommendations: seq<FastRecommendation>)
    ensures recommendations == FormatAllFast(batchId, available, enrich)
  {
    recommendations := [];
    var i := 0;
    while i < |available|
      invariant 0 <= i <= |available|
      invariant |recommendations| == i
      invariant forall k :: 0 <= k < i ==>
        recommendations[k] == FormatFast(batchId, k, available[k], EnrichmentOf(enrich, available[k]))
    {
      var item := available[i];
      var enriched := enrich(item.title, item.contentType.GetOr(""));
      var e := if enriched.None? then NullEnrichment else enriched.value;
      recommendations := recommendations + [FormatFast(batchId, i, item, e)];
      i := i + 1;
    }
  }

  /** The search response of the fast server. */
  datatype FastSearchResponse = FastSearchResponse(query: string, count: nat, results: seq<Item>)

  /** The catalogs visited by `/search`: all of them, or only the one named. */
  function SearchPool(cats: map<string, seq<Item>>, keys: seq<string>, contentType: Option<string>): seq<Item>
    requires forall k :: k in keys ==> k in cats
    decreases |keys|
  {
    if |keys| == 0 then []
    else
      var last := keys[|keys| - 1];
      SearchPool(cats, keys[..|keys| - 1], contentType) +
        (if contentType.None? || last == contentType.value then cats[last] else [])
  }

  /** `/search` of the fast server: `search_fast` with limit 20 over the chosen catalogs. */
  method SearchEndpoint(agent: FastCacheAgent, manager: CatalogManager, q: string, contentType: Option<string>, now: real)
    returns (r: FastSearchResponse)
    requires Loaded(manager.catalogs)
    modifies agent
    ensures var key := SearchCacheKey(q, 20);
      var pool := SearchPool(manager.catalogs, KeysInOrder(manager.catalogs), contentType);
      r.query == q && r.count == |r.results| &&
      (Lookup(old(agent.searchCache), key, now).Some? ==>
        r.results == old(agent.searchCache)[key].data && agent.searchCache == old(agent.searchCache)) &&
      (Lookup(old(agent.searchCache), key, now).None? ==>
        r.results == Take(Filter(pool, SearchMatch(Lower(q))), 20) &&
        agent.searchCache == old(agent.searchCache)[key := Entry(r.results, now)])
    ensures agent.catalogCache == old(agent.catalogCache) && agent.enrichmentCache == old(agent.enrichmentCache)
  {
    var allItems := GatherSearchPool(manager, contentType);
    var results := agent.SearchFast(q, allItems, 20, now);
    r := FastSearchResponse(q, |results|, results);
  }

  /** The catalogs `/search` scans, concatenated in key order. */
  method GatherSearchPool(manager: CatalogManager, contentType: Option<string>) returns (allItems: seq<Item>)
    requires Loaded(manager.catalogs)
    ensures allItems == SearchPool(manager.catalogs, KeysInOrder(manager.catalogs), contentType)
  {
    KeysInOrderExact(manager.catalogs);
    allItems := ConcatCatalogs(manager.catalogs, KeysInOrder(manager.catalogs), contentType);
  }

  /** The loop over `catalogs.items()` extending `all_items` with each chosen catalog. */
  method ConcatCatalogs(cats: map<string, seq<Item>>, keys: seq<string>, contentType: Option<string>)
    returns (allItems: seq<Item>)
    requires forall k :: k in keys ==> k in cats
    ensures allItems == SearchPool(cats, keys, contentType)
  {
    allItems := [];
    var i := 0;
    while i < |keys|
      invariant 0 <= i <= |keys|
      invariant allItems == SearchPool(cats, keys[..i], contentType)
    {
      var ct := keys[i];
      assert keys[..i + 1][..i] == keys[..i];
      if contentType.None? || ct == contentType.value {
        allItems := allItems + cats[ct];
      }
      i := i + 1;
    }
    assert keys[..|keys|] == keys;
  }
}
