/**
 * The static-catalog API server: mood translation, the recommendation pipeline
 * (translate, dispatch, filter, truncate, rank, save), the tiered title search and
 * the catalog listing by type.
 */
module StaticServer {
  import opened Wrappers
  import opened Text
  import opened Sorting
  import opened Lists
  import opened CatalogAgent
  import opened HistoryDb

  /** `MOOD_MAPPING`: front-end mood labels to catalog mood tags. */
  const MoodMapping: map<string, seq<string>> := map[
    "happy" := ["fun", "wholesome", "heartwarming", "inspiring"],
    "sad" := ["emotional", "dark", "intense", "melancholic"],
    "excited" := ["thrilling", "epic", "intense", "cool"],
    "calm" := ["wholesome", "heartwarming", "beautiful", "peaceful"],
    "melancholic" := ["emotional", "dark", "thoughtful", "intense"],
    "adventurous" := ["epic", "thrilling", "intense", "cool"],
    "nostalgic" := ["beautiful", "emotional", "wholesome", "heartwarming"],
    "introspective" := ["thoughtful", "emotional", "mind-bending", "dark"]
  ]

  /** The table's eight labels, each expanding to four distinct tags. */
  lemma MoodMappingShape()
    ensures MoodMapping.Keys == {"happy", "sad", "excited", "calm", "melancholic", "adventurous", "nostalgic", "introspective"}
    ensures forall m :: m in MoodMapping ==> |MoodMapping[m]| == 4 && Distinct(MoodMapping[m])
  {
    forall m | m in MoodMapping ensures |MoodMapping[m]| == 4 && Distinct(MoodMapping[m]) {
      var tags := MoodMapping[m];
      assert |tags| == 4;
      assert tags[0] != tags[1] && tags[0] != tags[2] && tags[0] != tags[3];
      assert tags[1] != tags[2] && tags[1] != tags[3] && tags[2] != tags[3];
    }
  }

  /** What one mood contributes before dedup: its table tags, or the lower-cased label itself. */
  function ExpandMood(mood: string): seq<string> {
    var m := Lower(mood);
    if m in MoodMapping then MoodMapping[m] else [m]
  }

  /** `anime_moods` before dedup: the expansions of the requested moods, concatenated in order. */
  function ExpandMoods(moods: seq<string>): seq<string>
    decreases |moods|
  {
    if |moods| == 0 then [] else ExpandMoods(moods[..|moods| - 1]) + ExpandMood(moods[|moods| - 1])
  }

  /** A tag is in the expansion exactly when some requested mood contributes it. */
  lemma {:induction false} ExpandMoodsExact(moods: seq<string>, t: string)
    ensures t in ExpandMoods(moods) <==> exists i :: 0 <= i < |moods| && t in ExpandMood(moods[i])
    decreases |moods|
  {
    if |moods| > 0 {
      var init := moods[..|moods| - 1];
      ExpandMoodsExact(init, t);
      if exists i :: 0 <= i < |init| && t in ExpandMood(init[i]) {
        var i :| 0 <= i < |init| && t in ExpandMood(init[i]);
        assert moods[i] == init[i];
      }
      if exists i :: 0 <= i < |moods| && t in ExpandMood(moods[i]) {
        var i :| 0 <= i < |moods| && t in ExpandMood(moods[i]);
        if i < |init| {
          assert init[i] == moods[i];
        }
      }
    }
  }

  /** The mood translation loop, then `list(dict.fromkeys(anime_moods))`. */
  method TranslateMoods(moods: Option<seq<string>>) returns (r: seq<string>)
    ensures moods.Some? ==> r == Dedup(ExpandMoods(moods.value))
    ensures moods.None? ==> r == []
    ensures Distinct(r)
    ensures moods.Some? ==> forall t :: t in r <==> exists i :: 0 <= i < |moods.value| && t in ExpandMood(moods.value[i])
  {
    if moods.None? || |moods.value| == 0 {
      return [];
    }
    var ms := moods.value;
    var animeMoods: seq<string> := [];
    var i := 0;
    while i < |ms|
      invariant 0 <= i <= |ms|
      invariant animeMoods == ExpandMoods(ms[..i])
    {
      var moodLower := Lower(ms[i]);
      assert ms[..i + 1][..i] == ms[..i];
      if moodLower in MoodMapping {
        animeMoods := animeMoods + MoodMapping[moodLower];
      } else {
        animeMoods := animeMoods + [moodLower];
      }
      i := i + 1;
    }
    assert ms[..|ms|] == ms;
    r := Dedup(animeMoods);
    forall t ensures t in r <==> exists i :: 0 <= i < |ms| && t in ExpandMood(ms[i]) {
      ExpandMoodsExact(ms, t);
    }
  }

  /** A label in the table is replaced by its tags; any other mood is kept, lower-cased but not stripped. */
  lemma TranslateOne(mood: string)
    ensures Lower(mood) in MoodMapping ==> Dedup(ExpandMoods([mood])) == MoodMapping[Lower(mood)]
    ensures Lower(mood) !in MoodMapping ==> Dedup(ExpandMoods([mood])) == [Lower(mood)]
  {
    assert [mood][..0] == [];
    assert ExpandMoods([mood]) == ExpandMood(mood);
    MoodMappingShape();
    if Lower(mood) in MoodMapping {
      DedupDistinct(MoodMapping[Lower(mood)]);
    } else {
      DedupDistinct([Lower(mood)]);
    }
  }

  /** The genre part of the explanation: the joined genres, or "mixed". */
  function GenreText(genres: seq<string>): string {
    if |genres| > 0 then Join(", ", genres) else "mixed"
  }

  /** The mood part of the explanation: the joined moods, or "various". */
  function MoodText(mood: seq<string>): string {
    if |mood| > 0 then Join(", ", mood) else "various"
  }

  /**
   * `generate_explanation`'s template: it opens with the content type and the genre text
   * and closes with the mood text and " preference perfectly.".
   */
  function GenerateExplanation(contentType: string, genres: seq<string>, mood: seq<string>): (r: string)
    ensures StartsWith(r, "This " + contentType + " with " + GenreText(genres) + " genres")
    ensures EndsWith(r, "your " + MoodText(mood) + " preference perfectly.")
  {
    var head := "This " + contentType + " with " + GenreText(genres) + " genres";
    var tail := "your " + MoodText(mood) + " preference perfectly.";
    ConcatEnds(head, " matches " + tail);
    ConcatEnds(head + " matches ", tail);
    assert head + " matches " + tail == head + (" matches " + tail);
    head + " matches " + tail
  }

  /** One entry of the `recommendations` list of the response. */
  datatype Recommendation = Recommendation(
    recommendationId: string, contentId: string, title: string, contentType: string,
    genres: seq<string>, mood: seq<string>, rating: real, description: Option<string>,
    explanation: string, rank: nat, malScore: Option<real>, imdbScore: Option<real>, coverImage: Option<string>)

  /** `formatted_rec` for the item at position `i`. */
  function Format(batchId: string, i: nat, item: Item): Recommendation {
    var ct := item.contentType.GetOr("");
    Recommendation(batchId + "_" + NatToString(i), item.id, item.title, ct, item.genres, item.mood,
      item.rating, item.description, GenerateExplanation(ct, item.genres, item.mood), i + 1, None, None, None)
  }

  /** The formatted list: item `i` gets rank `i + 1` and id `batch_i`. */
  function FormatAll(batchId: string, items: seq<Item>): (r: seq<Recommendation>)
    ensures |r| == |items|
    ensures forall i :: 0 <= i < |items| ==> r[i] == Format(batchId, i, items[i])
  {
    seq(|items|, i requires 0 <= i < |items| => Format(batchId, i, items[i]))
  }

  /** The items `get_recommendations` returns, before formatting. */
  function Selection(cats: map<string, seq<Item>>, consumed: seq<string>, genres: Option<seq<string>>,
                     animeMoods: seq<string>, types: seq<string>): seq<Item>
  {
    Take(FilterOutConsumed(QueryResults(cats, genres.GetOr([]), animeMoods, Some(types)), consumed), 10)
  }

  /** The key end-to-end property: at most 10, nothing consumed, ranks 1..n, distinct ids under one batch. */
  lemma RecommendationsSafe(cats: map<string, seq<Item>>, consumed: seq<string>, genres: Option<seq<string>>,
                            animeMoods: seq<string>, types: seq<string>, batchId: string)
    ensures var recs := FormatAll(batchId, Selection(cats, consumed, genres, animeMoods, types));
      |recs| <= 10 &&
      (forall k :: 0 <= k < |recs| ==> recs[k].contentId !in consumed) &&
      (forall k :: 0 <= k < |recs| ==> recs[k].rank == k + 1) &&
      (forall k :: 0 <= k < |recs| ==> recs[k].recommendationId == batchId + "_" + NatToString(k)) &&
      (forall j, k :: 0 <= j < k < |recs| ==> recs[j].recommendationId != recs[k].recommendationId)
  {
    var filtered := FilterOutConsumed(QueryResults(cats, genres.GetOr([]), animeMoods, Some(types)), consumed);
    var sel := Selection(cats, consumed, genres, animeMoods, types);
    var recs := FormatAll(batchId, sel);
    forall k | 0 <= k < |recs| ensures recs[k].contentId !in consumed {
      assert sel[k] in filtered;
    }
    forall j, k | 0 <= j < k < |recs| ensures recs[j].recommendationId != recs[k].recommendationId {
      if recs[j].recommendationId == recs[k].recommendationId {
        SuffixedIdInjective(batchId + "_", j, k);
      }
    }
  }

  /** The rows `save_recommendation` adds for one batch, given the next row id before the batch. */
  function BatchRows(userId: string, batchId: string, recs: seq<Recommendation>, firstId: nat, now: int): (r: seq<RecRow>)
    ensures |r| == |recs|
    ensures forall k :: 0 <= k < |recs| ==> (r[k] ==
      RecRow(firstId + k, userId, batchId, recs[k].contentId, recs[k].contentType, recs[k].title, recs[k].explanation, k + 1, now, false))
  {
    seq(|recs|, k requires 0 <= k < |recs| =>
      RecRow(firstId + k, userId, batchId, recs[k].contentId, recs[k].contentType, recs[k].title, recs[k].explanation, k + 1, now, false))
  }

  /** `FormatAll` grows by one formatted item per loop step. */
  lemma FormatAllSnoc(batchId: string, items: seq<Item>, i: nat)
    requires i < |items|
    ensures FormatAll(batchId, items[..i + 1]) == FormatAll(batchId, items[..i]) + [Format(batchId, i, items[i])]
  {
    assert items[..i + 1][..i] == items[..i];
  }

  /** `BatchRows` grows by one row, numbered after the earlier ones, per saved item. */
  lemma BatchRowsSnoc(userId: string, batchId: string, recs: seq<Recommendation>, rec: Recommendation, firstId: nat, now: int)
    ensures BatchRows(userId, batchId, recs + [rec], firstId, now) == BatchRows(userId, batchId, recs, firstId, now) +
      [RecRow(firstId + |recs|, userId, batchId, rec.contentId, rec.contentType, rec.title, rec.explanation, |recs| + 1, now, false)]
  {
    assert (recs + [rec])[|recs|] == rec;
  }

  /** With a fresh batch id, querying that batch afterwards yields exactly the saved rows, ranks 1..n. */
  lemma BatchQueryFindsBatch(before: seq<RecRow>, userId: string, batchId: string, recs: seq<Recommendation>,
                             firstId: nat, now: int)
    requires batchId != ""
    requires forall k :: 0 <= k < |before| ==> before[k].batchId != batchId
    ensures Filter(before + BatchRows(userId, batchId, recs, firstId, now), RecsOf(userId, Some(batchId))) ==
      BatchRows(userId, batchId, recs, firstId, now)
  {
    var rows := BatchRows(userId, batchId, recs, firstId, now);
    FilterConcat(before, rows, RecsOf(userId, Some(batchId)));
    FilterNone(before, RecsOf(userId, Some(batchId)));
    FilterAll(rows, RecsOf(userId, Some(batchId)));
  }

  lemma {:induction false} FilterNone(rows: seq<RecRow>, p: RecRow -> bool)
    requires forall k :: 0 <= k < |rows| ==> !p(rows[k])
    ensures Filter(rows, p) == []
    decreases |rows|
  {
    if |rows| > 0 {
      FilterNone(rows[1..], p);
    }
  }

  /** The response of a successful `/recommendations` call. */
  datatype RecommendationResponse = RecommendationResponse(
    userId: string, sessionId: string, count: nat, recommendations: seq<Recommendation>)

  /**
   * `get_recommendations`: a missing user is created first; an empty type list is then
   * rejected with 400; otherwise the formatted selection is returned and saved row by row.
   */
  method GetRecommendations(db: HistoryDatabase, manager: CatalogManager, userId: string,
                            genres: Option<seq<string>>, moods: Option<seq<string>>, types: seq<string>,
                            batchId: string, now: int)
    returns (r: Result<RecommendationResponse, HttpError>)
    requires db.Valid()
    modifies db
    ensures db.Valid()
    ensures old(db.GetUser(userId)).None? ==> db.users == old(db.users) + [UserRow(userId, now, now, map[])]
    ensures old(db.GetUser(userId)).Some? ==> db.users == old(db.users)
    ensures db.history == old(db.history)
    ensures |types| == 0 ==> (r == Failure(HttpError(400, "content_types must be specified")) &&
      db.recommendations == old(db.recommendations))
    ensures |types| > 0 ==> (r.Success? &&
      var animeMoods := if moods.Some? then Dedup(ExpandMoods(moods.value)) else [];
      var recs := FormatAll(batchId, Selection(manager.catalogs, old(db.GetConsumedIds(userId)), genres, animeMoods, types));
      r.value == RecommendationResponse(userId, batchId, |recs|, recs) &&
      db.recommendations == old(db.recommendations) + BatchRows(userId, batchId, recs, old(db.nextRecId), now))
  {
    var user := db.GetUser(userId);
    if user.None? {
      FilterAll(db.users, NotUser(userId));
      db.CreateUser(userId, None, now);
    }
    if |types| == 0 {
      return Failure(HttpError(400, "content_types must be specified"));
    }
    var consumed := db.GetConsumedIds(userId);
    var animeMoods := TranslateMoods(moods);
    var results := RunQuery(manager, genres.GetOr([]), animeMoods, Some(types));
    var filtered := FilterOutConsumed(results, consumed);
    var selected := Take(filtered, 10);
    var formatted := SaveBatch(db, userId, batchId, selected, now);
    r := Success(RecommendationResponse(userId, batchId, |formatted|, formatted));
  }

  /** The formatting loop of `get_recommendations`: each item is formatted and saved with rank `i + 1`. */
  method SaveBatch(db: HistoryDatabase, userId: string, batchId: string, selected: seq<Item>, now: int)
    returns (formatted: seq<Recommendation>)
    requires db.Valid()
    modifies db
    ensures db.Valid()
    ensures formatted == FormatAll(batchId, selected)
    ensures db.recommendations == old(db.recommendations) + BatchRows(userId, batchId, formatted, old(db.nextRecId), now)
    ensures db.users == old(db.users) && db.history == old(db.history)
  {
    formatted := [];
    var i := 0;
    while i < |selected|
      invariant 0 <= i <= |selected|
      invariant db.Valid()
      invariant formatted == FormatAll(batchId, selected[..i])
      invariant db.recommendations == old(db.recommendations) + BatchRows(userId, batchId, formatted, old(db.nextRecId), now)
      invariant db.nextRecId == old(db.nextRecId) + i
      invariant db.users == old(db.users) && db.history == old(db.history)
    {
      var rec := Format(batchId, i, selected[i]);
      FormatAllSnoc(batchId, selected, i);
      BatchRowsSnoc(userId, batchId, formatted, rec, old(db.nextRecId), now);
      formatted := formatted + [rec];
      db.SaveRecommendation(userId, batchId, rec.contentId, rec.contentType, rec.title, rec.explanation, i + 1, now);
      i := i + 1;
    }
    assert selected[..|selected|] == selected;
  }

  /** One entry of the `/catalog/{content_type}` listing. */
  datatype CatalogEntry = CatalogEntry(
    id: string, title: string, contentType: string, genres: seq<string>, mood: seq<string>,
    description: Option<string>, ratingScore: real, explanation: string, userRating: int)

  /** `content_type.replace('-', '_').lower()`. */
  function CatalogKey(contentType: string): string {
    Lower(ReplaceChar(contentType, '-', '_'))
  }

  /** The listing entry of one stored item. */
  function Entry(key: string, item: Item): CatalogEntry {
    CatalogEntry(item.id, item.title, key, item.genres, item.mood, item.description, item.rating,
      "Part of our " + key + " collection", 0)
  }

  /** `get_catalog_by_type`: 404 for an unknown category, else one entry per stored item, in order. */
  method GetCatalogByType(manager: CatalogManager, contentType: string) returns (r: Result<seq<CatalogEntry>, HttpError>)
    ensures CatalogKey(contentType) !in manager.catalogs <==> r.Failure?
    ensures r.Failure? ==> r.error == HttpError(404, "Content type " + contentType + " not found")
    ensures r.Success? ==>
      var catalog := manager.catalogs[CatalogKey(contentType)];
      |r.value| == |catalog| &&
      forall k :: 0 <= k < |catalog| ==> r.value[k] == Entry(CatalogKey(contentType), catalog[k])
  {
    var key := CatalogKey(contentType);
    if key !in manager.catalogs {
      return Failure(HttpError(404, "Content type " + contentType + " not found"));
    }
    var catalog := manager.catalogs[key];
    var entries: seq<CatalogEntry> := [];
    var i := 0;
    while i < |catalog|
      invariant 0 <= i <= |catalog|
      invariant |entries| == i
      invariant forall k :: 0 <= k < i ==> entries[k] == Entry(key, catalog[k])
    {
      entries := entries + [Entry(key, catalog[i])];
      i := i + 1;
    }
    r := Success(entries);
  }

  /** `query in title or title.startswith(query)` on the lower-cased title. */
  function TitleMatch(query: string): Item -> bool {
    (item: Item) => Contains(Lower(item.title), query) || StartsWith(Lower(item.title), query)
  }

  /** The first component of `sort_key`: 0 exact, 1 prefix, 2 otherwise. */
  function Tier(query: string, title: string): nat {
    var t := Lower(title);
    if t == query then 0 else if StartsWith(t, query) then 1 else 2
  }

  /** Comparison of `sort_key` tuples: tier first, then the lower-cased title. */
  predicate TierLe(query: string, a: Item, b: Item) {
    Tier(query, a.title) < Tier(query, b.title) ||
    (Tier(query, a.title) == Tier(query, b.title) && LexLe(Lower(a.title), Lower(b.title)))
  }

  function ByTier(query: string): (Item, Item) -> bool {
    (a: Item, b: Item) => TierLe(query, a, b)
  }

  lemma ByTierTotalPreorder(query: string)
    ensures TotalPreorder(ByTier(query))
  {
    forall a: Item, b: Item ensures ByTier(query)(a, b) || ByTier(query)(b, a) {
      LexLeTotal(Lower(a.title), Lower(b.title));
    }
    forall a: Item, b: Item, c: Item | ByTier(query)(a, b) && ByTier(query)(b, c)
      ensures ByTier(query)(a, c)
    {
      if Tier(query, a.title) == Tier(query, b.title) == Tier(query, c.title) {
        LexLeTransitive(Lower(a.title), Lower(b.title), Lower(c.title));
      }
    }
  }

  /** One entry of the search results. */
  datatype SearchHit = SearchHit(
    contentId: string, title: string, contentType: string, genres: seq<string>, description: string,
    malScore: real, coverImage: Option<string>, episodes: Option<int>, status: Option<string>)

  /** The hit built from a matched item (stamped with its category). */
  function ToHit(item: Item): SearchHit {
    SearchHit(item.id, item.title, item.contentType.GetOr(""), item.genres, item.description.GetOr(""),
      item.rating, None, item.episodes, item.status)
  }

  function ToHits(items: seq<Item>): (r: seq<SearchHit>)
    ensures |r| == |items| && forall k :: 0 <= k < |items| ==> r[k] == ToHit(items[k])
  {
    seq(|items|, k requires 0 <= k < |items| => ToHit(items[k]))
  }

  /** The matched items of every catalog in key order, sorted by `sort_key`. */
  function Ranked(cats: map<string, seq<Item>>, query: string): seq<Item> {
    SortBy(Collect(cats, KeysInOrder(cats), TitleMatch(query)), ByTier(query))
  }

  /** A collected item is a stamped catalog item whose lower-cased title contains the query. */
  lemma CollectedMatches(cats: map<string, seq<Item>>, keys: seq<string>, query: string, x: Item)
    requires forall k :: k in keys ==> k in cats
    requires x in Collect(cats, keys, TitleMatch(query))
    ensures Contains(Lower(x.title), query)
  {
    CollectExact(cats, keys, TitleMatch(query), x);
    var n :| 0 <= n < |keys| && IsHitIn(cats[keys[n]], keys[n], TitleMatch(query), x);
    var catalog := cats[keys[n]];
    var m :| 0 <= m < |catalog| && TitleMatch(query)(catalog[m]) && x == Stamp(catalog[m], keys[n]);
    var t := Lower(catalog[m].title);
    assert Contains(t, query) || StartsWith(t, query);
    assert Lower(x.title) == t;
  }

  /**
   * `sort_key` order: every ranked item's lower-cased title contains the query, the ranked list
   * is a permutation of the collected matches, the tiers never go back down, and within a tier
   * the lower-cased titles ascend.
   */
  lemma RankedOrder(cats: map<string, seq<Item>>, query: string)
    ensures forall x :: x in Ranked(cats, query) ==> Contains(Lower(x.title), query)
    ensures multiset(Ranked(cats, query)) == multiset(Collect(cats, KeysInOrder(cats), TitleMatch(query)))
    ensures Sorted(Ranked(cats, query), ByTier(query))
    ensures forall j, k :: 0 <= j < k < |Ranked(cats, query)| ==>
      Tier(query, Ranked(cats, query)[j].title) <= Tier(query, Ranked(cats, query)[k].title)
    ensures forall j, k :: (0 <= j < k < |Ranked(cats, query)| &&
      Tier(query, Ranked(cats, query)[j].title) == Tier(query, Ranked(cats, query)[k].title)) ==>
      LexLe(Lower(Ranked(cats, query)[j].title), Lower(Ranked(cats, query)[k].title))
  {
    var collected := Collect(cats, KeysInOrder(cats), TitleMatch(query));
    var r := Ranked(cats, query);
    ByTierTotalPreorder(query);
    SortByFacts(collected, ByTier(query));
    forall x | x in r ensures Contains(Lower(x.title), query) {
      CollectedMatches(cats, KeysInOrder(cats), query, x);
    }
    forall j, k | 0 <= j < k < |r| ensures TierLe(query, r[j], r[k]) {
      assert ByTier(query)(r[j], r[k]);
    }
  }

  /** Every item of a loaded catalog whose lower-cased title contains the query is ranked, stamped with its category. */
  lemma RankedComplete(cats: map<string, seq<Item>>, query: string)
    requires Loaded(cats)
    ensures forall k, m :: k in cats && 0 <= m < |cats[k]| && Contains(Lower(cats[k][m].title), query) ==>
      Stamp(cats[k][m], k) in Ranked(cats, query)
  {
    var keys := KeysInOrder(cats);
    var collected := Collect(cats, keys, TitleMatch(query));
    KeysInOrderExact(cats);
    ByTierTotalPreorder(query);
    SortByPermutation(collected, ByTier(query));
    forall k, m | k in cats && 0 <= m < |cats[k]| && Contains(Lower(cats[k][m].title), query)
      ensures Stamp(cats[k][m], k) in Ranked(cats, query)
    {
      var x := Stamp(cats[k][m], k);
      var n :| 0 <= n < |keys| && keys[n] == k;
      assert TitleMatch(query)(cats[k][m]);
      assert IsHitIn(cats[keys[n]], keys[n], TitleMatch(query), x);
      CollectExact(cats, keys, TitleMatch(query), x);
      assert x in multiset(collected);
    }
  }

  /** The response of `/search`. */
  datatype SearchResponse = SearchResponse(query: string, results: seq<SearchHit>, fromCache: bool, count: nat)

  /**
   * `search`: an empty query is raised as 400 inside the handler's `try`, so it reaches the
   * client re-wrapped as 500; otherwise the ranked hits, cut with Python's `[:limit]`.
   */
  method Search(manager: CatalogManager, q: string, limit: int) returns (r: Result<SearchResponse, HttpError>)
    ensures Strip(Lower(q)) == "" <==> r.Failure?
    ensures r.Failure? ==> r.error == HttpError(500, "Search error: 400: Search query cannot be empty")
    ensures r.Success? ==>
      var hits := ToHits(PyPrefix(Ranked(manager.catalogs, Strip(Lower(q))), limit));
      r.value == SearchResponse(q, hits, false, |hits|)
  {
    var query := Strip(Lower(q));
    if query == "" {
      return Failure(HttpError(500, "Search error: 400: Search query cannot be empty"));
    }
    var keys := KeysInOrder(manager.catalogs);
    var results := manager.Gather(keys, TitleMatch(query));
    var sorted := SortBy(results, ByTier(query));
    var hits := ToHits(PyPrefix(sorted, limit));
    r := Success(SearchResponse(q, hits, false, |hits|));
  }
}
