/**
 * The live-data server: each requested type gets a search query (a requested genre, the
 * genre of the first known mood, or a random per-type query), the MAL and IMDb searches
 * are oracles, the results are formatted and kept only when rated at least 6.0, and a
 * shuffled selection is ranked and appended to the user's history. Anime searches are
 * memoised in an insertion-ordered cache.
 */
module RealData {
  import opened Wrappers
  import opened Text
  import opened Lists
  import ServerV2

  // ---------------------------------------------------------------- raw API records

  /** The `node` of a MAL search result; a missing key is `None` and read with the source's default. */
  datatype MalNode = MalNode(
    id: Option<int>, title: Option<string>, genres: seq<string>, mean: Option<real>,
    synopsis: Option<string>, mediumUrl: Option<string>, numEpisodes: Option<int>, status: Option<string>)

  /**
   * One OMDb record. `rating` is what `float(imdbRating)` gives (a missing key reads "0",
   * so 0.0), or `None` when the conversion raises.
   */
  datatype ImdbRecord = ImdbRecord(
    title: Option<string>, rating: Option<real>, imdbId: Option<string>, kind: Option<string>,
    plot: Option<string>, poster: Option<string>, year: Option<string>)

  /** A raw search result of either API. */
  datatype RawItem = Mal(node: MalNode) | Imdb(record: ImdbRecord)

  /**
   * One element of MAL's `data` list as `search_anime` sees it: the empty dict, which the
   * formatter rejects as falsy, or a non-empty dict whose `node` (an empty dict when the key
   * is absent) is `node`.
   */
  datatype MalEntry = EmptyEntry | Listed(node: MalNode)

  /** What an awaited fetch gives: an exception, or a (possibly empty) list. */
  datatype Outcome<T> = Raised(message: string) | Got(items: seq<T>)

  /** One formatted recommendation (`recommendation_id` and `rank` are added at selection). */
  datatype RealRec = RealRec(
    contentId: string, title: string, contentType: string, genres: seq<string>, rating: real,
    malScore: Option<real>, imdbScore: Option<real>, description: string, coverImage: string,
    episodes: Option<int>, status: Option<string>, year: Option<string>)

  // ---------------------------------------------------------------- queries

  /** The per-type query lists of `get_random_query`; any other type searches "popular". */
  function RandomQueries(contentType: string): (r: seq<string>)
    ensures |r| >= 1
  {
    if contentType == "anime" then
      ["action", "romance", "fantasy", "mystery", "thriller", "comedy", "horror", "supernatural", "school",
       "adventure", "psychological", "slice of life", "isekai", "mecha", "sports"]
    else if contentType == "manga" then
      ["thriller", "mystery", "romance", "fantasy", "action", "psychological", "horror", "adventure",
       "slice of life", "comedy", "drama", "shounen"]
    else if contentType == "movies" then
      ["thriller", "action", "drama", "sci-fi", "fantasy", "horror", "comedy", "adventure", "mystery", "romance"]
    else if contentType == "web_series" then
      ["thriller", "drama", "sci-fi", "fantasy", "comedy", "horror", "adventure", "mystery", "psychological"]
    else ["popular"]
  }

  /** The list sizes (15, 12, 10 and 9), and "popular" alone for every other type. */
  lemma RandomQueryTable(contentType: string)
    ensures contentType == "anime" ==> |RandomQueries(contentType)| == 15
    ensures contentType == "manga" ==> |RandomQueries(contentType)| == 12
    ensures contentType == "movies" ==> |RandomQueries(contentType)| == 10
    ensures contentType == "web_series" ==> |RandomQueries(contentType)| == 9
    ensures contentType !in {"anime", "manga", "movies", "web_series"} ==> RandomQueries(contentType) == ["popular"]
  {
  }

  /** `get_random_query`: `random.choice` of the type's list. */
  method GetRandomQuery(contentType: string) returns (q: string)
    ensures q in RandomQueries(contentType)
    ensures contentType !in {"anime", "manga", "movies", "web_series"} ==> q == "popular"
  {
    var list := RandomQueries(contentType);
    var i :| 0 <= i < |list|;
    q := list[i];
  }

  /** `mood_to_genre`. */
  const MoodToGenre: map<string, string> := map[
    "happy" := "comedy", "sad" := "drama", "excited" := "action", "relaxed" := "slice of life",
    "tense" := "thriller", "romantic" := "romance", "thoughtful" := "psychological", "adventurous" := "adventure"]

  /** The genre of the first mood whose lower-cased form is a key of `mood_to_genre`. */
  function FirstMoodGenre(moods: seq<string>): Option<string>
    decreases |moods|
  {
    if |moods| == 0 then None
    else if Lower(moods[0]) in MoodToGenre then Some(MoodToGenre[Lower(moods[0])])
    else FirstMoodGenre(moods[1..])
  }

  /** `FirstMoodGenre` finds the first known mood, and finds none exactly when no mood is known. */
  lemma {:induction false} FirstMoodGenreSpec(moods: seq<string>)
    ensures FirstMoodGenre(moods).None? <==> forall k :: 0 <= k < |moods| ==> Lower(moods[k]) !in MoodToGenre
    ensures FirstMoodGenre(moods).Some? ==> exists k :: (
      0 <= k < |moods| && Lower(moods[k]) in MoodToGenre &&
      FirstMoodGenre(moods).value == MoodToGenre[Lower(moods[k])] &&
      forall j :: 0 <= j < k ==> Lower(moods[j]) !in MoodToGenre)
    decreases |moods|
  {
    if |moods| > 0 {
      FirstMoodGenreSpec(moods[1..]);
      if Lower(moods[0]) in MoodToGenre {
        assert 0 < |moods| && Lower(moods[0]) in MoodToGenre;
      } else {
        assert forall k :: 1 <= k < |moods| ==> moods[k] == moods[1..][k - 1];
        if FirstMoodGenre(moods[1..]).Some? {
          var k :| 0 <= k < |moods[1..]| && Lower(moods[1..][k]) in MoodToGenre &&
            FirstMoodGenre(moods[1..]).value == MoodToGenre[Lower(moods[1..][k])] &&
            forall j :: 0 <= j < k ==> Lower(moods[1..][j]) !in MoodToGenre;
          assert moods[k + 1] == moods[1..][k];
          forall j | 0 <= j < k + 1 ensures Lower(moods[j]) !in MoodToGenre {
            if j > 0 {
              assert moods[j] == moods[1..][j - 1];
            }
          }
        }
      }
    }
  }

  /** The genre a known mood stands for is always one of the anime queries too. */
  lemma MoodGenresAreAnimeQueries(moods: seq<string>)
    requires FirstMoodGenre(moods).Some?
    ensures FirstMoodGenre(moods).value in RandomQueries("anime") + ["drama"]
  {
    FirstMoodGenreSpec(moods);
  }

  /** What `get_smart_query` may answer for one type. */
  predicate SmartQueryOk(contentType: string, genres: seq<string>, moods: seq<string>, q: string) {
    (|genres| > 0 ==> q in genres) &&
    (|genres| == 0 && FirstMoodGenre(moods).Some? ==> q == FirstMoodGenre(moods).value) &&
    (|genres| == 0 && FirstMoodGenre(moods).None? ==> q in RandomQueries(contentType))
  }

  /**
   * `get_smart_query`: a random requested genre when any are given; otherwise the genre of
   * the first known mood; otherwise a random query for the type.
   */
  method GetSmartQuery(contentType: string, genres: seq<string>, moods: seq<string>) returns (q: string)
    ensures |genres| > 0 ==> q in genres
    ensures |genres| == 0 && FirstMoodGenre(moods).Some? ==> q == FirstMoodGenre(moods).value
    ensures |genres| == 0 && FirstMoodGenre(moods).None? ==> q in RandomQueries(contentType)
  {
    if |genres| > 0 {
      var i :| 0 <= i < |genres|;
      return genres[i];
    }
    var k := 0;
    while k < |moods|
      invariant 0 <= k <= |moods|
      invariant FirstMoodGenre(moods) == FirstMoodGenre(moods[k..])
    {
      assert moods[k..][1..] == moods[k + 1..];
      var m := Lower(moods[k]);
      if m in MoodToGenre {
        return MoodToGenre[m];
      }
      k := k + 1;
    }
    q := GetRandomQuery(contentType);
  }

  // ---------------------------------------------------------------- formatting

  /** An f-string renders a missing id as `None`. */
  function IdText(id: Option<int>): string {
    if id.None? then "None" else IntToString(id.value)
  }

  /** `exclude_titles and title.lower() in [t.lower() for t in exclude_titles]`. */
  predicate Excluded(title: string, exclude: seq<string>) {
    |exclude| > 0 && Lower(title) in LowerAll(exclude)
  }

  /** `format_anime_recommendation` / `format_manga_recommendation`: `prefix` is "anime" or "manga". */
  function FormatMal(prefix: string, n: MalNode, exclude: seq<string>): (r: Option<RealRec>)
    ensures r.None? <==> Excluded(n.title.GetOr(""), exclude)
    ensures r.Some? ==> (
      StartsWith(r.value.contentId, prefix + "_") && r.value.contentId == prefix + "_" + IdText(n.id) &&
      r.value.contentType == prefix &&
      r.value.rating == n.mean.GetOr(0.0) && r.value.malScore == Some(r.value.rating) && r.value.title == n.title.GetOr(""))
    ensures r.Some? ==> (
      r.value.genres == n.genres && r.value.imdbScore.None? && r.value.year.None? &&
      r.value.description == n.synopsis.GetOr("") && r.value.coverImage == n.mediumUrl.GetOr("") &&
      r.value.status == Some(n.status.GetOr("")) &&
      (r.value.episodes.Some? <==> prefix == "anime") && (prefix == "anime" ==> r.value.episodes == Some(n.numEpisodes.GetOr(0))))
  {
    var title := n.title.GetOr("");
    if Excluded(title, exclude) then None
    else
      ConcatEnds(prefix + "_", IdText(n.id));
      Some(RealRec(prefix + "_" + IdText(n.id), title, prefix, n.genres, n.mean.GetOr(0.0), Some(n.mean.GetOr(0.0)), None,
        n.synopsis.GetOr(""), n.mediumUrl.GetOr(""),
        if prefix == "anime" then Some(n.numEpisodes.GetOr(0)) else None,
        Some(n.status.GetOr("")), None))
  }

  function FormatAnime(n: MalNode, exclude: seq<string>): Option<RealRec> {
    FormatMal("anime", n, exclude)
  }

  /** With no exclusions a node always formats: its anime record. */
  function AnimeRecord(n: MalNode): RealRec {
    FormatAnime(n, []).value
  }

  /** `format_anime_recommendation(item, [])` on a raw entry: `None` for the empty dict. */
  function FormatEntry(e: MalEntry): (r: Option<RealRec>)
    ensures r.None? <==> e.EmptyEntry?
    ensures e.Listed? ==> r == FormatAnime(e.node, [])
  {
    match e
    case EmptyEntry => None
    case Listed(n) => Some(AnimeRecord(n))
  }

  function FormatManga(n: MalNode, exclude: seq<string>): Option<RealRec> {
    FormatMal("manga", n, exclude)
  }

  /** Anime ids are `anime_{id}`, manga ids `manga_{id}`: the same MAL id never gives the same content id for both. */
  lemma AnimeAndMangaIdsDiffer(a: MalNode, m: MalNode, exclude: seq<string>)
    requires FormatAnime(a, exclude).Some? && FormatManga(m, exclude).Some?
    ensures FormatAnime(a, exclude).value.contentId != FormatManga(m, exclude).value.contentId
  {
    var x, y := FormatAnime(a, exclude).value.contentId, FormatManga(m, exclude).value.contentId;
    assert x[0] == 'a' && y[0] == 'm';
  }

  /** `format_imdb_recommendation`: the rating falls back to 0 when it does not parse. */
  function FormatImdb(d: ImdbRecord, contentType: string, exclude: seq<string>): (r: Option<RealRec>)
    ensures r.None? <==> Excluded(d.title.GetOr(""), exclude)
    ensures r.Some? ==> (
      r.value.contentType == contentType && r.value.contentId == d.imdbId.GetOr("") &&
      r.value.rating == d.rating.GetOr(0.0) && r.value.imdbScore == Some(r.value.rating) &&
      Join(",", r.value.genres) == d.kind.GetOr(""))
  {
    var title := d.title.GetOr("");
    if Excluded(title, exclude) then None
    else
      SplitJoin(d.kind.GetOr(""), ',');
      Some(RealRec(d.imdbId.GetOr(""), title, contentType, Split(d.kind.GetOr(""), ','), d.rating.GetOr(0.0), None,
        Some(d.rating.GetOr(0.0)), d.plot.GetOr(""), d.poster.GetOr(""), None, None, Some(d.year.GetOr(""))))
  }

  // ---------------------------------------------------------------- processing

  /** The types that get a fetch task. */
  predicate Supported(contentType: string) {
    contentType in {"anime", "manga", "movies", "web_series", "tv_series"}
  }

  function IsSupported(): string -> bool {
    (ct: string) => Supported(ct)
  }

  /** A planned (type, query) pair gets a fetch task when its type is supported. */
  function SupportedTask(): ((string, string)) -> bool {
    (t: (string, string)) => Supported(t.0)
  }

  /** The (type, query) pairs that get a task, in request order. */
  function Tasks(queries: seq<(string, string)>): seq<(string, string)> {
    Filter(queries, SupportedTask())
  }

  /** `asyncio.gather` over the tasks: one outcome per task, in task order. */
  function FetchAll(tasks: seq<(string, string)>, fetch: (string, string) -> Outcome<RawItem>): (r: seq<Outcome<RawItem>>)
    ensures |r| == |tasks| && forall j :: 0 <= j < |tasks| ==> r[j] == fetch(tasks[j].0, tasks[j].1)
  {
    seq(|tasks|, j requires 0 <= j < |tasks| => fetch(tasks[j].0, tasks[j].1))
  }

  /** Planning one more pair adds its fetch exactly when its type is supported. */
  lemma PlanStep(queries: seq<(string, string)>, t: (string, string), fetch: (string, string) -> Outcome<RawItem>)
    ensures FetchAll(Tasks(queries + [t]), fetch) ==
      FetchAll(Tasks(queries), fetch) + (if Supported(t.0) then [fetch(t.0, t.1)] else [])
  {
    FilterConcat(queries, [t], SupportedTask());
    assert [t][1..] == [];
    assert Filter([t], SupportedTask()) == (if Supported(t.0) then [t] else []);
  }

  /** The task of index `j` is the `j`-th supported requested type: one task per supported type. */
  lemma {:induction false} TaskTypes(types: seq<string>, queries: seq<(string, string)>)
    requires |queries| == |types| && forall i :: 0 <= i < |types| ==> queries[i].0 == types[i]
    ensures |Tasks(queries)| == |Filter(types, IsSupported())|
    ensures forall j :: 0 <= j < |Tasks(queries)| ==> Tasks(queries)[j].0 == Filter(types, IsSupported())[j]
    decreases |types|
  {
    if |types| > 0 {
      TaskTypes(types[1..], queries[1..]);
      assert Tasks(queries) == (if Supported(types[0]) then [queries[0]] else []) + Tasks(queries[1..]);
      assert Filter(types, IsSupported()) == (if Supported(types[0]) then [types[0]] else []) + Filter(types[1..], IsSupported());
    }
  }

  /**
   * The per-item step of the processing loop for `contentType`: MAL results need a mean of at
   * least 6.0, IMDb results a parsed rating of at least 6.0; a record of the other API reads its
   * rating as 0 and is dropped; a record that formats to None is dropped.
   */
  function ProcessItem(contentType: string, item: RawItem, exclude: seq<string>): Option<RealRec> {
    if contentType == "anime" || contentType == "manga" then
      if item.Mal? && item.node.mean.GetOr(0.0) >= 6.0 then FormatMal(contentType, item.node, exclude) else None
    else if contentType == "movies" || contentType == "web_series" || contentType == "tv_series" then
      if item.Imdb? && item.record.rating.Some? && item.record.rating.value >= 6.0 then
        FormatImdb(item.record, if contentType == "movies" then "movies" else "web_series", exclude)
      else None
    else None
  }

  /** What one fetch outcome contributes under `contentType`: nothing for an exception or an empty list. */
  function ProcessResult(contentType: string, items: seq<RawItem>, exclude: seq<string>): seq<RealRec>
    decreases |items|
  {
    if |items| == 0 then []
    else
      var last := ProcessItem(contentType, items[|items| - 1], exclude);
      ProcessResult(contentType, items[..|items| - 1], exclude) + (if last.Some? then [last.value] else [])
  }

  function OutcomeItems(o: Outcome<RawItem>): seq<RawItem> {
    if o.Raised? then [] else o.items
  }

  /** Results paired with the types they were fetched for. */
  function ProcessPaired(types: seq<string>, results: seq<Outcome<RawItem>>, exclude: seq<string>): seq<RealRec>
    requires |types| == |results|
    decreases |types|
  {
    if |types| == 0 then []
    else
      var n := |types| - 1;
      ProcessPaired(types[..n], results[..n], exclude) + ProcessResult(types[n], OutcomeItems(results[n]), exclude)
  }

  /**
   * The loop as written: the i-th result is processed under the i-th REQUESTED type, although
   * results exist only for the supported types, so a leading unsupported type shifts every
   * later result onto the wrong type (and the loop stops when the results run out).
   */
  function ProcessAsWritten(types: seq<string>, results: seq<Outcome<RawItem>>, exclude: seq<string>): seq<RealRec> {
    var n := Min(|types|, |results|);
    ProcessPaired(types[..n], results[..n], exclude)
  }

  /** The intended pairing: each result with the type of the task that produced it. */
  function ProcessCorrected(types: seq<string>, results: seq<Outcome<RawItem>>, exclude: seq<string>): (r: seq<RealRec>)
    requires |Filter(types, IsSupported())| == |results|
    ensures forall x :: x in r ==> x.rating >= 6.0 && !Excluded(x.title, exclude)
    ensures forall x :: x in r ==> x.contentType in {"anime", "manga", "movies", "web_series"}
  {
    var taskTypes := Filter(types, IsSupported());
    assert forall x :: x in ProcessPaired(taskTypes, results, exclude) ==>
        x.rating >= 6.0 && !Excluded(x.title, exclude) && x.contentType in {"anime", "manga", "movies", "web_series"} by {
      forall x | x in ProcessPaired(taskTypes, results, exclude)
        ensures x.rating >= 6.0 && !Excluded(x.title, exclude) && x.contentType in {"anime", "manga", "movies", "web_series"}
      {
        ProcessPairedQuality(taskTypes, results, exclude, x);
      }
    }
    ProcessPaired(taskTypes, results, exclude)
  }

  /** An anime search result rated 8. */
  const SampleAnime: RawItem := Mal(MalNode(Some(1), Some("Frieren"), ["Fantasy"], Some(8.0), None, None, None, None))

  /**
   * Requesting ["novels", "anime"] runs one task (anime). As written its result is read as the
   * novels result and dropped, so nothing is recommended; paired with its task it yields the anime.
   */
  lemma MisalignedResultsLost()
    ensures Filter(["novels", "anime"], IsSupported()) == ["anime"]
    ensures ProcessAsWritten(["novels", "anime"], [Got([SampleAnime])], []) == []
    ensures |ProcessCorrected(["novels", "anime"], [Got([SampleAnime])], [])| == 1
  {
    var types := ["novels", "anime"];
    var results := [Got([SampleAnime])];
    assert types[..1] == ["novels"];
    assert results[..1] == results;
    assert ProcessResult("novels", [SampleAnime], []) == [];
    assert Filter(types, IsSupported()) == ["anime"] by {
      assert types == ["novels"] + ["anime"];
      FilterConcat(["novels"], ["anime"], IsSupported());
    }
    SampleAnimeKept(results);
  }

  /** Paired with its own task, the sample anime result yields exactly one recommendation. */
  lemma SampleAnimeKept(results: seq<Outcome<RawItem>>)
    requires results == [Got([SampleAnime])]
    ensures |ProcessPaired(["anime"], results, [])| == 1
  {
    var items := [SampleAnime];
    var one := ProcessResult("anime", items, []);
    var rec := ProcessItem("anime", SampleAnime, []);
    assert items[..|items| - 1] == [] && items[|items| - 1] == SampleAnime;
    assert rec == FormatMal("anime", SampleAnime.node, []) && rec.Some?;
    assert one == ProcessResult("anime", [], []) + [rec.value];
    assert ProcessPaired(["anime"], results, []) == ProcessPaired([], [], []) + one;
  }

  /** When every requested type is supported the two pairings agree. */
  lemma AlignedWhenAllSupported(types: seq<string>, results: seq<Outcome<RawItem>>, exclude: seq<string>)
    requires forall i :: 0 <= i < |types| ==> Supported(types[i])
    requires |types| == |results|
    ensures |Filter(types, IsSupported())| == |results|
    ensures ProcessCorrected(types, results, exclude) == ProcessAsWritten(types, results, exclude)
  {
    FilterAll(types, IsSupported());
    assert types[..|types|] == types && results[..|results|] == results;
  }

  /** Everything the processing keeps was rated at least 6.0 and has the type it was fetched for. */
  lemma {:induction false} ProcessResultQuality(contentType: string, items: seq<RawItem>, exclude: seq<string>, x: RealRec)
    requires x in ProcessResult(contentType, items, exclude)
    ensures x.rating >= 6.0
    ensures x.contentType == (if contentType == "tv_series" then "web_series" else contentType)
    ensures !Excluded(x.title, exclude)
    decreases |items|
  {
    var n := |items| - 1;
    var last := ProcessItem(contentType, items[n], exclude);
    if x in ProcessResult(contentType, items[..n], exclude) {
      ProcessResultQuality(contentType, items[..n], exclude, x);
    } else {
      assert last.Some? && x == last.value;
      var item := items[n];
      if item.Mal? {
        assert !Excluded(item.node.title.GetOr(""), exclude);
      } else {
        assert !Excluded(item.record.title.GetOr(""), exclude);
      }
    }
  }

  lemma {:induction false} ProcessPairedQuality(types: seq<string>, results: seq<Outcome<RawItem>>, exclude: seq<string>, x: RealRec)
    requires |types| == |results|
    requires x in ProcessPaired(types, results, exclude)
    ensures x.rating >= 6.0 && !Excluded(x.title, exclude)
    ensures x.contentType in {"anime", "manga", "movies", "web_series"}
    decreases |types|
  {
    var n := |types| - 1;
    if x in ProcessPaired(types[..n], results[..n], exclude) {
      ProcessPairedQuality(types[..n], results[..n], exclude, x);
    } else {
      ProcessResultQuality(types[n], OutcomeItems(results[n]), exclude, x);
      assert x in ProcessResult(types[n], OutcomeItems(results[n]), exclude);
      if !(types[n] in {"anime", "manga", "movies", "web_series", "tv_series"}) {
        ProcessResultEmpty(types[n], OutcomeItems(results[n]), exclude);
      }
    }
  }

  /** A type without a branch contributes nothing. */
  lemma {:induction false} ProcessResultEmpty(contentType: string, items: seq<RawItem>, exclude: seq<string>)
    requires !Supported(contentType)
    ensures ProcessResult(contentType, items, exclude) == []
    decreases |items|
  {
    if |items| > 0 {
      ProcessResultEmpty(contentType, items[..|items| - 1], exclude);
    }
  }

  // ---------------------------------------------------------------- the server

  /** A selected recommendation with its id and rank. */
  datatype RankedRec = RankedRec(rec: RealRec, recommendationId: string, rank: nat)

  function Rank(batchId: string, i: nat, rec: RealRec): RankedRec {
    RankedRec(rec, batchId + "_" + NatToString(i), i + 1)
  }

  /** An entry `get_recommendations` appends to `user_history`. */
  datatype HistoryEntry = HistoryEntry(contentId: string, title: string, contentType: string, genres: seq<string>, timestamp: string)

  function HistoryOf(recs: seq<RealRec>, now: string): (r: seq<HistoryEntry>)
    ensures |r| == |recs|
    ensures forall k :: 0 <= k < |recs| ==> r[k] == HistoryEntry(recs[k].contentId, recs[k].title, recs[k].contentType, recs[k].genres, now)
  {
    seq(|recs|, k requires 0 <= k < |recs| => HistoryEntry(recs[k].contentId, recs[k].title, recs[k].contentType, recs[k].genres, now))
  }

  /** The successful `/recommendations` response, with the query used for each requested type. */
  datatype RealResponse = RealResponse(status: string, userId: string, batchId: string, count: nat,
                                       recommendations: seq<RankedRec>, searchQueries: seq<(string, string)>)

  /** The `/search` response. */
  datatype SearchResponse = SearchResponse(query: string, results: seq<RealRec>, fromCache: bool, count: nat)

  /** The `/search/all` response. */
  datatype AllItemsResponse = AllItemsResponse(totalItems: nat, uniqueItems: nat, items: seq<RealRec>)

  /** The search cache key `anime_{q.lower()}_{limit}`. */
  function SearchKey(q: string, limit: int): string {
    "anime_" + Lower(q) + "_" + IntToString(limit)
  }

  /** The key depends on the query only through its lower-cased form, and determines that form and the limit. */
  lemma SearchKeyExact(q1: string, l1: int, q2: string, l2: int)
    ensures SearchKey(q1, l1) == SearchKey(q2, l2) <==> Lower(q1) == Lower(q2) && l1 == l2
  {
    if SearchKey(q1, l1) == SearchKey(q2, l2) {
      var a1, a2 := "anime_" + Lower(q1), "anime_" + Lower(q2);
      var b1, b2 := IntToString(l1), IntToString(l2);
      assert a1 + ['_'] + b1 == a2 + ['_'] + b2;
      SplitAtLast(a1, b1, a2, b2, '_');
      assert Lower(q1) == a1[6..] && Lower(q2) == a2[6..];
      IntToStringInjective(l1, l2);
    }
  }

  /** `f` applied to the node of each non-empty entry, in order; empty entries are skipped. */
  function ListedMap<R>(entries: seq<MalEntry>, f: MalNode -> R): (r: seq<R>)
    ensures |r| <= |entries|
    decreases |entries|
  {
    if |entries| == 0 then []
    else
      var init := ListedMap(entries[..|entries| - 1], f);
      match entries[|entries| - 1]
      case EmptyEntry => init
      case Listed(n) => init + [f(n)]
  }

  /** The last entry adds its image, if it is non-empty, after the earlier ones. */
  lemma ListedMapStep<R>(entries: seq<MalEntry>, f: MalNode -> R)
    requires |entries| > 0
    ensures var init, last := entries[..|entries| - 1], entries[|entries| - 1];
      ListedMap(entries, f) == ListedMap(init, f) + (if last.Listed? then [f(last.node)] else [])
  {
  }

  /** An image is in the result exactly when some non-empty entry's node maps to it. */
  lemma {:induction false} ListedMapExact<R>(entries: seq<MalEntry>, f: MalNode -> R, x: R)
    ensures x in ListedMap(entries, f) <==> exists k :: 0 <= k < |entries| && entries[k].Listed? && f(entries[k].node) == x
    decreases |entries|
  {
    if |entries| > 0 {
      var n := |entries| - 1;
      var init := entries[..n];
      ListedMapStep(entries, f);
      ListedMapExact(init, f, x);
      assert forall k :: 0 <= k < n ==> init[k] == entries[k];
      if entries[n].Listed? && f(entries[n].node) == x {
        assert x in ListedMap(entries, f);
      }
    }
  }

  /** One image per non-empty entry. */
  lemma {:induction false} ListedMapCount<R>(entries: seq<MalEntry>, f: MalNode -> R)
    ensures |ListedMap(entries, f)| == |Filter(entries, IsListed())|
    decreases |entries|
  {
    if |entries| > 0 {
      var n := |entries| - 1;
      ListedMapStep(entries, f);
      ListedMapCount(entries[..n], f);
      FilterSnoc(entries, n, IsListed());
      assert entries[..n + 1] == entries;
    }
  }

  /** `AnimeRecord` as a value, so that the lemmas above need not look inside it. */
  function AnimeOf(): MalNode -> RealRec {
    (n: MalNode) => AnimeRecord(n)
  }

  /**
   * The formatted results of `search_anime`, in order: an empty entry formats to None and is
   * skipped by `if rec:`; with no exclusions every other entry is formatted.
   */
  function FormatAllAnime(entries: seq<MalEntry>): (r: seq<RealRec>)
    ensures |r| <= |entries|
  {
    ListedMap(entries, AnimeOf())
  }

  /** `e` is a non-empty entry whose anime record is `x`. */
  predicate FormatsTo(e: MalEntry, x: RealRec) {
    e.Listed? && AnimeRecord(e.node) == x
  }

  /**
   * A formatted result is exactly the anime record of some non-empty entry, and there is one
   * result per non-empty entry.
   */
  lemma FormatAllAnimeExact(entries: seq<MalEntry>)
    ensures forall x :: x in FormatAllAnime(entries) <==> exists k :: 0 <= k < |entries| && FormatsTo(entries[k], x)
    ensures |FormatAllAnime(entries)| == |Filter(entries, IsListed())|
  {
    forall x ensures x in FormatAllAnime(entries) <==> exists k :: 0 <= k < |entries| && FormatsTo(entries[k], x) {
      ListedMapExact(entries, AnimeOf(), x);
    }
    ListedMapCount(entries, AnimeOf());
  }

  /** `bool(entry)` for a result entry. */
  function IsListed(): MalEntry -> bool {
    (e: MalEntry) => e.Listed?
  }

  /** The items of the cache, in insertion order. */
  function CacheItems(cache: map<string, seq<RealRec>>, order: seq<string>): seq<RealRec>
    requires forall k :: k in order ==> k in cache
    decreases |order|
  {
    if |order| == 0 then [] else CacheItems(cache, order[..|order| - 1]) + cache[order[|order| - 1]]
  }

  /** One more cache key in the order: its items are appended. */
  lemma CacheItemsStep(cache: map<string, seq<RealRec>>, order: seq<string>, i: nat)
    requires i < |order| && forall k :: k in order ==> k in cache
    ensures forall k :: k in order[..i] ==> k in cache
    ensures CacheItems(cache, order[..i + 1]) == CacheItems(cache, order[..i]) + cache[order[i]]
  {
    assert order[..i + 1][..i] == order[..i];
  }

  /** The first item of each `content_id`, in order. */
  function DedupById(s: seq<RealRec>): seq<RealRec>
    decreases |s|
  {
    if |s| == 0 then []
    else
      var d := DedupById(s[..|s| - 1]);
      if s[|s| - 1].contentId in IdsOf(d) then d else d + [s[|s| - 1]]
  }

  /** One more item: kept exactly when its id is new. */
  lemma DedupByIdSnoc(s: seq<RealRec>, x: RealRec)
    ensures DedupById(s + [x]) == if x.contentId in IdsOf(DedupById(s)) then DedupById(s) else DedupById(s) + [x]
  {
    assert (s + [x])[..|s + [x]| - 1] == s;
  }

  function IdsOf(s: seq<RealRec>): set<string> {
    set x | x in s :: x.contentId
  }

  /** One more item adds its id. */
  lemma IdsOfSnoc(s: seq<RealRec>, x: RealRec)
    ensures IdsOf(s + [x]) == IdsOf(s) + {x.contentId}
  {
    assert forall y :: y in s + [x] <==> y in s || y == x;
  }

  /** One step of the dedup loop, stated on the loop's running list and id set. */
  lemma DedupStep(prefix: seq<RealRec>, x: RealRec, all: seq<RealRec>, seen: set<string>)
    requires all == DedupById(prefix) && seen == IdsOf(all) && |seen| == |all|
    ensures x.contentId in seen ==> DedupById(prefix + [x]) == all
    ensures x.contentId !in seen ==> (DedupById(prefix + [x]) == all + [x] &&
      IdsOf(all + [x]) == seen + {x.contentId} && |seen + {x.contentId}| == |all + [x]|)
  {
    DedupByIdSnoc(prefix, x);
    IdsOfSnoc(all, x);
  }

  /** The dedup keeps items of the input only, one per id, and every id of the input. */
  lemma {:induction false} DedupByIdSpec(s: seq<RealRec>)
    ensures forall x :: x in DedupById(s) ==> x in s
    ensures IdsOf(DedupById(s)) == IdsOf(s)
    ensures forall i, j :: 0 <= i < j < |DedupById(s)| ==> DedupById(s)[i].contentId != DedupById(s)[j].contentId
    decreases |s|
  {
    if |s| > 0 {
      var p := s[..|s| - 1];
      DedupByIdSpec(p);
      assert s == p + [s[|s| - 1]];
      assert IdsOf(s) == IdsOf(p) + {s[|s| - 1].contentId};
      var d := DedupById(p);
      if s[|s| - 1].contentId !in IdsOf(d) {
        assert IdsOf(d + [s[|s| - 1]]) == IdsOf(d) + {s[|s| - 1].contentId};
      }
    }
  }

  /** `s[i]` is `x`, and no earlier item of `s` has its id: the first copy of that id. */
  predicate IsFirstAt(s: seq<RealRec>, i: int, x: RealRec) {
    0 <= i < |s| && s[i] == x && forall j :: 0 <= j < i ==> s[j].contentId != x.contentId
  }

  /** A first copy in `p` stays the first copy after an append. */
  lemma FirstAtExtend(p: seq<RealRec>, x: RealRec, i: int, y: RealRec)
    requires IsFirstAt(p, i, y)
    ensures IsFirstAt(p + [x], i, y)
  {
    assert forall j :: 0 <= j <= i ==> (p + [x])[j] == p[j];
  }

  /** A first copy in `p + [x]` of an item of `p` lies inside `p`. */
  lemma FirstAtShrink(p: seq<RealRec>, x: RealRec, i: int, y: RealRec)
    requires IsFirstAt(p + [x], i, y) && y in p
    ensures IsFirstAt(p, i, y)
  {
    var m :| 0 <= m < |p| && p[m] == y;
    assert (p + [x])[m] == y;
    assert forall j :: 0 <= j < |p| ==> (p + [x])[j] == p[j];
  }

  /** `x` occurs in `s` as the first copy of its id. */
  ghost predicate FirstCopyIn(s: seq<RealRec>, x: RealRec) {
    exists i :: IsFirstAt(s, i, x)
  }

  /** Every item of `d` is the first copy of its id in `s`. */
  ghost predicate KeepsFirsts(s: seq<RealRec>, d: seq<RealRec>) {
    forall k :: 0 <= k < |d| ==> FirstCopyIn(s, d[k])
  }

  /** The items of `d` appear in the order of their first positions in `s`. */
  ghost predicate KeepsOrder(s: seq<RealRec>, d: seq<RealRec>) {
    forall k1, k2, i1, i2 ::
      (0 <= k1 < k2 < |d| && IsFirstAt(s, i1, d[k1]) && IsFirstAt(s, i2, d[k2])) ==> i1 < i2
  }

  /** One append step for `KeepsFirsts`: `r` is `d`, or `d` plus an item with a new id. */
  lemma KeepsFirstsStep(p: seq<RealRec>, x: RealRec, d: seq<RealRec>, r: seq<RealRec>)
    requires KeepsFirsts(p, d)
    requires r == d || (r == d + [x] && forall y :: y in p ==> y.contentId != x.contentId)
    ensures KeepsFirsts(p + [x], r)
  {
    var s := p + [x];
    forall k | 0 <= k < |r| ensures FirstCopyIn(s, r[k]) {
      if k < |d| {
        assert r[k] == d[k];
        var i :| IsFirstAt(p, i, d[k]);
        FirstAtExtend(p, x, i, d[k]);
        assert IsFirstAt(s, i, r[k]);
      } else {
        assert r[k] == x;
        assert forall j :: 0 <= j < |p| ==> s[j] == p[j] && p[j] in p;
        assert IsFirstAt(s, |p|, r[k]);
      }
    }
  }

  /** One append step for `KeepsOrder`. */
  lemma KeepsOrderStep(p: seq<RealRec>, x: RealRec, d: seq<RealRec>, r: seq<RealRec>)
    requires KeepsOrder(p, d) && forall y :: y in d ==> y in p
    requires r == d || (r == d + [x] && forall y :: y in p ==> y.contentId != x.contentId)
    ensures KeepsOrder(p + [x], r)
  {
    forall k1, k2, i1, i2 | 0 <= k1 < k2 < |r| && IsFirstAt(p + [x], i1, r[k1]) && IsFirstAt(p + [x], i2, r[k2])
      ensures i1 < i2
    {
      assert r[k1] == d[k1] && d[k1] in d;
      FirstAtShrink(p, x, i1, d[k1]);
      if k2 < |d| {
        assert r[k2] == d[k2] && d[k2] in d;
        FirstAtShrink(p, x, i2, d[k2]);
      }
    }
  }

  /**
   * `get_all_cached_items` keeps the first copy of each id, in input order: every kept item
   * is the first item of the input with its id, and kept items appear in the order of those
   * first positions.
   */
  lemma {:induction false} DedupByIdFirst(s: seq<RealRec>)
    ensures KeepsFirsts(s, DedupById(s))
    ensures KeepsOrder(s, DedupById(s))
    decreases |s|
  {
    if |s| > 0 {
      var p, x := s[..|s| - 1], s[|s| - 1];
      assert s == p + [x];
      var d := DedupById(p);
      DedupByIdFirst(p);
      DedupByIdSpec(p);
      DedupByIdSnoc(p, x);
      if x.contentId !in IdsOf(d) {
        assert forall y :: y in p ==> y.contentId in IdsOf(p);
      }
      KeepsFirstsStep(p, x, d, DedupById(s));
      KeepsOrderStep(p, x, d, DedupById(s));
    }
  }

  class RealDataServer {
    var userHistory: map<string, seq<HistoryEntry>>
    var searchCache: map<string, seq<RealRec>>
    /** The insertion order of `search_cache` (dictionary iteration order). */
    var cacheOrder: seq<string>

    ghost predicate Valid()
      reads this
    {
      Distinct(cacheOrder) && forall k :: k in searchCache <==> k in cacheOrder
    }

    constructor ()
      ensures Valid() && userHistory == map[] && searchCache == map[] && cacheOrder == []
    {
      userHistory := map[];
      searchCache := map[];
      cacheOrder := [];
    }

    /**
     * `get_recommendations`, with every fetch result processed under the type of its own task.
     * Exceptions inside the `try` (no types, an empty pool) become 500s.
     */
    method GetRecommendations(userId: string, genres: Option<seq<string>>, moods: Option<seq<string>>,
                              types: seq<string>, exclude: Option<seq<string>>, count: Option<int>,
                              fetch: (string, string) -> Outcome<RawItem>, batchId: string, now: string)
      returns (r: Result<RealResponse, HttpError>, queries: seq<(string, string)>,
               results: seq<Outcome<RawItem>>, shuffled: seq<RealRec>)
      requires Valid()
      modifies this
      ensures Valid() && searchCache == old(searchCache) && cacheOrder == old(cacheOrder)
      ensures |types| == 0 <==> r == Failure(HttpError(500, "400: content_types required"))
      ensures |types| > 0 ==> (
        |queries| == |types| &&
        (forall i :: 0 <= i < |types| ==>
          queries[i].0 == types[i] && SmartQueryOk(types[i], genres.GetOr([]), moods.GetOr([]), queries[i].1)) &&
        results == FetchAll(Tasks(queries), fetch) &&
        |results| == |Filter(types, IsSupported())|)
      ensures r.Failure? ==> userHistory == old(userHistory)
      ensures |types| > 0 && r.Failure? ==>
        |Filter(types, IsSupported())| == |results| &&
        ProcessCorrected(types, results, LowerAll(exclude.GetOr([]))) == [] &&
        r.error == HttpError(500, "404: No quality recommendations found for: " + Join(", ", types))
      ensures |types| > 0 && ProcessCorrected(types, results, LowerAll(exclude.GetOr([]))) == [] ==>
        r == Failure(HttpError(500, "404: No quality recommendations found for: " + Join(", ", types)))
      ensures r.Success? ==> (
        |Filter(types, IsSupported())| == |results| &&
        multiset(shuffled) == multiset(ProcessCorrected(types, results, LowerAll(exclude.GetOr([])))) &&
        var selected := Take(shuffled, ServerV2.ClampedCount(count));
        r.value.count == |selected| && |r.value.recommendations| == |selected| &&
        r.value.searchQueries == queries && r.value.batchId == batchId &&
        (forall k :: 0 <= k < |selected| ==> r.value.recommendations[k] == Rank(batchId, k, selected[k])) &&
        userHistory == if |selected| == 0 then old(userHistory)
                       else old(userHistory)[userId := ListOf(old(userHistory), userId) + HistoryOf(selected, now)])
    {
      queries, results, shuffled := [], [], [];
      if |types| == 0 {
        return Failure(HttpError(500, "400: content_types required")), queries, results, shuffled;
      }
      var excludeLower := LowerAll(exclude.GetOr([]));
      var n := ServerV2.ClampedCount(count);
      queries, results := PlanQueries(types, genres.GetOr([]), moods.GetOr([]), fetch);
      var allItems := ProcessLoop(Filter(types, IsSupported()), results, excludeLower);
      r, shuffled := Select(userId, types, allItems, n, queries, batchId, now);
    }

    /** The tail of `get_recommendations`: the 404 for an empty pool, then shuffle, cut and record. */
    method Select(userId: string, types: seq<string>, allItems: seq<RealRec>, n: nat,
                  queries: seq<(string, string)>, batchId: string, now: string)
      returns (r: Result<RealResponse, HttpError>, shuffled: seq<RealRec>)
      requires Valid()
      modifies this
      ensures Valid() && searchCache == old(searchCache) && cacheOrder == old(cacheOrder)
      ensures |allItems| == 0 <==> r.Failure?
      ensures r.Failure? ==> (
        userHistory == old(userHistory) &&
        r.error == HttpError(500, "404: No quality recommendations found for: " + Join(", ", types)))
      ensures r.Success? ==> (
        multiset(shuffled) == multiset(allItems) &&
        var selected := Take(shuffled, n);
        r.value.count == |selected| && |r.value.recommendations| == |selected| &&
        r.value.searchQueries == queries && r.value.batchId == batchId &&
        (forall k :: 0 <= k < |selected| ==> r.value.recommendations[k] == Rank(batchId, k, selected[k])) &&
        userHistory == if |selected| == 0 then old(userHistory)
                       else old(userHistory)[userId := ListOf(old(userHistory), userId) + HistoryOf(selected, now)])
    {
      shuffled := [];
      if |allItems| == 0 {
        return Failure(HttpError(500, "404: No quality recommendations found for: " + Join(", ", types))), shuffled;
      }
      // `random.shuffle`: any arrangement of the pool.
      shuffled :| multiset(shuffled) == multiset(allItems);
      var selected := Take(shuffled, n);
      var ranked := RecordSelection(userId, batchId, selected, now);
      r := Success(RealResponse("success", userId, batchId, |selected|, ranked, queries));
    }

    /**
     * The task loop: one query per requested type, chosen by `get_smart_query`, and one fetch
     * per supported type, with that type's query, in request order.
     */
    static method PlanQueries(types: seq<string>, genres: seq<string>, moods: seq<string>,
                              fetch: (string, string) -> Outcome<RawItem>)
      returns (queries: seq<(string, string)>, results: seq<Outcome<RawItem>>)
      ensures |queries| == |types|
      ensures forall i :: 0 <= i < |types| ==> queries[i].0 == types[i] && SmartQueryOk(types[i], genres, moods, queries[i].1)
      ensures results == FetchAll(Tasks(queries), fetch)
      ensures |results| == |Filter(types, IsSupported())|
      ensures forall j :: 0 <= j < |results| ==> Tasks(queries)[j].0 == Filter(types, IsSupported())[j]
    {
      queries, results := [], [];
      var i := 0;
      while i < |types|
        invariant 0 <= i <= |types|
        invariant |queries| == i
        invariant forall k :: 0 <= k < i ==> queries[k].0 == types[k] && SmartQueryOk(types[k], genres, moods, queries[k].1)
        invariant results == FetchAll(Tasks(queries), fetch)
      {
        var ct := types[i];
        var q := GetSmartQuery(ct, genres, moods);
        PlanStep(queries, (ct, q), fetch);
        queries := queries + [(ct, q)];
        if Supported(ct) {
          results := results + [fetch(ct, q)];
        }
        i := i + 1;
      }
      TaskTypes(types, queries);
    }

    /** The processing loop over (task type, result) pairs. */
    static method ProcessLoop(taskTypes: seq<string>, results: seq<Outcome<RawItem>>, exclude: seq<string>)
      returns (allItems: seq<RealRec>)
      requires |taskTypes| == |results|
      ensures allItems == ProcessPaired(taskTypes, results, exclude)
    {
      allItems := [];
      var i := 0;
      while i < |taskTypes|
        invariant 0 <= i <= |taskTypes|
        invariant allItems == ProcessPaired(taskTypes[..i], results[..i], exclude)
      {
        assert taskTypes[..i + 1][..i] == taskTypes[..i] && results[..i + 1][..i] == results[..i];
        var found := ProcessItems(taskTypes[i], OutcomeItems(results[i]), exclude);
        allItems := allItems + found;
        i := i + 1;
      }
      assert taskTypes[..|taskTypes|] == taskTypes && results[..|results|] == results;
    }

    /** The inner loop for one result. */
    static method ProcessItems(contentType: string, items: seq<RawItem>, exclude: seq<string>) returns (found: seq<RealRec>)
      ensures found == ProcessResult(contentType, items, exclude)
    {
      found := [];
      var j := 0;
      while j < |items|
        invariant 0 <= j <= |items|
        invariant found == ProcessResult(contentType, items[..j], exclude)
      {
        assert items[..j + 1][..j] == items[..j];
        var rec := ProcessItem(contentType, items[j], exclude);
        if rec.Some? {
          found := found + [rec.value];
        }
        j := j + 1;
      }
      assert items[..|items|] == items;
    }

    /** Ranks the selection and appends each item to the user's history. */
    method RecordSelection(userId: string, batchId: string, selected: seq<RealRec>, now: string)
      returns (ranked: seq<RankedRec>)
      requires Valid()
      modifies this
      ensures Valid() && searchCache == old(searchCache) && cacheOrder == old(cacheOrder)
      ensures |ranked| == |selected|
      ensures forall k :: 0 <= k < |selected| ==> ranked[k] == Rank(batchId, k, selected[k])
      ensures userHistory == if |selected| == 0 then old(userHistory)
                             else old(userHistory)[userId := ListOf(old(userHistory), userId) + HistoryOf(selected, now)]
    {
      ranked := [];
      var i := 0;
      while i < |selected|
        invariant 0 <= i <= |selected|
        invariant Valid() && searchCache == old(searchCache) && cacheOrder == old(cacheOrder)
        invariant |ranked| == i && forall k :: 0 <= k < i ==> ranked[k] == Rank(batchId, k, selected[k])
        invariant i == 0 ==> userHistory == old(userHistory)
        invariant i > 0 ==> userHistory == old(userHistory)[userId := ListOf(old(userHistory), userId) + HistoryOf(selected[..i], now)]
      {
        var item := selected[i];
        var entry := HistoryEntry(item.contentId, item.title, item.contentType, item.genres, now);
        ranked := ranked + [Rank(batchId, i, item)];
        assert ListOf(userHistory, userId) == ListOf(old(userHistory), userId) + HistoryOf(selected[..i], now);
        if userId !in userHistory {
          userHistory := userHistory[userId := []];
        }
        userHistory := userHistory[userId := userHistory[userId] + [entry]];
        assert HistoryOf(selected[..i + 1], now) == HistoryOf(selected[..i], now) + [entry];
        assert userHistory[userId] == ListOf(old(userHistory), userId) + HistoryOf(selected[..i + 1], now);
        assert userHistory == old(userHistory)[userId := userHistory[userId]];
        i := i + 1;
      }
      assert selected[..|selected|] == selected;
    }

    /**
     * `search_anime`: a query shorter than 2 characters is a 400; a cached key answers from the
     * cache; otherwise the fetch result is formatted and cached, and an exception or an empty
     * result becomes a 500.
     */
    method SearchAnime(q: string, limit: int, fetch: (string, int) -> Outcome<MalEntry>)
      returns (r: Result<SearchResponse, HttpError>)
      requires Valid()
      modifies this
      ensures Valid() && userHistory == old(userHistory)
      ensures |q| < 2 <==> r == Failure(HttpError(400, "Query must be at least 2 characters"))
      ensures |q| >= 2 && SearchKey(q, limit) in old(searchCache) ==>
        r == Success(SearchResponse(q, old(searchCache)[SearchKey(q, limit)], true, |old(searchCache)[SearchKey(q, limit)]|)) &&
        searchCache == old(searchCache) && cacheOrder == old(cacheOrder)
      ensures |q| >= 2 && SearchKey(q, limit) !in old(searchCache) ==> (
        match fetch(q, limit)
        case Raised(msg) =>
          r == Failure(HttpError(500, msg)) && searchCache == old(searchCache) && cacheOrder == old(cacheOrder)
        case Got(entries) =>
          if |entries| == 0 then
            r == Failure(HttpError(500, "404: No anime found for '" + q + "'")) &&
            searchCache == old(searchCache) && cacheOrder == old(cacheOrder)
          else
            r == Success(SearchResponse(q, FormatAllAnime(entries), false, |FormatAllAnime(entries)|)) &&
            searchCache == old(searchCache)[SearchKey(q, limit) := FormatAllAnime(entries)] &&
            cacheOrder == old(cacheOrder) + [SearchKey(q, limit)])
    {
      if |q| < 2 {
        return Failure(HttpError(400, "Query must be at least 2 characters"));
      }
      var cacheKey := SearchKey(q, limit);
      if cacheKey in searchCache {
        return Success(SearchResponse(q, searchCache[cacheKey], true, |searchCache[cacheKey]|));
      }
      var outcome := fetch(q, limit);
      if outcome.Raised? {
        return Failure(HttpError(500, outcome.message));
      }
      if |outcome.items| == 0 {
        return Failure(HttpError(500, "404: No anime found for '" + q + "'"));
      }
      var formatted := FormatLoop(outcome.items);
      searchCache := searchCache[cacheKey := formatted];
      cacheOrder := cacheOrder + [cacheKey];
      r := Success(SearchResponse(q, formatted, false, |formatted|));
    }

    /** The formatting loop of `search_anime`: entries that format to None are skipped. */
    static method FormatLoop(entries: seq<MalEntry>) returns (formatted: seq<RealRec>)
      ensures formatted == FormatAllAnime(entries)
    {
      formatted := [];
      var i := 0;
      while i < |entries|
        invariant 0 <= i <= |entries|
        invariant formatted == FormatAllAnime(entries[..i])
      {
        assert entries[..i + 1][..i] == entries[..i];
        var rec := FormatEntry(entries[i]);
        if rec.Some? {
          formatted := formatted + [rec.value];
        }
        i := i + 1;
      }
      assert entries[..|entries|] == entries;
    }

    /** `get_all_cached_items`: the first item of each content id across the cache, in cache order. */
    method GetAllCachedItems() returns (r: AllItemsResponse)
      requires Valid()
      ensures r.items == DedupById(CacheItems(searchCache, cacheOrder))
      ensures r.totalItems == r.uniqueItems == |r.items|
      ensures IdsOf(r.items) == IdsOf(CacheItems(searchCache, cacheOrder))
      ensures KeepsFirsts(CacheItems(searchCache, cacheOrder), r.items)
      ensures KeepsOrder(CacheItems(searchCache, cacheOrder), r.items)
    {
      var allItems: seq<RealRec> := [];
      var seenIds: set<string> := {};
      var i := 0;
      while i < |cacheOrder|
        invariant 0 <= i <= |cacheOrder|
        invariant allItems == DedupById(CacheItems(searchCache, cacheOrder[..i]))
        invariant seenIds == IdsOf(allItems) && |seenIds| == |allItems|
      {
        CacheItemsStep(searchCache, cacheOrder, i);
        allItems, seenIds := DedupInto(allItems, seenIds, CacheItems(searchCache, cacheOrder[..i]), searchCache[cacheOrder[i]]);
        i := i + 1;
      }
      assert cacheOrder[..|cacheOrder|] == cacheOrder;
      DedupByIdSpec(CacheItems(searchCache, cacheOrder));
      DedupByIdFirst(CacheItems(searchCache, cacheOrder));
      r := AllItemsResponse(|allItems|, |seenIds|, allItems);
    }

    /** The inner loop: appends the items whose id has not been seen. */
    static method DedupInto(all0: seq<RealRec>, seen0: set<string>, before: seq<RealRec>, items: seq<RealRec>)
      returns (all: seq<RealRec>, seen: set<string>)
      requires all0 == DedupById(before) && seen0 == IdsOf(all0) && |seen0| == |all0|
      ensures all == DedupById(before + items) && seen == IdsOf(all) && |seen| == |all|
    {
      all, seen := all0, seen0;
      var j := 0;
      assert before + items[..0] == before;
      while j < |items|
        invariant 0 <= j <= |items|
        invariant all == DedupById(before + items[..j]) && seen == IdsOf(all) && |seen| == |all|
      {
        PrefixSnoc(before, items, j);
        all, seen := AddIfNew(before + items[..j], all, seen, items[j]);
        j := j + 1;
      }
      assert items[..|items|] == items;
    }

    /** The loop body: an item whose id has not been seen is appended and its id recorded. */
    static method AddIfNew(ghost prefix: seq<RealRec>, all0: seq<RealRec>, seen0: set<string>, item: RealRec)
      returns (all: seq<RealRec>, seen: set<string>)
      requires all0 == DedupById(prefix) && seen0 == IdsOf(all0) && |seen0| == |all0|
      ensures all == DedupById(prefix + [item]) && seen == IdsOf(all) && |seen| == |all|
    {
      DedupStep(prefix, item, all0, seen0);
      if item.contentId !in seen0 {
        all, seen := all0 + [item], seen0 + {item.contentId};
      } else {
        all, seen := all0, seen0;
      }
    }
  }

  /** `d.get(key, [])`. */
  function ListOf<V>(m: map<string, seq<V>>, key: string): seq<V> {
    if key in m then m[key] else []
  }

  /** A repeated search with the same limit and a query differing only in case is served from the cache. */
  lemma CaseInsensitiveHit(cache: map<string, seq<RealRec>>, q1: string, q2: string, limit: int)
    requires Lower(q1) == Lower(q2) && SearchKey(q1, limit) in cache
    ensures SearchKey(q2, limit) in cache && cache[SearchKey(q2, limit)] == cache[SearchKey(q1, limit)]
  {
    SearchKeyExact(q1, limit, q2, limit);
  }

  /** `total_items == unique_items`, and every cached id is listed exactly once. */
  lemma AllItemsUnique(cache: map<string, seq<RealRec>>, order: seq<string>)
    requires forall k :: k in order ==> k in cache
    ensures IdsOf(DedupById(CacheItems(cache, order))) == IdsOf(CacheItems(cache, order))
    ensures forall i, j :: 0 <= i < j < |DedupById(CacheItems(cache, order))| ==>
      DedupById(CacheItems(cache, order))[i].contentId != DedupById(CacheItems(cache, order))[j].contentId
  {
    DedupByIdSpec(CacheItems(cache, order));
  }
}
