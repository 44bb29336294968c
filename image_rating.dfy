/**
 * The image and rating handler: each content type is routed to MyAnimeList (through the
 * Jikan search) or to IMDb (through OMDb), and both the rating lookups and the enriched
 * items are memoised per title and type. The two HTTP lookups are oracles.
 */
module ImageRating {
  import opened Wrappers
  import opened JsonData
  import opened Text

  /** The types whose ratings and pictures come from MyAnimeList. */
  const MalTypes: set<string> := {"anime", "manga", "light_novels", "manhwa"}

  /** The types `get_ratings` asks IMDb about. */
  const ImdbTypes: set<string> := {"movies", "web_series", "comics", "games"}

  /** The fallback OMDb key used when `OMDB_API_KEY` is not set. */
  const DefaultOmdbKey: string := "2d9726cf"

  /** `get_mal_data`'s search type: the Jikan anime search for anime and light novels, the manga search otherwise. */
  function MalSearchType(contentType: string): (r: string)
    ensures r == "anime" <==> contentType in {"anime", "light_novels"}
    ensures r == "manga" <==> contentType !in {"anime", "light_novels"}
  {
    if contentType in {"anime", "light_novels"} then "anime" else "manga"
  }

  /** The record either lookup returns; the key `rating` may hold null. */
  datatype SourceData = SourceData(
    posterUrl: Option<string>, rating: Option<real>, description: Option<string>,
    genres: seq<string>, year: Option<int>, director: Option<string>)

  /** The Jikan lookup: `(title, search type)` to the first hit, or None (no hit, or any error). */
  type MalLookup = (string, string) -> Option<SourceData>

  /** The OMDb lookup by title, or None (no hit, no poster, or any error). */
  type ImdbLookup = string -> Option<SourceData>

  /** The `get_ratings` result. */
  datatype RatingData = RatingData(sources: seq<string>, imdbRating: Option<real>, malRating: Option<real>)

  /** The `get_enriched_item` result. */
  datatype EnrichedItem = EnrichedItem(
    title: string, contentType: string,
    images: map<string, Json>, ratings: map<string, Json>, metadata: map<string, Json>)

  /** `isinstance(result, dict) and "rating" in result and result["rating"]`: a rating that is present and non-zero. */
  predicate HasRating(result: Option<SourceData>) {
    result.Some? && result.value.rating.Some? && result.value.rating.value != 0.0
  }

  /** The loop over the gathered results, starting from the empty rating record. */
  function CollectRatings(contentType: string, results: seq<Option<SourceData>>): RatingData
    decreases |results|
  {
    if |results| == 0 then RatingData([], None, None)
    else
      var acc := CollectRatings(contentType, results[..|results| - 1]);
      var result := results[|results| - 1];
      if !HasRating(result) then acc
      else if contentType in MalTypes then acc.(malRating := result.value.rating, sources := acc.sources + ["MAL"])
      else acc.(imdbRating := result.value.rating, sources := acc.sources + ["IMDb"])
  }

  /** `f"{title}-{content_type}"`. */
  function RatingKey(title: string, contentType: string): string {
    title + "-" + contentType
  }

  /** `f"enriched-{title}-{content_type}"`. */
  function EnrichedKey(title: string, contentType: string): string {
    "enriched-" + title + "-" + contentType
  }

  /** A dashless content type makes the rating key exact: equal keys mean the same title and type. */
  lemma RatingKeyInjective(t1: string, c1: string, t2: string, c2: string)
    requires '-' !in c1 && '-' !in c2
    requires RatingKey(t1, c1) == RatingKey(t2, c2)
    ensures t1 == t2 && c1 == c2
  {
    assert t1 + ['-'] + c1 == t2 + ['-'] + c2;
    SplitAtLast(t1, c1, t2, c2, '-');
  }

  /** A dash inside the type blurs the key: ("a-b", "c") and ("a", "b-c") share one cache slot. */
  lemma RatingKeyCollides()
    ensures RatingKey("a-b", "c") == RatingKey("a", "b-c")
  {
  }

  /** The enriched key is exact under the same condition. */
  lemma EnrichedKeyInjective(t1: string, c1: string, t2: string, c2: string)
    requires '-' !in c1 && '-' !in c2
    requires EnrichedKey(t1, c1) == EnrichedKey(t2, c2)
    ensures t1 == t2 && c1 == c2
  {
    var p1, p2 := "enriched-" + t1, "enriched-" + t2;
    assert p1 + ['-'] + c1 == p2 + ['-'] + c2;
    SplitAtLast(p1, c1, p2, c2, '-');
    assert t1 == p1[9..] && t2 == p2[9..];
  }

  /** A JSON number for an optional integer. */
  function OptInt(o: Option<int>): Json {
    if o.None? then JNull else JNum(o.value as real)
  }

  /** The enriched item built from a MyAnimeList record, or the empty skeleton when there is none. */
  function EnrichFromMal(title: string, contentType: string, mal: Option<SourceData>): EnrichedItem {
    if mal.None? then EnrichedItem(title, contentType, map[], map[], map[])
    else
      var d := mal.value;
      EnrichedItem(title, contentType, map["poster_url" := OptStr(d.posterUrl)], map["mal_rating" := OptNum(d.rating)],
        map["description" := OptStr(d.description), "genres" := StrList(d.genres), "year" := OptInt(d.year)])
  }

  /** The enriched item built from an IMDb record, or the empty skeleton. */
  function EnrichFromImdb(title: string, contentType: string, imdb: Option<SourceData>): EnrichedItem {
    if imdb.None? then EnrichedItem(title, contentType, map[], map[], map[])
    else
      var d := imdb.value;
      EnrichedItem(title, contentType, map["poster_url" := OptStr(d.posterUrl)], map["imdb_rating" := OptNum(d.rating)],
        map["description" := OptStr(d.description), "genres" := StrList(d.genres), "year" := OptInt(d.year),
            "director" := OptStr(d.director)])
  }

  class ImageAndRatingHandler {
    const omdbKey: string
    var imageCache: map<string, EnrichedItem>
    var ratingCache: map<string, RatingData>

    /** `os.getenv('OMDB_API_KEY', '2d9726cf')`. */
    constructor (omdbEnv: Option<string>)
      ensures omdbKey == omdbEnv.GetOr(DefaultOmdbKey) && imageCache == map[] && ratingCache == map[]
    {
      omdbKey := omdbEnv.GetOr(DefaultOmdbKey);
      imageCache := map[];
      ratingCache := map[];
    }

    /** `get_imdb_data`: no lookup at all without a key. */
    function ImdbData(imdb: ImdbLookup, title: string): (r: Option<SourceData>)
      reads this
      ensures omdbKey == "" ==> r.None?
      ensures omdbKey != "" ==> r == imdb(title)
    {
      if omdbKey == "" then None else imdb(title)
    }

    /** The results gathered for a type: one MAL lookup, one IMDb lookup, or none. */
    function Gathered(mal: MalLookup, imdb: ImdbLookup, title: string, contentType: string): (r: seq<Option<SourceData>>)
      reads this
      ensures contentType in MalTypes ==> r == [mal(title, MalSearchType(contentType))]
      ensures contentType in ImdbTypes ==> r == [ImdbData(imdb, title)]
      ensures contentType !in MalTypes && contentType !in ImdbTypes ==> r == []
    {
      (if contentType in MalTypes then [mal(title, MalSearchType(contentType))] else []) +
      (if contentType in ImdbTypes then [ImdbData(imdb, title)] else [])
    }

    /**
     * `get_ratings`: a cached key is answered from the cache; otherwise the type's lookups run,
     * a present non-zero rating is recorded with its source, and the record is cached.
     */
    method GetRatings(title: string, contentType: string, mal: MalLookup, imdb: ImdbLookup) returns (r: RatingData)
      modifies this
      ensures RatingKey(title, contentType) in old(ratingCache) ==>
        r == old(ratingCache)[RatingKey(title, contentType)] && ratingCache == old(ratingCache)
      ensures RatingKey(title, contentType) !in old(ratingCache) ==>
        r == CollectRatings(contentType, Gathered(mal, imdb, title, contentType)) &&
        ratingCache == old(ratingCache)[RatingKey(title, contentType) := r]
      ensures imageCache == old(imageCache)
    {
      var cacheKey := RatingKey(title, contentType);
      if cacheKey in ratingCache {
        return ratingCache[cacheKey];
      }
      var results := Gathered(mal, imdb, title, contentType);
      r := RatingLoop(contentType, results);
      ratingCache := ratingCache[cacheKey := r];
    }

    /** `for result in results: ...`. */
    static method RatingLoop(contentType: string, results: seq<Option<SourceData>>) returns (ratingData: RatingData)
      ensures ratingData == CollectRatings(contentType, results)
    {
      ratingData := RatingData([], None, None);
      var i := 0;
      while i < |results|
        invariant 0 <= i <= |results|
        invariant ratingData == CollectRatings(contentType, results[..i])
      {
        assert results[..i + 1][..i] == results[..i];
        var result := results[i];
        if HasRating(result) {
          if contentType in MalTypes {
            ratingData := ratingData.(malRating := result.value.rating, sources := ratingData.sources + ["MAL"]);
          } else {
            ratingData := ratingData.(imdbRating := result.value.rating, sources := ratingData.sources + ["IMDb"]);
          }
        }
        i := i + 1;
      }
      assert results[..|results|] == results;
    }

    /** `get_enriched_item`: MyAnimeList for its four types, IMDb for every other type; memoised. */
    method GetEnrichedItem(title: string, contentType: string, mal: MalLookup, imdb: ImdbLookup) returns (r: EnrichedItem)
      modifies this
      ensures EnrichedKey(title, contentType) in old(imageCache) ==>
        r == old(imageCache)[EnrichedKey(title, contentType)] && imageCache == old(imageCache)
      ensures EnrichedKey(title, contentType) !in old(imageCache) ==>
        r == (if contentType in MalTypes then EnrichFromMal(title, contentType, mal(title, MalSearchType(contentType)))
              else EnrichFromImdb(title, contentType, ImdbData(imdb, title))) &&
        imageCache == old(imageCache)[EnrichedKey(title, contentType) := r]
      ensures ratingCache == old(ratingCache)
    {
      var cacheKey := EnrichedKey(title, contentType);
      if cacheKey in imageCache {
        return imageCache[cacheKey];
      }
      if contentType in MalTypes {
        var malData := mal(title, MalSearchType(contentType));
        r := EnrichFromMal(title, contentType, malData);
      } else {
        var imdbData := ImdbData(imdb, title);
        r := EnrichFromImdb(title, contentType, imdbData);
      }
      imageCache := imageCache[cacheKey := r];
    }

    /** `clear_cache`: both caches are emptied. */
    method ClearCache()
      modifies this
      ensures imageCache == map[] && ratingCache == map[]
    {
      imageCache := map[];
      ratingCache := map[];
    }
  }

  /**
   * Routing of `get_ratings`: a MAL type never gets an IMDb rating and vice versa, a type of
   * neither list gets the empty record, and a rating is recorded exactly when the lookup found
   * a non-zero one.
   */
  lemma RatingsRouting(contentType: string, result: Option<SourceData>)
    ensures contentType in MalTypes ==>
      CollectRatings(contentType, [result]) ==
        (if HasRating(result) then RatingData(["MAL"], None, result.value.rating) else RatingData([], None, None))
    ensures contentType in ImdbTypes ==>
      CollectRatings(contentType, [result]) ==
        (if HasRating(result) then RatingData(["IMDb"], result.value.rating, None) else RatingData([], None, None))
    ensures CollectRatings(contentType, []) == RatingData([], None, None)
  {
    assert [result][..0] == [];
    assert MalTypes !! ImdbTypes;
  }

  /** No type is routed to both sources, and every one of the eight catalog types other than novels has a source. */
  lemma RoutingDisjoint(contentType: string)
    ensures !(contentType in MalTypes && contentType in ImdbTypes)
    ensures contentType in {"anime", "manga", "light_novels", "manhwa", "movies", "web_series", "comics", "games"} ==>
      contentType in MalTypes || contentType in ImdbTypes
  {
  }
}
