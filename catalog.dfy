/**
 * The catalog manager of the catalog agent: selection of catalogs by content type,
 * genre and mood matching, stamping of the category, the stable sort by descending
 * rating, the consumed-id filter and the `search_catalogs` tool.
 */
module CatalogAgent {
  import opened Wrappers
  import opened Text
  import opened Sorting
  import opened Lists

  /**
   * One catalog entry. Keys the JSON may omit take the defaults the source reads
   * them with: no genres or moods is `[]`, no rating is 0.
   */
  datatype Item = Item(
    id: string,
    title: string,
    contentType: Option<string>,
    genres: seq<string>,
    mood: seq<string>,
    rating: real,
    description: Option<string>,
    episodes: Option<int>,
    status: Option<string>)

  /** The catalog files, in the order they are loaded (the category is the name without `.json`). */
  const CatalogFiles: seq<string> :=
    ["anime", "movies", "web_series", "manga", "manhwa", "comics", "light_novels", "novels", "games"]

  /** Catalogs as loading leaves them: only known file names are keys. */
  predicate Loaded(cats: map<string, seq<Item>>) {
    forall k :: k in cats ==> k in CatalogFiles
  }

  /** The elements of `order` that are keys of `cats`, in order. */
  function PresentIn(order: seq<string>, cats: map<string, seq<Item>>): (r: seq<string>)
    ensures forall k :: k in r <==> k in order && k in cats
    decreases |order|
  {
    if |order| == 0 then []
    else (if order[0] in cats then [order[0]] else []) + PresentIn(order[1..], cats)
  }

  /** `self.catalogs.keys()`: dictionary order is the load order. */
  function KeysInOrder(cats: map<string, seq<Item>>): seq<string> {
    PresentIn(CatalogFiles, cats)
  }

  /** Each category appears once in the key order, and the key order lists exactly the loaded categories. */
  lemma KeysInOrderExact(cats: map<string, seq<Item>>)
    requires Loaded(cats)
    ensures forall k :: k in KeysInOrder(cats) <==> k in cats
    ensures forall i, j :: 0 <= i < j < |KeysInOrder(cats)| ==> KeysInOrder(cats)[i] != KeysInOrder(cats)[j]
  {
    PresentInDistinct(CatalogFiles, cats);
  }

  lemma {:induction false} PresentInDistinct(order: seq<string>, cats: map<string, seq<Item>>)
    requires forall i, j :: 0 <= i < j < |order| ==> order[i] != order[j]
    ensures forall i, j :: 0 <= i < j < |PresentIn(order, cats)| ==> PresentIn(order, cats)[i] != PresentIn(order, cats)[j]
    decreases |order|
  {
    if |order| > 0 {
      PresentInDistinct(order[1..], cats);
      assert order[0] !in order[1..];
    }
  }

  /** `ct.replace(' ', '_').lower()`. */
  function TypeKey(ct: string): string {
    Lower(ReplaceChar(ct, ' ', '_'))
  }

  /** The normalised requested types that name a loaded catalog, in request order (repeats kept). */
  function KnownKeys(cats: map<string, seq<Item>>, types: seq<string>): (r: seq<string>)
    ensures forall k :: k in r ==> k in cats
    decreases |types|
  {
    if |types| == 0 then []
    else
      var last := TypeKey(types[|types| - 1]);
      KnownKeys(cats, types[..|types| - 1]) + (if last in cats then [last] else [])
  }

  /** The catalogs a search visits: the known requested ones, or all of them when no type is given. */
  function Selected(cats: map<string, seq<Item>>, types: Option<seq<string>>): (r: seq<string>)
    ensures forall k :: k in r ==> k in cats
  {
    if types.Some? && |types.value| > 0 then KnownKeys(cats, types.value) else KeysInOrder(cats)
  }

  /** A requested key is selected exactly when some requested type normalises to a loaded category. */
  lemma {:induction false} KnownKeysExact(cats: map<string, seq<Item>>, types: seq<string>, k: string)
    ensures k in KnownKeys(cats, types) <==> k in cats && exists i :: 0 <= i < |types| && TypeKey(types[i]) == k
    decreases |types|
  {
    if |types| > 0 {
      var init := types[..|types| - 1];
      KnownKeysExact(cats, init, k);
      if exists i :: 0 <= i < |init| && TypeKey(init[i]) == k {
        var i :| 0 <= i < |init| && TypeKey(init[i]) == k;
        assert types[i] == init[i];
      }
      if exists i :: 0 <= i < |types| && TypeKey(types[i]) == k {
        var i :| 0 <= i < |types| && TypeKey(types[i]) == k;
        if i < |init| {
          assert init[i] == types[i];
        }
      }
    }
  }

  /** With types given but none of them loaded, nothing is selected, so every search returns `[]`. */
  lemma {:induction false} NoKnownTypeSelectsNothing(cats: map<string, seq<Item>>, types: seq<string>)
    requires |types| > 0
    requires forall i :: 0 <= i < |types| ==> TypeKey(types[i]) !in cats
    ensures Selected(cats, Some(types)) == []
  {
    if KnownKeys(cats, types) != [] {
      var k := KnownKeys(cats, types)[0];
      KnownKeysExact(cats, types, k);
    }
  }

  /** Without types, or with an empty list, every loaded catalog is selected. */
  lemma NoTypesSelectsAll(cats: map<string, seq<Item>>, types: Option<seq<string>>)
    requires Loaded(cats)
    requires types.None? || |types.value| == 0
    ensures forall k :: k in Selected(cats, types) <==> k in cats
  {
    KeysInOrderExact(cats);
  }

  /** `genre.lower().strip() == g.lower().strip()` for some requested and some item value. */
  predicate AnyMatch(wanted: seq<string>, have: seq<string>) {
    exists i, j :: 0 <= i < |wanted| && 0 <= j < |have| && Norm(wanted[i]) == Norm(have[j])
  }

  /** Which of the four catalog queries is run. */
  datatype Criterion =
    | ByGenres(genres: seq<string>)
    | ByMood(moods: seq<string>)
    | ByGenreAndMood(genres: seq<string>, moods: seq<string>)
    | AllItems

  /** Whether a query keeps a stored item; items without genres (moods) are skipped first. */
  predicate Keeps(c: Criterion, item: Item) {
    match c
    case ByGenres(gs) => |item.genres| > 0 && AnyMatch(gs, item.genres)
    case ByMood(ms) => |item.mood| > 0 && AnyMatch(ms, item.mood)
    case ByGenreAndMood(gs, ms) =>
      |item.genres| > 0 && |item.mood| > 0 && AnyMatch(gs, item.genres) && AnyMatch(ms, item.mood)
    case AllItems => true
  }

  /** `item.copy()` with `content_type` overwritten by the catalog key. */
  function Stamp(item: Item, key: string): Item {
    item.(contentType := Some(key))
  }

  /** `Keeps(c, ·)` as a value, so that the lemmas below need not look inside it. */
  function Keeper(c: Criterion): Item -> bool {
    (item: Item) => Keeps(c, item)
  }

  /** The stamped items of one catalog that `keep` accepts, in catalog order. */
  function Hits(catalog: seq<Item>, key: string, keep: Item -> bool): seq<Item>
    decreases |catalog|
  {
    if |catalog| == 0 then []
    else
      var last := catalog[|catalog| - 1];
      Hits(catalog[..|catalog| - 1], key, keep) + (if keep(last) then [Stamp(last, key)] else [])
  }

  /** The hits of the visited catalogs, concatenated in visiting order (before sorting). */
  function Collect(cats: map<string, seq<Item>>, keys: seq<string>, keep: Item -> bool): seq<Item>
    requires forall k :: k in keys ==> k in cats
    decreases |keys|
  {
    if |keys| == 0 then []
    else Collect(cats, keys[..|keys| - 1], keep) + Hits(cats[keys[|keys| - 1]], keys[|keys| - 1], keep)
  }

  /** `x` is a kept item of `catalog`, stamped with `key`. */
  ghost predicate IsHitIn(catalog: seq<Item>, key: string, keep: Item -> bool, x: Item) {
    exists m :: 0 <= m < |catalog| && keep(catalog[m]) && x == Stamp(catalog[m], key)
  }

  /** `x` is a kept item of one of the visited catalogs, stamped with that catalog's key. */
  ghost predicate IsHit(cats: map<string, seq<Item>>, keys: seq<string>, keep: Item -> bool, x: Item)
    requires forall k :: k in keys ==> k in cats
  {
    exists n :: 0 <= n < |keys| && IsHitIn(cats[keys[n]], keys[n], keep, x)
  }

  lemma {:induction false} HitsExact(catalog: seq<Item>, key: string, keep: Item -> bool, x: Item)
    ensures x in Hits(catalog, key, keep) <==> IsHitIn(catalog, key, keep, x)
    decreases |catalog|
  {
    if |catalog| > 0 {
      var init := catalog[..|catalog| - 1];
      var last := catalog[|catalog| - 1];
      var tail := if keep(last) then [Stamp(last, key)] else [];
      HitsExact(init, key, keep, x);
      assert Hits(catalog, key, keep) == Hits(init, key, keep) + tail;
      assert x in Hits(catalog, key, keep) <==> x in Hits(init, key, keep) || x in tail;
      if IsHitIn(init, key, keep, x) {
        var m :| 0 <= m < |init| && keep(init[m]) && x == Stamp(init[m], key);
        assert catalog[m] == init[m];
      }
      if x in tail {
        assert keep(catalog[|catalog| - 1]) && x == Stamp(catalog[|catalog| - 1], key);
      }
      if IsHitIn(catalog, key, keep, x) {
        var m :| 0 <= m < |catalog| && keep(catalog[m]) && x == Stamp(catalog[m], key);
        if m < |init| {
          assert init[m] == catalog[m];
        } else {
          assert x in tail;
        }
      }
    }
  }

  /** A collected item is exactly a kept item of a visited catalog, stamped with its category. */
  lemma {:induction false} CollectExact(cats: map<string, seq<Item>>, keys: seq<string>, keep: Item -> bool, x: Item)
    requires forall k :: k in keys ==> k in cats
    ensures x in Collect(cats, keys, keep) <==> IsHit(cats, keys, keep, x)
    decreases |keys|
  {
    if |keys| > 0 {
      var init := keys[..|keys| - 1];
      var last := keys[|keys| - 1];
      CollectExact(cats, init, keep, x);
      HitsExact(cats[last], last, keep, x);
      assert Collect(cats, keys, keep) == Collect(cats, init, keep) + Hits(cats[last], last, keep);
      if IsHit(cats, init, keep, x) {
        var n :| 0 <= n < |init| && IsHitIn(cats[init[n]], init[n], keep, x);
        assert keys[n] == init[n];
      }
      if IsHitIn(cats[last], last, keep, x) {
        assert IsHitIn(cats[keys[|keys| - 1]], keys[|keys| - 1], keep, x);
      }
      if IsHit(cats, keys, keep, x) {
        var n :| 0 <= n < |keys| && IsHitIn(cats[keys[n]], keys[n], keep, x);
        if n < |init| {
          assert init[n] == keys[n];
          assert IsHit(cats, init, keep, x);
        }
      }
    }
  }

  /** `sorted(..., key=rating, reverse=True)` compares with "rating at least". */
  predicate RatingDesc(a: Item, b: Item) {
    a.rating >= b.rating
  }

  lemma RatingDescTotalPreorder()
    ensures TotalPreorder(RatingDesc)
  {
  }

  /** The number of stored items in the visited catalogs, repeats counted. */
  function TotalSize(cats: map<string, seq<Item>>, keys: seq<string>): nat
    requires forall k :: k in keys ==> k in cats
    decreases |keys|
  {
    if |keys| == 0 then 0 else TotalSize(cats, keys[..|keys| - 1]) + |cats[keys[|keys| - 1]]|
  }

  lemma {:induction false} HitsAllItems(catalog: seq<Item>, key: string)
    ensures |Hits(catalog, key, Keeper(AllItems))| == |catalog|
    decreases |catalog|
  {
    if |catalog| > 0 {
      HitsAllItems(catalog[..|catalog| - 1], key);
    }
  }

  /** Taking every item collects as many items as the visited catalogs hold. */
  lemma {:induction false} CollectAllItemsSize(cats: map<string, seq<Item>>, keys: seq<string>)
    requires forall k :: k in keys ==> k in cats
    ensures |Collect(cats, keys, Keeper(AllItems))| == TotalSize(cats, keys)
    decreases |keys|
  {
    if |keys| > 0 {
      CollectAllItemsSize(cats, keys[..|keys| - 1]);
      HitsAllItems(cats[keys[|keys| - 1]], keys[|keys| - 1]);
    }
  }

  /** The test `item.get('id') not in consumed_ids`. */
  function Unconsumed(consumed: seq<string>): Item -> bool {
    (item: Item) => item.id !in consumed
  }

  /** `filter_out_consumed`: the items whose id is not consumed, in their original order. */
  function FilterOutConsumed(items: seq<Item>, consumed: seq<string>): (r: seq<Item>)
    ensures |r| <= |items|
    ensures forall x :: x in r <==> x in items && x.id !in consumed
  {
    Filter(items, Unconsumed(consumed))
  }

  /** The filter keeps the original order: it distributes over concatenation. */
  lemma FilterOutConsumedConcat(a: seq<Item>, b: seq<Item>, consumed: seq<string>)
    ensures FilterOutConsumed(a + b, consumed) == FilterOutConsumed(a, consumed) + FilterOutConsumed(b, consumed)
  {
    FilterConcat(a, b, Unconsumed(consumed));
  }

  /** A list with no consumed item passes the filter unchanged. */
  lemma FilterOutConsumedKeeps(items: seq<Item>, consumed: seq<string>)
    requires forall i :: 0 <= i < |items| ==> items[i].id !in consumed
    ensures FilterOutConsumed(items, consumed) == items
  {
    FilterAll(items, Unconsumed(consumed));
  }

  /** The manager of the loaded catalogs; the catalogs are never changed after loading. */
  class CatalogManager {
    const catalogs: map<string, seq<Item>>

    /** Loading is left out: the constructor receives what `load_catalogs` read. */
    constructor (loaded: map<string, seq<Item>>)
      requires Loaded(loaded)
      ensures catalogs == loaded
    {
      catalogs := loaded;
    }

    /** The `catalogs_to_search` loop. */
    method SelectCatalogs(types: Option<seq<string>>) returns (keys: seq<string>)
      ensures keys == Selected(catalogs, types)
    {
      if types.Some? && |types.value| > 0 {
        var ts := types.value;
        keys := [];
        var i := 0;
        while i < |ts|
          invariant 0 <= i <= |ts|
          invariant keys == KnownKeys(catalogs, ts[..i])
        {
          var ctKey := TypeKey(ts[i]);
          assert ts[..i + 1][..i] == ts[..i];
          if ctKey in catalogs {
            keys := keys + [ctKey];
          }
          i := i + 1;
        }
        assert ts[..|ts|] == ts;
      } else {
        keys := KeysInOrder(catalogs);
      }
    }

    /** The nested loop over the visited catalogs appending the stamped kept items. */
    method Gather(keys: seq<string>, keep: Item -> bool) returns (results: seq<Item>)
      requires forall k :: k in keys ==> k in catalogs
      ensures results == Collect(catalogs, keys, keep)
    {
      results := [];
      var i := 0;
      while i < |keys|
        invariant 0 <= i <= |keys|
        invariant results == Collect(catalogs, keys[..i], keep)
      {
        var key := keys[i];
        var catalog := catalogs[key];
        var j := 0;
        while j < |catalog|
          invariant 0 <= j <= |catalog|
          invariant results == Collect(catalogs, keys[..i], keep) + Hits(catalog[..j], key, keep)
        {
          var item := catalog[j];
          assert catalog[..j + 1][..j] == catalog[..j];
          if keep(item) {
            results := results + [Stamp(item, key)];
          }
          j := j + 1;
        }
        assert catalog[..|catalog|] == catalog;
        assert keys[..i + 1][..i] == keys[..i];
        i := i + 1;
      }
      assert keys[..|keys|] == keys;
    }

    /** The three `search_by_*` methods share this shape: select, gather, sort. */
    method Search(c: Criterion, types: Option<seq<string>>) returns (r: seq<Item>)
      ensures r == SortBy(Collect(catalogs, Selected(catalogs, types), Keeper(c)), RatingDesc)
      ensures Sorted(r, RatingDesc)
      ensures forall x :: x in r <==> IsHit(catalogs, Selected(catalogs, types), Keeper(c), x)
    {
      var keys := SelectCatalogs(types);
      if |keys| == 0 {
        r := [];
        return;
      }
      var results := Gather(keys, Keeper(c));
      r := SortBy(results, RatingDesc);
      SortedByRating(results);
      forall x ensures x in r <==> IsHit(catalogs, keys, Keeper(c), x) {
        CollectExact(catalogs, keys, Keeper(c), x);
        assert x in r <==> x in multiset(r);
        assert x in results <==> x in multiset(results);
      }
    }

    /** `search_by_genres`: any requested genre equals an item genre after `lower().strip()`. */
    method SearchByGenres(genres: seq<string>, types: Option<seq<string>>) returns (r: seq<Item>)
      ensures r == SortBy(Collect(catalogs, Selected(catalogs, types), Keeper(ByGenres(genres))), RatingDesc)
      ensures Sorted(r, RatingDesc)
      ensures forall x :: x in r <==> IsHit(catalogs, Selected(catalogs, types), Keeper(ByGenres(genres)), x)
    {
      r := Search(ByGenres(genres), types);
    }

    /** `search_by_mood`: the same on the items' `mood` lists. */
    method SearchByMood(moods: seq<string>, types: Option<seq<string>>) returns (r: seq<Item>)
      ensures r == SortBy(Collect(catalogs, Selected(catalogs, types), Keeper(ByMood(moods))), RatingDesc)
      ensures Sorted(r, RatingDesc)
      ensures forall x :: x in r <==> IsHit(catalogs, Selected(catalogs, types), Keeper(ByMood(moods)), x)
    {
      r := Search(ByMood(moods), types);
    }

    /** `search_by_genre_and_mood`: a genre match and a mood match are both needed. */
    method SearchByGenreAndMood(genres: seq<string>, moods: seq<string>, types: Option<seq<string>>)
      returns (r: seq<Item>)
      ensures r == SortBy(Collect(catalogs, Selected(catalogs, types), Keeper(ByGenreAndMood(genres, moods))), RatingDesc)
      ensures Sorted(r, RatingDesc)
      ensures forall x :: x in r <==> IsHit(catalogs, Selected(catalogs, types), Keeper(ByGenreAndMood(genres, moods)), x)
    {
      r := Search(ByGenreAndMood(genres, moods), types);
    }

    /** `get_by_type`: every item of the known requested catalogs, stamped and sorted by rating. */
    method GetByType(types: seq<string>) returns (r: seq<Item>)
      ensures r == SortBy(Collect(catalogs, KnownKeys(catalogs, types), Keeper(AllItems)), RatingDesc)
      ensures Sorted(r, RatingDesc)
      ensures multiset(r) == multiset(Collect(catalogs, KnownKeys(catalogs, types), Keeper(AllItems)))
      ensures |r| == TotalSize(catalogs, KnownKeys(catalogs, types))
    {
      var keys: seq<string> := [];
      var i := 0;
      while i < |types|
        invariant 0 <= i <= |types|
        invariant keys == KnownKeys(catalogs, types[..i])
      {
        var ctKey := TypeKey(types[i]);
        assert types[..i + 1][..i] == types[..i];
        if ctKey in catalogs {
          keys := keys + [ctKey];
        }
        i := i + 1;
      }
      assert types[..|types|] == types;
      var results := Gather(keys, Keeper(AllItems));
      r := SortBy(results, RatingDesc);
      SortedByRating(results);
      CollectAllItemsSize(catalogs, keys);
      assert |r| == |multiset(r)| == |multiset(results)| == |results|;
    }

    /** `get_available_types`: the loaded categories in load order. */
    function GetAvailableTypes(): (r: seq<string>)
      requires Loaded(catalogs)
      ensures forall k :: k in r <==> k in catalogs
      ensures forall i, j :: 0 <= i < j < |r| ==> r[i] != r[j]
    {
      KeysInOrderExact(catalogs);
      KeysInOrder(catalogs)
    }
  }

  /** Sorting by rating is ordered, a permutation and stable on equal ratings. */
  lemma SortedByRating(s: seq<Item>)
    ensures Sorted(SortBy(s, RatingDesc), RatingDesc)
    ensures multiset(SortBy(s, RatingDesc)) == multiset(s)
    ensures forall z :: Ties(SortBy(s, RatingDesc), z, RatingDesc) == Ties(s, z, RatingDesc)
  {
    RatingDescTotalPreorder();
    SortBySorted(s, RatingDesc);
    SortByPermutation(s, RatingDesc);
    forall z ensures Ties(SortBy(s, RatingDesc), z, RatingDesc) == Ties(s, z, RatingDesc) {
      SortByStable(s, z, RatingDesc);
    }
  }

  /** What the `search_catalogs` tool returns. */
  datatype ToolResult = ToolResult(success: bool, count: nat, results: seq<Item>)

  /** `[x.strip() for x in s.split(',')] if s else []`. */
  function CommaList(s: Option<string>): (r: seq<string>)
    ensures s.None? || s.value == "" ==> r == []
    ensures s.Some? && s.value != "" ==> |r| == |Split(s.value, ',')|
    ensures s.Some? && s.value != "" ==> forall i :: 0 <= i < |r| ==> r[i] == Strip(Split(s.value, ',')[i])
  {
    if s.None? || s.value == "" then []
    else
      var parts := Split(s.value, ',');
      seq(|parts|, i requires 0 <= i < |parts| => Strip(parts[i]))
  }

  /** The query `search_catalogs` dispatches to, tried in the order genre+mood, genre, mood, type. */
  function QueryResults(cats: map<string, seq<Item>>, genres: seq<string>, moods: seq<string>,
                        types: Option<seq<string>>): seq<Item>
  {
    if |genres| > 0 && |moods| > 0 then
      SortBy(Collect(cats, Selected(cats, types), Keeper(ByGenreAndMood(genres, moods))), RatingDesc)
    else if |genres| > 0 then SortBy(Collect(cats, Selected(cats, types), Keeper(ByGenres(genres))), RatingDesc)
    else if |moods| > 0 then SortBy(Collect(cats, Selected(cats, types), Keeper(ByMood(moods))), RatingDesc)
    else if types.Some? then SortBy(Collect(cats, KnownKeys(cats, types.value), Keeper(AllItems)), RatingDesc)
    else []
  }

  /** `types_list`: `None` when no types string is given. */
  function TypesList(types: Option<string>): Option<seq<string>> {
    if types.None? || types.value == "" then None else Some(CommaList(types))
  }

  /** The dispatch of `search_catalogs`. */
  method RunQuery(manager: CatalogManager, genres: seq<string>, moods: seq<string>, types: Option<seq<string>>)
    returns (results: seq<Item>)
    ensures results == QueryResults(manager.catalogs, genres, moods, types)
  {
    if |genres| > 0 && |moods| > 0 {
      results := manager.SearchByGenreAndMood(genres, moods, types);
    } else if |genres| > 0 {
      results := manager.SearchByGenres(genres, types);
    } else if |moods| > 0 {
      results := manager.SearchByMood(moods, types);
    } else if types.Some? {
      results := manager.GetByType(types.value);
    } else {
      results := [];
    }
  }

  /** `search_catalogs`: the first 20 results, and the untruncated count. */
  method SearchCatalogs(manager: CatalogManager, genres: Option<string>, moods: Option<string>,
                        types: Option<string>) returns (r: ToolResult)
    ensures r.success
    ensures r.count == |QueryResults(manager.catalogs, CommaList(genres), CommaList(moods), TypesList(types))|
    ensures r.results == Take(QueryResults(manager.catalogs, CommaList(genres), CommaList(moods), TypesList(types)), 20)
    ensures |r.results| <= 20
  {
    var results := RunQuery(manager, CommaList(genres), CommaList(moods), TypesList(types));
    r := ToolResult(true, |results|, Take(results, 20));
  }
}
