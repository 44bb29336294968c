/**
 * Python's stable `sorted(..., key=..., reverse=...)` / `list.sort`, modelled as a stable
 * insertion sort parameterised by a "goes before or ties" relation.
 */
module Sorting {

  /** `le` is total and transitive: a sort key compared with `<=` (or `>=` for `reverse=True`). */
  ghost predicate TotalPreorder<T(!new)>(le: (T, T) -> bool) {
    (forall a, b :: le(a, b) || le(b, a)) &&
    (forall a, b, c :: le(a, b) && le(b, c) ==> le(a, c))
  }

  /** Every element goes before or ties with every later one. */
  ghost predicate Sorted<T>(s: seq<T>, le: (T, T) -> bool) {
    forall i, j :: 0 <= i < j < |s| ==> le(s[i], s[j])
  }

  /** The stable sort: the first element is inserted into the sorted rest, ahead of its ties. */
  function SortBy<T>(s: seq<T>, le: (T, T) -> bool): seq<T>
    decreases |s|
  {
    if |s| == 0 then [] else InsertFirst(s[0], SortBy(s[1..], le), le)
  }

  /**
   * Inserts `x`, which came EARLIER in the input than every element of `s`,
   * before the first element that is not strictly before it, so that `x` precedes its ties.
   */
  function InsertFirst<T>(x: T, s: seq<T>, le: (T, T) -> bool): (r: seq<T>)
    ensures |r| == |s| + 1
    ensures multiset(r) == multiset(s) + multiset{x}
    decreases |s|
  {
    if |s| == 0 || le(x, s[0]) then [x] + s
    else
      assert s == [s[0]] + s[1..];
      [s[0]] + InsertFirst(x, s[1..], le)
  }

  /** The elements of `s` that tie with `z`, in their order in `s`. */
  function Ties<T>(s: seq<T>, z: T, le: (T, T) -> bool): seq<T>
    decreases |s|
  {
    if |s| == 0 then []
    else (if le(s[0], z) && le(z, s[0]) then [s[0]] else []) + Ties(s[1..], z, le)
  }

  /** The sort outputs every input element as often as it occurs. */
  lemma {:induction false} SortByPermutation<T>(s: seq<T>, le: (T, T) -> bool)
    ensures multiset(SortBy(s, le)) == multiset(s)
    decreases |s|
  {
    if |s| > 0 {
      SortByPermutation(s[1..], le);
      assert s == [s[0]] + s[1..];
    }
  }

  lemma {:induction false} InsertFirstSorted<T(!new)>(x: T, s: seq<T>, le: (T, T) -> bool)
    requires TotalPreorder(le) && Sorted(s, le)
    ensures Sorted(InsertFirst(x, s, le), le)
    decreases |s|
  {
    if |s| > 0 && !le(x, s[0]) {
      InsertFirstSorted(x, s[1..], le);
      var r := InsertFirst(x, s[1..], le);
      assert multiset(r) == multiset(s[1..]) + multiset{x};
      forall j | 0 <= j < |r| ensures le(s[0], r[j]) {
        assert r[j] in multiset(r);
        if r[j] != x {
          assert r[j] in multiset(s[1..]);
          var k :| 0 <= k < |s[1..]| && s[1..][k] == r[j];
          assert s[k + 1] == r[j];
        }
      }
    }
  }

  /** The sort's output is ordered by `le`. */
  lemma {:induction false} SortBySorted<T(!new)>(s: seq<T>, le: (T, T) -> bool)
    requires TotalPreorder(le)
    ensures Sorted(SortBy(s, le), le)
    decreases |s|
  {
    if |s| > 0 {
      SortBySorted(s[1..], le);
      InsertFirstSorted(s[0], SortBy(s[1..], le), le);
    }
  }

  /** The sort's output is ordered, a permutation, and holds only input elements. */
  lemma SortByFacts<T(!new)>(s: seq<T>, le: (T, T) -> bool)
    requires TotalPreorder(le)
    ensures Sorted(SortBy(s, le), le)
    ensures multiset(SortBy(s, le)) == multiset(s)
    ensures forall x :: x in SortBy(s, le) ==> x in s
  {
    SortBySorted(s, le);
    SortByPermutation(s, le);
    assert forall x :: x in SortBy(s, le) ==> x in multiset(s);
  }

  lemma {:induction false} TiesConcat<T>(a: seq<T>, b: seq<T>, z: T, le: (T, T) -> bool)
    ensures Ties(a + b, z, le) == Ties(a, z, le) + Ties(b, z, le)
    decreases |a|
  {
    if |a| > 0 {
      TiesConcat(a[1..], b, z, le);
      assert (a + b)[0] == a[0];
      assert (a + b)[1..] == a[1..] + b;
    } else {
      assert a + b == b;
    }
  }

  lemma {:induction false} InsertFirstTies<T(!new)>(x: T, s: seq<T>, z: T, le: (T, T) -> bool)
    requires TotalPreorder(le)
    ensures Ties(InsertFirst(x, s, le), z, le) == Ties([x] + s, z, le)
    decreases |s|
  {
    if |s| > 0 && !le(x, s[0]) {
      InsertFirstTies(x, s[1..], z, le);
      assert InsertFirst(x, s, le) == [s[0]] + InsertFirst(x, s[1..], le);
      assert ([x] + s)[1..] == s;
      assert ([x] + s[1..])[1..] == s[1..];
      assert ([s[0]] + InsertFirst(x, s[1..], le))[1..] == InsertFirst(x, s[1..], le);
      // s[0] is strictly before x, so it does not tie with z when x does.
      if le(x, z) && le(z, x) {
        assert !(le(s[0], z) && le(z, s[0]));
      }
    }
  }

  /** Stability: the elements tying with any `z` keep their input order. */
  lemma {:induction false} SortByStable<T(!new)>(s: seq<T>, z: T, le: (T, T) -> bool)
    requires TotalPreorder(le)
    ensures Ties(SortBy(s, le), z, le) == Ties(s, z, le)
    decreases |s|
  {
    if |s| > 0 {
      var rest := SortBy(s[1..], le);
      SortByStable(s[1..], z, le);
      InsertFirstTies(s[0], rest, z, le);
      assert s == [s[0]] + s[1..];
      TiesConcat([s[0]], rest, z, le);
      TiesConcat([s[0]], s[1..], z, le);
    }
  }
}
