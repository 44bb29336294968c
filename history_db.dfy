/**
 * The SQLite history ledger as three in-memory tables. Timestamps are passed in
 * (`now`); rows are kept in insertion (rowid) order.
 */
module HistoryDb {
  import opened Wrappers
  import opened JsonData
  import opened Sorting
  import opened Lists

  /** A row of `users`; `preferences` is the stored JSON object. */
  datatype UserRow = UserRow(userId: string, createdAt: int, updatedAt: int, preferences: map<string, Json>)

  /** A row of `content_history`. */
  datatype HistoryRow = HistoryRow(
    id: nat, userId: string, contentId: string, contentType: string, title: string,
    consumedAt: int, rating: Option<real>, notes: string)

  /** A row of `recommendations`. */
  datatype RecRow = RecRow(
    id: nat, userId: string, batchId: string, contentId: string, contentType: string, title: string,
    explanation: string, ranking: int, createdAt: int, viewed: bool)

  /** `ORDER BY consumed_at DESC`. */
  predicate ConsumedDesc(a: HistoryRow, b: HistoryRow) {
    a.consumedAt >= b.consumedAt
  }

  /** `ORDER BY ranking ASC`. */
  predicate RankingAsc(a: RecRow, b: RecRow) {
    a.ranking <= b.ranking
  }

  /** `ORDER BY created_at DESC, ranking ASC`. */
  predicate CreatedDescRankingAsc(a: RecRow, b: RecRow) {
    a.createdAt > b.createdAt || (a.createdAt == b.createdAt && a.ranking <= b.ranking)
  }

  lemma OrdersAreTotalPreorders()
    ensures TotalPreorder(ConsumedDesc)
    ensures TotalPreorder(RankingAsc)
    ensures TotalPreorder(CreatedDescRankingAsc)
  {
  }

  /** `WHERE user_id = ? [AND content_type = ?]`; an empty or absent type does not filter. */
  function HistoryOf(userId: string, contentType: Option<string>): HistoryRow -> bool {
    (h: HistoryRow) => h.userId == userId && (contentType.None? || contentType.value == "" || h.contentType == contentType.value)
  }

  /** `WHERE user_id = ? [AND recommendation_batch_id = ?]`; an empty or absent batch does not filter. */
  function RecsOf(userId: string, batchId: Option<string>): RecRow -> bool {
    (r: RecRow) => r.userId == userId && (batchId.None? || batchId.value == "" || r.batchId == batchId.value)
  }

  /** `WHERE user_id != ?`: the rows INSERT OR REPLACE keeps. */
  function NotUser(userId: string): UserRow -> bool {
    (u: UserRow) => u.userId != userId
  }

  /** The content ids of rows, in row order. */
  function ContentIds(rows: seq<HistoryRow>): (r: seq<string>)
    ensures |r| == |rows| && forall i :: 0 <= i < |rows| ==> r[i] == rows[i].contentId
  {
    seq(|rows|, i requires 0 <= i < |rows| => rows[i].contentId)
  }

  class HistoryDatabase {
    var users: seq<UserRow>
    var history: seq<HistoryRow>
    var recommendations: seq<RecRow>
    /** The next AUTOINCREMENT ids. */
    var nextHistoryId: nat
    var nextRecId: nat

    /** `user_id` is the primary key, and every AUTOINCREMENT id is below the next one. */
    ghost predicate Valid()
      reads this
    {
      KeyedByUser(users) &&
      (forall i :: 0 <= i < |history| ==> history[i].id < nextHistoryId) &&
      (forall i :: 0 <= i < |recommendations| ==> recommendations[i].id < nextRecId)
    }

    /** `init_db` on a fresh file: three empty tables. */
    constructor ()
      ensures Valid()
      ensures users == [] && history == [] && recommendations == []
    {
      users := [];
      history := [];
      recommendations := [];
      nextHistoryId := 1;
      nextRecId := 1;
    }

    /** The users table without the row of `userId`. */
    function OtherUsers(userId: string): (r: seq<UserRow>)
      reads this
      ensures forall u :: u in r <==> u in users && u.userId != userId
    {
      Filter(users, NotUser(userId))
    }

    /** `create_user`: INSERT OR REPLACE, so an existing row is replaced with fresh timestamps. */
    method CreateUser(userId: string, preferences: Option<map<string, Json>>, now: int)
      requires Valid()
      modifies this
      ensures Valid()
      ensures users == old(OtherUsers(userId)) + [UserRow(userId, now, now, preferences.GetOr(map[]))]
      ensures history == old(history) && recommendations == old(recommendations)
      ensures nextHistoryId == old(nextHistoryId) && nextRecId == old(nextRecId)
    {
      var others := OtherUsers(userId);
      // `json.dumps(preferences) if preferences else json.dumps({})`: None and {} both store {}.
      var prefs := if preferences.Some? && preferences.value != map[] then preferences.value else map[];
      FilterDistinctUsers(users, userId);
      assert forall k :: 0 <= k < |others| ==> others[k] in others;
      users := others + [UserRow(userId, now, now, prefs)];
    }

    /** `get_user`: the row of that id, or None. */
    function GetUser(userId: string): (r: Option<UserRow>)
      reads this
      requires Valid()
      ensures r.Some? <==> exists i :: 0 <= i < |users| && users[i].userId == userId
      ensures r.Some? ==> r.value in users && r.value.userId == userId
    {
      FindUser(users, userId)
    }

    /** `add_to_history`: one new row for the user, stamped `now`. */
    method AddToHistory(userId: string, contentId: string, contentType: string, title: string,
                        rating: Option<real>, notes: string, now: int)
      requires Valid()
      modifies this
      ensures Valid()
      ensures history == old(history) + [HistoryRow(old(nextHistoryId), userId, contentId, contentType, title, now, rating, notes)]
      ensures nextHistoryId == old(nextHistoryId) + 1
      ensures users == old(users) && recommendations == old(recommendations) && nextRecId == old(nextRecId)
    {
      history := history + [HistoryRow(nextHistoryId, userId, contentId, contentType, title, now, rating, notes)];
      nextHistoryId := nextHistoryId + 1;
    }

    /** `get_user_history`: that user's rows (of that type, when one is given), newest first. */
    function GetUserHistory(userId: string, contentType: Option<string>): (r: seq<HistoryRow>)
      reads this
      ensures multiset(r) == multiset(Filter(history, HistoryOf(userId, contentType)))
      ensures Sorted(r, ConsumedDesc)
      ensures forall h :: h in r ==> h in history && h.userId == userId
      ensures contentType.Some? && contentType.value != "" ==> forall h :: h in r ==> h.contentType == contentType.value
    {
      var rows := Filter(history, HistoryOf(userId, contentType));
      OrdersAreTotalPreorders();
      SortByFacts(rows, ConsumedDesc);
      SortBy(rows, ConsumedDesc)
    }

    /** `get_consumed_ids`: `SELECT DISTINCT content_id` over that user's rows. */
    function GetConsumedIds(userId: string): (r: seq<string>)
      reads this
      ensures Distinct(r)
      ensures forall c :: c in r <==> exists i :: 0 <= i < |history| && history[i].userId == userId && history[i].contentId == c
    {
      var rows := Filter(history, HistoryOf(userId, None));
      var r := Dedup(ContentIds(rows));
      assert forall c :: c in r <==> c in ContentIds(rows);
      assert forall c :: c in ContentIds(rows) <==> exists k :: 0 <= k < |rows| && rows[k].contentId == c;
      forall c | exists i :: 0 <= i < |history| && history[i].userId == userId && history[i].contentId == c
        ensures c in r
      {
        var i :| 0 <= i < |history| && history[i].userId == userId && history[i].contentId == c;
        assert history[i] in rows;
      }
      r
    }

    /** `save_recommendation`: one new row, not yet viewed. */
    method SaveRecommendation(userId: string, batchId: string, contentId: string, contentType: string,
                              title: string, explanation: string, ranking: int, now: int)
      requires Valid()
      modifies this
      ensures Valid()
      ensures recommendations == old(recommendations) +
        [RecRow(old(nextRecId), userId, batchId, contentId, contentType, title, explanation, ranking, now, false)]
      ensures nextRecId == old(nextRecId) + 1
      ensures users == old(users) && history == old(history) && nextHistoryId == old(nextHistoryId)
    {
      recommendations := recommendations +
        [RecRow(nextRecId, userId, batchId, contentId, contentType, title, explanation, ranking, now, false)];
      nextRecId := nextRecId + 1;
    }

    /**
     * `get_recommendations`: with a batch id, that batch by ascending ranking; otherwise all
     * of the user's rows, newest first and by ascending ranking within a timestamp.
     */
    function GetRecommendations(userId: string, batchId: Option<string>): (r: seq<RecRow>)
      reads this
      ensures multiset(r) == multiset(Filter(recommendations, RecsOf(userId, batchId)))
      ensures forall x :: x in r ==> x in recommendations && x.userId == userId
      ensures batchId.Some? && batchId.value != "" ==>
        Sorted(r, RankingAsc) && forall x :: x in r ==> x.batchId == batchId.value
      ensures batchId.None? || batchId.value == "" ==> Sorted(r, CreatedDescRankingAsc)
    {
      var rows := Filter(recommendations, RecsOf(userId, batchId));
      OrdersAreTotalPreorders();
      if batchId.Some? && batchId.value != "" then
        SortByFacts(rows, RankingAsc);
        SortBy(rows, RankingAsc)
      else
        SortByFacts(rows, CreatedDescRankingAsc);
        SortBy(rows, CreatedDescRankingAsc)
    }

    /** `update_preferences`: the named user's row gets the new preferences and `updated_at`; an absent user is a no-op. */
    method UpdatePreferences(userId: string, preferences: map<string, Json>, now: int)
      requires Valid()
      modifies this
      ensures Valid()
      ensures |users| == |old(users)|
      ensures forall i :: 0 <= i < |users| ==>
        users[i] == if old(users[i]).userId == userId
                    then old(users[i]).(preferences := preferences, updatedAt := now)
                    else old(users[i])
      ensures history == old(history) && recommendations == old(recommendations)
      ensures nextHistoryId == old(nextHistoryId) && nextRecId == old(nextRecId)
    {
      var rows := users;
      users := seq(|rows|, i requires 0 <= i < |rows| =>
        if rows[i].userId == userId then rows[i].(preferences := preferences, updatedAt := now) else rows[i]);
    }
  }

  /** The row of `userId` in a table keyed by user id. */
  function FindUser(rows: seq<UserRow>, userId: string): (r: Option<UserRow>)
    ensures r.Some? <==> exists i :: 0 <= i < |rows| && rows[i].userId == userId
    ensures r.Some? ==> r.value in rows && r.value.userId == userId
    decreases |rows|
  {
    if |rows| == 0 then None
    else if rows[0].userId == userId then Some(rows[0])
    else
      var r := FindUser(rows[1..], userId);
      assert forall i :: 1 <= i < |rows| ==> rows[i] == rows[1..][i - 1];
      r
  }

  /** No two rows share a user id: the primary-key constraint of `users`. */
  predicate KeyedByUser(rows: seq<UserRow>) {
    forall i, j :: 0 <= i < j < |rows| ==> rows[i].userId != rows[j].userId
  }

  /** In a keyed table, no later row shares the first row's user id. */
  lemma KeyedHead(rows: seq<UserRow>)
    requires |rows| > 0 && KeyedByUser(rows)
    ensures forall y :: y in rows[1..] ==> y.userId != rows[0].userId
  {
    forall y | y in rows[1..] ensures y.userId != rows[0].userId {
      var m :| 0 <= m < |rows[1..]| && rows[1..][m] == y;
      assert rows[m + 1] == y;
    }
  }

  /** A row whose user id is new may head a keyed table. */
  lemma KeyedCons(x: UserRow, rest: seq<UserRow>)
    requires KeyedByUser(rest) && forall y :: y in rest ==> y.userId != x.userId
    ensures KeyedByUser([x] + rest)
  {
    var r := [x] + rest;
    forall i, j | 0 <= i < j < |r| ensures r[i].userId != r[j].userId {
      assert r[j] == rest[j - 1] && rest[j - 1] in rest;
      if i > 0 {
        assert r[i] == rest[i - 1];
      }
    }
  }

  /** Removing a user's row from a keyed table leaves a keyed table. */
  lemma {:induction false} FilterDistinctUsers(rows: seq<UserRow>, userId: string)
    requires KeyedByUser(rows)
    ensures KeyedByUser(Filter(rows, NotUser(userId)))
    decreases |rows|
  {
    if |rows| > 0 {
      assert KeyedByUser(rows[1..]) by {
        forall i, j | 0 <= i < j < |rows[1..]| ensures rows[1..][i].userId != rows[1..][j].userId {
          assert rows[1..][i] == rows[i + 1] && rows[1..][j] == rows[j + 1];
        }
      }
      FilterDistinctUsers(rows[1..], userId);
      var rest := Filter(rows[1..], NotUser(userId));
      if NotUser(userId)(rows[0]) {
        KeyedHead(rows);
        KeyedCons(rows[0], rest);
        assert Filter(rows, NotUser(userId)) == [rows[0]] + rest;
      } else {
        assert Filter(rows, NotUser(userId)) == rest;
      }
    }
  }

  /** Inserting or replacing a user makes `get_user` return exactly the new row. */
  lemma CreateThenGet(rows: seq<UserRow>, userId: string, row: UserRow)
    requires row.userId == userId
    ensures FindUser(Filter(rows, NotUser(userId)) + [row], userId) == Some(row)
  {
    var others := Filter(rows, NotUser(userId));
    FindUserAbsent(others, [row], userId);
  }

  lemma {:induction false} FindUserAbsent(a: seq<UserRow>, b: seq<UserRow>, userId: string)
    requires forall i :: 0 <= i < |a| ==> a[i].userId != userId
    ensures FindUser(a + b, userId) == FindUser(b, userId)
    decreases |a|
  {
    if |a| == 0 {
      assert a + b == b;
    } else {
      FindUserAbsent(a[1..], b, userId);
      assert (a + b)[1..] == a[1..] + b;
    }
  }
}
