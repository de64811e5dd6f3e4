/** Cursor pagination over a table, and what following the cursors from the first page yields. */
module Cursor {
  import opened Commerce

  /** A row by its primary key and the value of the pagination column. */
  datatype Row = Row(id: nat, key: int)

  /** x comes strictly after y in the chosen direction. */
  predicate After(x: int, y: int, descending: bool) { if descending then x < y else x > y }

  predicate Selected(r: Row, cursor: Option<int>, descending: bool) {
    cursor.Some? ==> After(r.key, cursor.value, descending)
  }

  /** The database's ordered answer to one query; rows with equal keys may come in any order. */
  type Query = Option<int> -> seq<Row>

  ghost predicate Answers(q: Query, table: set<Row>, descending: bool) {
    forall cursor ::
      && (forall r :: r in q(cursor) <==> r in table && Selected(r, cursor, descending))
      && (forall i, j :: 0 <= i < j < |q(cursor)| ==>
            q(cursor)[i] != q(cursor)[j] && !After(q(cursor)[i].key, q(cursor)[j].key, descending))
  }

  /** One page: the query asks for one row more than the limit to see whether there is a next page. */
  function Page(q: Query, cursor: Option<int>, limit: nat): (seq<Row>, Option<int>) {
    var fetched := if |q(cursor)| > limit + 1 then q(cursor)[..limit + 1] else q(cursor);
    if |fetched| > limit then (fetched[..limit], Some(LastKey(fetched, limit))) else (fetched, None)
  }

  /** Index limit - 1; for a limit of 0 that is -1, which names the last row fetched. */
  function LastKey(fetched: seq<Row>, limit: nat): int
    requires |fetched| > limit
  {
    if limit == 0 then fetched[|fetched| - 1].key else fetched[limit - 1].key
  }

  /** Rows that a cursor leaves for the pages after it. */
  ghost function Left(table: set<Row>, cursor: Option<int>, descending: bool): set<Row> {
    set r | r in table && Selected(r, cursor, descending)
  }

  /** A next page has strictly fewer rows left. */
  lemma NextPageIsSmaller(q: Query, table: set<Row>, descending: bool, cursor: Option<int>, limit: nat)
    requires Answers(q, table, descending) && Page(q, cursor, limit).1.Some?
    ensures Left(table, Page(q, cursor, limit).1, descending) < Left(table, cursor, descending)
  {
    var at := if limit == 0 then 0 else limit - 1;
    var last := q(cursor)[at];
    assert last in q(cursor) && last.key == Page(q, cursor, limit).1.value;
    assert last in Left(table, cursor, descending) && last !in Left(table, Some(last.key), descending);
  }

  /** All pages, following the cursors. */
  ghost function Follow(q: Query, table: set<Row>, descending: bool, cursor: Option<int>, limit: nat): seq<Row>
    requires Answers(q, table, descending)
    decreases Left(table, cursor, descending)
  {
    var (items, next) := Page(q, cursor, limit);
    if next.None? then items
    else
      NextPageIsSmaller(q, table, descending, cursor, limit);
      items + Follow(q, table, descending, next, limit)
  }

  /** The cursors handed out on the way. */
  ghost function Cursors(q: Query, table: set<Row>, descending: bool, cursor: Option<int>, limit: nat): seq<int>
    requires Answers(q, table, descending)
    decreases Left(table, cursor, descending)
  {
    var next := Page(q, cursor, limit).1;
    if next.None? then []
    else
      NextPageIsSmaller(q, table, descending, cursor, limit);
      [next.value] + Cursors(q, table, descending, next, limit)
  }

  /** What a page holds and what it hands on. */
  lemma PageSplits(q: Query, table: set<Row>, descending: bool, cursor: Option<int>, limit: nat)
    requires Answers(q, table, descending)
    ensures var (items, next) := Page(q, cursor, limit);
            && (forall i :: 0 <= i < |items| ==> items[i] == q(cursor)[i] && items[i] in Left(table, cursor, descending))
            && (next.None? ==> items == q(cursor))
            && (next.Some? ==> forall i :: 0 <= i < |items| ==> !After(items[i].key, next.value, descending))
            && (next.Some? ==> forall r :: r in Left(table, cursor, descending) && r !in items ==>
                  r.key == next.value || After(r.key, next.value, descending))
  {
    var (items, next) := Page(q, cursor, limit);
    assert items == q(cursor)[..|items|];
    forall i | 0 <= i < |items| ensures items[i] in Left(table, cursor, descending) {
      assert q(cursor)[i] in q(cursor);
    }
    if next.Some? {
      var at := if limit == 0 then 0 else limit - 1;
      assert next.value == q(cursor)[at].key;
      forall r | r in Left(table, cursor, descending) && r !in items
        ensures r.key == next.value || After(r.key, next.value, descending)
      {
        assert r in q(cursor);
        var i :| 0 <= i < |q(cursor)| && q(cursor)[i] == r;
      }
    }
  }

  /** Sorted in the chosen direction and without repeats. */
  ghost predicate SortedOnce(rows: seq<Row>, descending: bool) {
    forall i, j :: 0 <= i < j < |rows| ==> rows[i] != rows[j] && !After(rows[i].key, rows[j].key, descending)
  }

  /**
    Following the cursors gives sorted rows of the table, none twice, and leaves out only rows whose
    key ties with a cursor on the way.
  */
  lemma {:induction false} FollowIsSound(q: Query, table: set<Row>, descending: bool, cursor: Option<int>, limit: nat)
    requires Answers(q, table, descending)
    ensures var all := Follow(q, table, descending, cursor, limit);
            && SortedOnce(all, descending)
            && (forall r :: r in all ==> r in Left(table, cursor, descending))
            && (forall r :: r in Left(table, cursor, descending) && r !in all ==>
                  r.key in Cursors(q, table, descending, cursor, limit))
    decreases Left(table, cursor, descending)
  {
    var (items, next) := Page(q, cursor, limit);
    PageSplits(q, table, descending, cursor, limit);
    assert SortedOnce(items, descending);
    if next.Some? {
      NextPageIsSmaller(q, table, descending, cursor, limit);
      FollowIsSound(q, table, descending, next, limit);
      var rest := Follow(q, table, descending, next, limit);
      forall j | 0 <= j < |rest| ensures After(rest[j].key, next.value, descending) {
        assert rest[j] in rest;
      }
      SortedAcross(items, rest, next.value, descending);
    }
  }

  lemma SortedAcross(items: seq<Row>, rest: seq<Row>, key: int, descending: bool)
    requires SortedOnce(items, descending) && SortedOnce(rest, descending)
    requires forall i :: 0 <= i < |items| ==> !After(items[i].key, key, descending)
    requires forall j :: 0 <= j < |rest| ==> After(rest[j].key, key, descending)
    ensures SortedOnce(items + rest, descending)
  {
  }

  /** The direction in plain terms: keys ascend past the cursor, or descend from it if asked to. */
  lemma FollowGoesItsWay(q: Query, table: set<Row>, descending: bool, cursor: Option<int>, limit: nat)
    requires Answers(q, table, descending)
    ensures var all := Follow(q, table, descending, cursor, limit);
            && (!descending ==> forall i, j :: 0 <= i < j < |all| ==> all[i].key <= all[j].key)
            && (descending ==> forall i, j :: 0 <= i < j < |all| ==> all[i].key >= all[j].key)
            && (cursor.Some? ==> forall i :: 0 <= i < |all| ==>
                  if descending then all[i].key < cursor.value else all[i].key > cursor.value)
  {
    FollowIsSound(q, table, descending, cursor, limit);
    var all := Follow(q, table, descending, cursor, limit);
    forall i | 0 <= i < |all| ensures all[i] in Left(table, cursor, descending) { assert all[i] in all; }
  }

  ghost predicate DistinctKeys(table: set<Row>) {
    forall r, s :: r in table && s in table && r.key == s.key ==> r == s
  }

  /** With distinct keys and a positive limit, the pages are the whole sorted result, each row once. */
  lemma {:induction false} DistinctKeysYieldAll(q: Query, table: set<Row>, descending: bool, cursor: Option<int>, limit: nat)
    requires Answers(q, table, descending) && DistinctKeys(table) && limit > 0
    ensures Follow(q, table, descending, cursor, limit) == q(cursor)
    decreases Left(table, cursor, descending)
  {
    var (items, next) := Page(q, cursor, limit);
    if next.Some? {
      NextPageIsSmaller(q, table, descending, cursor, limit);
      DistinctKeysYieldAll(q, table, descending, next, limit);
      RestIsNextAnswer(q, table, descending, cursor, limit);
      assert items + q(cursor)[limit..] == q(cursor);
    }
  }

  lemma RestIsNextAnswer(q: Query, table: set<Row>, descending: bool, cursor: Option<int>, limit: nat)
    requires Answers(q, table, descending) && DistinctKeys(table) && limit > 0 && Page(q, cursor, limit).1.Some?
    ensures q(cursor)[limit..] == q(Page(q, cursor, limit).1)
  {
    var next := Page(q, cursor, limit).1;
    var rest := q(cursor)[limit..];
    var last := q(cursor)[limit - 1];
    assert last in q(cursor);
    forall r ensures r in rest <==> r in q(next) {
      if r in rest {
        var i :| limit <= i < |q(cursor)| && q(cursor)[i] == r;
        assert r in q(cursor);
      }
      if r in q(next) {
        assert r in q(cursor);
        var i :| 0 <= i < |q(cursor)| && q(cursor)[i] == r;
        assert i >= limit;
        assert rest[i - limit] == r;
      }
    }
    SortedSetsAgree(rest, q(next), descending);
  }

  /** Two sorted sequences of the same rows with distinct keys are the same. */
  lemma {:induction false} SortedSetsAgree(a: seq<Row>, b: seq<Row>, descending: bool)
    requires SortedOnce(a, descending) && SortedOnce(b, descending)
    requires forall r :: r in a <==> r in b
    requires forall r, s :: r in a && s in a && r.key == s.key ==> r == s
    ensures a == b
  {
    if |a| == 0 {
      SomeMember(b);
    } else {
      assert a[0] in a && b[0] in b;
      var i :| 0 <= i < |b| && b[i] == a[0];
      var j :| 0 <= j < |a| && a[j] == b[0];
      assert a[0] == b[0];
      forall r ensures r in a[1..] <==> r in b[1..] {
        assert r in a <==> r == a[0] || r in a[1..];
        assert r in b <==> r == b[0] || r in b[1..];
        assert a[0] !in a[1..] && b[0] !in b[1..];
      }
      SortedSetsAgree(a[1..], b[1..], descending);
    }
  }

  lemma SomeMember(rows: seq<Row>)
    ensures rows == [] || exists r :: r in rows
  {
    if rows != [] {
      assert rows[0] in rows;
    }
  }

  /** The extra row fetched ties with the last row of its page. A limit of 0 loses the row it stops at. */
  predicate TiedBoundary(q: Query, cursor: Option<int>, limit: nat) {
    |q(cursor)| > limit && (limit == 0 || q(cursor)[limit].key == q(cursor)[limit - 1].key)
  }

  ghost predicate NoTiedBoundary(q: Query, table: set<Row>, descending: bool, cursor: Option<int>, limit: nat)
    requires Answers(q, table, descending)
    decreases Left(table, cursor, descending)
  {
    var next := Page(q, cursor, limit).1;
    !TiedBoundary(q, cursor, limit) &&
    (next.Some? ==>
       (NextPageIsSmaller(q, table, descending, cursor, limit);
        NoTiedBoundary(q, table, descending, next, limit)))
  }

  /** The rows of the answer that a page does not show start at index limit. */
  lemma PageShowsFirst(q: Query, cursor: Option<int>, limit: nat, i: nat)
    requires |q(cursor)| > limit && i < |q(cursor)|
    ensures i < limit ==> q(cursor)[i] in Page(q, cursor, limit).0
    ensures Page(q, cursor, limit).0 == q(cursor)[..limit]
  {
    var items := Page(q, cursor, limit).0;
    assert items == q(cursor)[..limit];
    assert i < limit ==> q(cursor)[..limit][i] == q(cursor)[i];
  }

  lemma TieIsLost(q: Query, table: set<Row>, descending: bool, cursor: Option<int>, limit: nat)
    requires Answers(q, table, descending) && TiedBoundary(q, cursor, limit)
    ensures var (items, next) := Page(q, cursor, limit);
            next.Some? && exists r :: r in Left(table, cursor, descending) && r !in items && r.key == next.value
  {
    var extra := q(cursor)[limit];
    PageShowsFirst(q, cursor, limit, limit);
    assert extra in q(cursor) && extra in Left(table, cursor, descending);
  }

  lemma LostIsTied(q: Query, table: set<Row>, descending: bool, cursor: Option<int>, limit: nat, r: Row)
    requires Answers(q, table, descending) && Page(q, cursor, limit).1.Some?
    requires r in Left(table, cursor, descending) && r !in Page(q, cursor, limit).0 && r.key == Page(q, cursor, limit).1.value
    ensures TiedBoundary(q, cursor, limit)
  {
    assert r in q(cursor);
    var i :| 0 <= i < |q(cursor)| && q(cursor)[i] == r;
    PageShowsFirst(q, cursor, limit, i);
  }

  /** A page loses a row exactly when its boundary is tied. */
  lemma TiedBoundaryLosesRow(q: Query, table: set<Row>, descending: bool, cursor: Option<int>, limit: nat)
    requires Answers(q, table, descending)
    ensures TiedBoundary(q, cursor, limit) <==>
            var (items, next) := Page(q, cursor, limit);
            next.Some? && exists r :: r in Left(table, cursor, descending) && r !in items && r.key == next.value
  {
    var (items, next) := Page(q, cursor, limit);
    if TiedBoundary(q, cursor, limit) {
      TieIsLost(q, table, descending, cursor, limit);
    } else if next.Some? && exists r :: r in Left(table, cursor, descending) && r !in items && r.key == next.value {
      var r :| r in Left(table, cursor, descending) && r !in items && r.key == next.value;
      LostIsTied(q, table, descending, cursor, limit, r);
    }
  }

  /** Exactly when nothing is missed: no page ends in the middle of rows with equal keys. */
  lemma {:induction false} NothingMissedIffNoTies(q: Query, table: set<Row>, descending: bool, cursor: Option<int>, limit: nat)
    requires Answers(q, table, descending)
    ensures (forall r :: r in Left(table, cursor, descending) ==> r in Follow(q, table, descending, cursor, limit)) <==>
            NoTiedBoundary(q, table, descending, cursor, limit)
    decreases Left(table, cursor, descending)
  {
    var (items, next) := Page(q, cursor, limit);
    PageSplits(q, table, descending, cursor, limit);
    TiedBoundaryLosesRow(q, table, descending, cursor, limit);
    if next.Some? {
      NextPageIsSmaller(q, table, descending, cursor, limit);
      NothingMissedIffNoTies(q, table, descending, next, limit);
      FollowIsSound(q, table, descending, next, limit);
      var rest := Follow(q, table, descending, next, limit);
      assert forall r :: r in items + rest <==> r in items || r in rest;
    }
  }
}
