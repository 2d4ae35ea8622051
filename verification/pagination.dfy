/** Cursor pagination: `listAuctions` over `listWithFilters`, and what a client gets that follows `nextCursor`
    until `hasMore` is false, over a table and a clock that stand still. */
module Pagination {
  import opened Schema

  datatype SortBy = EndingSoon | Popular | PriceLow | BidCount | Newest

  /** An auction as the list query sees it; the id stands for its text, ordered alike. */
  datatype Row = Row(
    id: nat, status: AuctionStatus, endTime: Millis, currentPrice: int, createdAt: Millis, bidCount: nat,
    brand: string, size: string)

  /** `hits` are the auctions the search text matches.  An empty brand or size filters nothing. */
  datatype Query = Query(
    now: Millis, brand: Option<string>, size: Option<string>, hits: Option<set<nat>>, sort: SortBy)

  datatype Cursor = Cursor(key: int, id: nat)

  datatype Page = Page(items: seq<Row>, nextCursor: Option<nat>, hasMore: bool)

  // ---------------------------------------------------------------- the query

  predicate Matches(q: Query, r: Row) {
    && r.status == OPEN && r.endTime > q.now
    && (q.brand.Some? && q.brand.value != "" ==> r.brand == q.brand.value)
    && (q.size.Some? && q.size.value != "" ==> r.size == q.size.value)
    && (q.hits.Some? ==> r.id in q.hits.value)
  }

  function Key(r: Row, sort: SortBy): int {
    match sort
    case EndingSoon => r.endTime
    case Popular => r.currentPrice
    case PriceLow => r.currentPrice
    case BidCount => r.bidCount
    case Newest => r.createdAt
  }

  predicate IsAscending(sort: SortBy) { sort.EndingSoon? || sort.PriceLow? }

  /** Row comparison in SQL: by the key, then by the id. */
  predicate Less(key1: int, id1: nat, key2: int, id2: nat) { key1 < key2 || (key1 == key2 && id1 < id2) }

  /** The ORDER BY clause: the key up or down, and the id always up. */
  predicate Before(sort: SortBy, a: Row, b: Row) {
    if IsAscending(sort) then Less(Key(a, sort), a.id, Key(b, sort), b.id)
    else Less(-Key(a, sort), a.id, -Key(b, sort), b.id)
  }

  /** The cursor condition: after the cursor for the ascending sorts, and for the descending ones key and id
      both smaller, although the list runs up in the id. */
  predicate Admits(sort: SortBy, c: Cursor, r: Row) {
    if IsAscending(sort) then Less(c.key, c.id, Key(r, sort), r.id) else Less(Key(r, sort), r.id, c.key, c.id)
  }

  predicate Chosen(q: Query, cursor: Option<Cursor>, r: Row) {
    Matches(q, r) && (cursor.Some? ==> Admits(q.sort, cursor.value, r))
  }

  function Select(rows: seq<Row>, q: Query, cursor: Option<Cursor>): seq<Row> {
    if rows == [] then []
    else (if Chosen(q, cursor, rows[0]) then [rows[0]] else []) + Select(rows[1..], q, cursor)
  }

  function Insert(rows: seq<Row>, r: Row, sort: SortBy): seq<Row> {
    if rows == [] then [r]
    else if Before(sort, r, rows[0]) then [r] + rows
    else [rows[0]] + Insert(rows[1..], r, sort)
  }

  function Ordered(rows: seq<Row>, sort: SortBy): seq<Row> {
    if rows == [] then [] else Insert(Ordered(rows[1..], sort), rows[0], sort)
  }

  function Find(table: seq<Row>, id: nat): Option<Row> {
    if table == [] then None else if table[0].id == id then Some(table[0]) else Find(table[1..], id)
  }

  /** The subquery on the cursor's row.  Without such a row it is NULL and admits nothing, except for the bid
      count, which is then zero. */
  function CursorOf(table: seq<Row>, sort: SortBy, id: nat): Option<Cursor> {
    var row := Find(table, id);
    if row.Some? then Some(Cursor(Key(row.value, sort), id))
    else if sort.BidCount? then Some(Cursor(0, id))
    else None
  }

  /** All rows of the query from the cursor on, before the LIMIT. */
  function Answer(table: seq<Row>, q: Query, afterId: Option<nat>): seq<Row> {
    if afterId.None? then Ordered(Select(table, q, None), q.sort)
    else
      var cursor := CursorOf(table, q.sort, afterId.value);
      if cursor.None? then [] else Ordered(Select(table, q, cursor), q.sort)
  }

  function Limited(rows: seq<Row>, limit: nat): seq<Row> { if |rows| > limit then rows[..limit] else rows }

  function ListWithFilters(table: seq<Row>, q: Query, afterId: Option<nat>, limit: nat): seq<Row> {
    Limited(Answer(table, q, afterId), limit + 1)
  }

  function ListAuctions(table: seq<Row>, q: Query, afterId: Option<nat>, limit: nat): Page
    requires limit >= 1
  {
    var rows := ListWithFilters(table, q, afterId, limit);
    var hasMore := |rows| > limit;
    var sliced := if hasMore then rows[..limit] else rows;
    Page(sliced, if hasMore then Some(sliced[|sliced| - 1].id) else None, hasMore)
  }

  // ---------------------------------------------------------------- the order

  predicate DistinctIds(rows: seq<Row>) { forall i, j :: 0 <= i < j < |rows| ==> rows[i].id != rows[j].id }

  predicate InSequence(rows: seq<Row>, sort: SortBy) {
    forall i, j :: 0 <= i < j < |rows| ==> Before(sort, rows[i], rows[j])
  }

  lemma {:induction false} InsertAdds(rows: seq<Row>, r: Row, sort: SortBy)
    ensures multiset(Insert(rows, r, sort)) == multiset(rows) + multiset{r}
  {
    hide Before;
    if rows == [] {
    } else {
      if Before(sort, r, rows[0]) {
        assert multiset([r] + rows) == multiset{r} + multiset(rows);
      } else {
        var rest := Insert(rows[1..], r, sort);
        InsertAdds(rows[1..], r, sort);
        assert multiset([rows[0]] + rest) == multiset{rows[0]} + multiset(rest);
        assert rows == [rows[0]] + rows[1..];
        assert multiset([rows[0]] + rows[1..]) == multiset{rows[0]} + multiset(rows[1..]);
      }
    }
  }

  lemma {:induction false} InsertOrders(rows: seq<Row>, r: Row, sort: SortBy)
    requires InSequence(rows, sort) && forall k :: 0 <= k < |rows| ==> rows[k].id != r.id
    ensures InSequence(Insert(rows, r, sort), sort)
  {
    if rows == [] || Before(sort, r, rows[0]) {
    } else {
      var rest := Insert(rows[1..], r, sort);
      InsertOrders(rows[1..], r, sort);
      InsertAdds(rows[1..], r, sort);
      forall k | 0 <= k < |rest| ensures Before(sort, rows[0], rest[k]) {
        assert rest[k] in multiset(rest);
        if rest[k] != r {
          assert rest[k] in rows[1..];
          var j :| 0 <= j < |rows[1..]| && rows[1..][j] == rest[k];
          assert Before(sort, rows[0], rows[j + 1]);
        }
      }
    }
  }

  lemma {:induction false} OrderedOrders(rows: seq<Row>, sort: SortBy)
    requires DistinctIds(rows)
    ensures InSequence(Ordered(rows, sort), sort) && multiset(Ordered(rows, sort)) == multiset(rows)
  {
    hide Insert, Before;
    if rows == [] {
    } else {
      var rest := Ordered(rows[1..], sort);
      OrderedOrders(rows[1..], sort);
      forall k | 0 <= k < |rest| ensures rest[k].id != rows[0].id {
        assert rest[k] in multiset(rest);
        var j :| 0 <= j < |rows[1..]| && rows[1..][j] == rest[k];
      }
      InsertOrders(rest, rows[0], sort);
      InsertAdds(rest, rows[0], sort);
      assert rows == [rows[0]] + rows[1..];
    }
  }

  lemma {:induction false} SelectMembers(rows: seq<Row>, q: Query, cursor: Option<Cursor>)
    ensures forall r :: r in Select(rows, q, cursor) <==> r in rows && Chosen(q, cursor, r)
    ensures |Select(rows, q, cursor)| <= |rows|
  {
    if rows == [] {
    } else {
      SelectMembers(rows[1..], q, cursor);
      assert rows == [rows[0]] + rows[1..];
    }
  }

  lemma {:induction false} SelectInSequence(rows: seq<Row>, q: Query, cursor: Option<Cursor>)
    requires InSequence(rows, q.sort)
    ensures InSequence(Select(rows, q, cursor), q.sort)
  {
    if rows == [] {
    } else {
      var rest := Select(rows[1..], q, cursor);
      SelectInSequence(rows[1..], q, cursor);
      SelectMembers(rows[1..], q, cursor);
      forall k | 0 <= k < |rest| ensures Before(q.sort, rows[0], rest[k]) {
        assert rest[k] in rest;
        var j :| 0 <= j < |rows[1..]| && rows[1..][j] == rest[k];
      }
    }
  }

  lemma {:induction false} SelectDistinct(rows: seq<Row>, q: Query, cursor: Option<Cursor>)
    requires DistinctIds(rows)
    ensures DistinctIds(Select(rows, q, cursor))
  {
    if rows == [] {
    } else {
      var rest := Select(rows[1..], q, cursor);
      SelectDistinct(rows[1..], q, cursor);
      SelectMembers(rows[1..], q, cursor);
      forall k | 0 <= k < |rest| ensures rows[0].id != rest[k].id {
        assert rest[k] in rest;
        var j :| 0 <= j < |rows[1..]| && rows[1..][j] == rest[k];
      }
    }
  }

  lemma HeadIn(rows: seq<Row>)
    ensures rows == [] || rows[0] in rows
  {
  }

  /** Two lists in sequence with the same members are the same list. */
  lemma {:induction false} SequenceUnique(a: seq<Row>, b: seq<Row>, sort: SortBy)
    requires InSequence(a, sort) && InSequence(b, sort) && forall r :: r in a <==> r in b
    ensures a == b
  {
    HeadIn(b);
    if a == [] {
    } else {
      assert a[0] in b && b[0] in a;
      var i :| 0 <= i < |a| && a[i] == b[0];
      var j :| 0 <= j < |b| && b[j] == a[0];
      assert a[0] == b[0];
      forall r ensures r in a[1..] <==> r in b[1..] {
        if r in a[1..] {
          var k :| 0 <= k < |a[1..]| && a[1..][k] == r;
          assert r in b && Before(sort, a[0], a[k + 1]);
        }
        if r in b[1..] {
          var k :| 0 <= k < |b[1..]| && b[1..][k] == r;
          assert r in a && Before(sort, b[0], b[k + 1]);
        }
      }
      SequenceUnique(a[1..], b[1..], sort);
    }
  }

  /** The full list: the matching rows in the order of the sort. */
  function FullList(table: seq<Row>, q: Query): seq<Row> { Ordered(Select(table, q, None), q.sort) }

  /** The rows a listing shows: on offer, not ended, of the brand and size asked for, found by the search. */
  predicate OnOffer(q: Query, r: Row) {
    && r.status == OPEN && q.now < r.endTime
    && (q.brand.Some? ==> q.brand.value == "" || r.brand == q.brand.value)
    && (q.size.Some? ==> q.size.value == "" || r.size == q.size.value)
    && (q.hits.Some? ==> r.id in q.hits.value)
  }

  /** The order of a listing, sort by sort; the smaller id first among equals. */
  predicate Precedes(sort: SortBy, a: Row, b: Row) {
    match sort
    case EndingSoon => a.endTime < b.endTime || (a.endTime == b.endTime && a.id < b.id)
    case Popular => a.currentPrice > b.currentPrice || (a.currentPrice == b.currentPrice && a.id < b.id)
    case PriceLow => a.currentPrice < b.currentPrice || (a.currentPrice == b.currentPrice && a.id < b.id)
    case BidCount => a.bidCount > b.bidCount || (a.bidCount == b.bidCount && a.id < b.id)
    case Newest => a.createdAt > b.createdAt || (a.createdAt == b.createdAt && a.id < b.id)
  }

  /** What a page after row `c` may show, sort by sort; the larger id among equals when the sort runs up, the smaller
      one when it runs down. */
  predicate Behind(sort: SortBy, c: Row, r: Row) {
    match sort
    case EndingSoon => c.endTime < r.endTime || (c.endTime == r.endTime && c.id < r.id)
    case Popular => r.currentPrice < c.currentPrice || (r.currentPrice == c.currentPrice && r.id < c.id)
    case PriceLow => c.currentPrice < r.currentPrice || (c.currentPrice == r.currentPrice && c.id < r.id)
    case BidCount => r.bidCount < c.bidCount || (r.bidCount == c.bidCount && r.id < c.id)
    case Newest => r.createdAt < c.createdAt || (r.createdAt == c.createdAt && r.id < c.id)
  }

  lemma FullListIs(table: seq<Row>, q: Query)
    requires DistinctIds(table)
    ensures InSequence(FullList(table, q), q.sort)
    ensures forall i, j :: 0 <= i < j < |FullList(table, q)| ==>
      Precedes(q.sort, FullList(table, q)[i], FullList(table, q)[j])
    ensures forall r :: r in FullList(table, q) <==> r in table && Matches(q, r)
    ensures forall r :: r in FullList(table, q) <==> r in table && OnOffer(q, r)
  {
    SelectDistinct(table, q, None);
    SelectMembers(table, q, None);
    OrderedOrders(Select(table, q, None), q.sort);
    forall r ensures r in FullList(table, q) <==> r in Select(table, q, None) {
      assert r in multiset(FullList(table, q)) <==> r in multiset(Select(table, q, None));
    }
    PrecedesIs(FullList(table, q), q.sort);
  }

  lemma PrecedesIs(rows: seq<Row>, sort: SortBy)
    requires InSequence(rows, sort)
    ensures forall i, j :: 0 <= i < j < |rows| ==> Precedes(sort, rows[i], rows[j])
  {
    forall i, j | 0 <= i < j < |rows| ensures Precedes(sort, rows[i], rows[j]) {
      assert Before(sort, rows[i], rows[j]);
    }
  }

  /** What a cursor leaves of the answer is what it leaves of the full list. */
  lemma AnswerIsRest(table: seq<Row>, q: Query, c: Cursor)
    requires DistinctIds(table)
    ensures Ordered(Select(table, q, Some(c)), q.sort) == Select(FullList(table, q), q, Some(c))
  {
    var picked, full := Select(table, q, Some(c)), FullList(table, q);
    SelectDistinct(table, q, Some(c));
    SelectMembers(table, q, Some(c));
    OrderedOrders(picked, q.sort);
    FullListIs(table, q);
    SelectMembers(full, q, Some(c));
    SelectInSequence(full, q, Some(c));
    forall r ensures r in Ordered(picked, q.sort) <==> r in picked {
      assert r in multiset(Ordered(picked, q.sort)) <==> r in multiset(picked);
    }
    SequenceUnique(Ordered(picked, q.sort), Select(full, q, Some(c)), q.sort);
  }

  lemma {:induction false} FindRow(table: seq<Row>, r: Row)
    requires DistinctIds(table) && r in table
    ensures Find(table, r.id) == Some(r)
  {
    if table[0].id != r.id {
      FindRow(table[1..], r);
    } else {
      var j :| 0 <= j < |table| && table[j] == r;
    }
  }

  function CursorAt(r: Row, sort: SortBy): Cursor { Cursor(Key(r, sort), r.id) }

  lemma AnswerAfterRow(table: seq<Row>, q: Query, r: Row)
    requires DistinctIds(table) && r in table
    ensures Answer(table, q, Some(r.id)) == Select(FullList(table, q), q, Some(CursorAt(r, q.sort)))
  {
    FindRow(table, r);
    AnswerIsRest(table, q, CursorAt(r, q.sort));
  }

  /** A page: the first `limit` rows there are, whether there are more, and then the last one shown as the cursor.
      Without a cursor there is the whole list, after a row what lies behind it, in the order of the list. */
  lemma PageIs(table: seq<Row>, q: Query, after: Option<Row>, limit: nat)
    requires limit >= 1 && DistinctIds(table) && (after.Some? ==> after.value in table)
    ensures var page := ListAuctions(table, q, if after.Some? then Some(after.value.id) else None, limit);
      exists rest: seq<Row> ::
        && (forall r :: r in rest <==> r in table && OnOffer(q, r) && (after.Some? ==> Behind(q.sort, after.value, r)))
        && (forall i, j :: 0 <= i < j < |rest| ==> Precedes(q.sort, rest[i], rest[j]))
        && page.hasMore == (|rest| > limit)
        && page.items == (if |rest| > limit then rest[..limit] else rest)
        && page.nextCursor == if |rest| > limit then Some(rest[limit - 1].id) else None
  {
    hide Ordered, Select, Find, FullList, Matches, OnOffer;
    var afterId := if after.Some? then Some(after.value.id) else None;
    var rest := Answer(table, q, afterId);
    FullListIs(table, q);
    if after.Some? {
      AnswerAfterRow(table, q, after.value);
      SelectMembers(FullList(table, q), q, Some(CursorAt(after.value, q.sort)));
      SelectInSequence(FullList(table, q), q, Some(CursorAt(after.value, q.sort)));
      PrecedesIs(rest, q.sort);
      forall r ensures r in rest <==> r in table && OnOffer(q, r) && Behind(q.sort, after.value, r) {
        assert r in FullList(table, q) <==> r in table && Matches(q, r);
        assert r in FullList(table, q) <==> r in table && OnOffer(q, r);
      }
    } else {
      assert rest == FullList(table, q) by { WholeAnswer(table, q); }
    }
    PageOf(table, q, afterId, limit);
  }

  lemma WholeAnswer(table: seq<Row>, q: Query)
    ensures Answer(table, q, None) == FullList(table, q)
  {
  }

  lemma PageOf(table: seq<Row>, q: Query, afterId: Option<nat>, limit: nat)
    requires limit >= 1
    ensures var page, rest := ListAuctions(table, q, afterId, limit), Answer(table, q, afterId);
      && page.hasMore == (|rest| > limit)
      && page.items == (if |rest| > limit then rest[..limit] else rest)
      && page.nextCursor == if |rest| > limit then Some(rest[limit - 1].id) else None
  {
    hide Answer;
    var rest := Answer(table, q, afterId);
    if |rest| > limit {
      assert rest[..limit + 1][..limit] == rest[..limit];
    }
  }

  // ---------------------------------------------------------------- following the cursor

  /** The rows a client collects from `afterId` on. */
  function Follow(table: seq<Row>, q: Query, afterId: Option<nat>, limit: nat): seq<Row>
    requires limit >= 1 && DistinctIds(table)
    decreases |Answer(table, q, afterId)|
  {
    var page := ListAuctions(table, q, afterId, limit);
    if !page.hasMore then page.items
    else
      CursorDescends(table, q, afterId, limit);
      page.items + Follow(table, q, page.nextCursor, limit)
  }

  lemma {:induction false} SelectShrinks(rows: seq<Row>, q: Query, c1: Option<Cursor>, c2: Cursor, r: Row)
    requires forall x :: x in rows && Chosen(q, Some(c2), x) ==> Chosen(q, c1, x)
    requires r in rows && Chosen(q, c1, r) && !Chosen(q, Some(c2), r)
    ensures |Select(rows, q, Some(c2))| < |Select(rows, q, c1)|
  {
    if rows[0] == r {
      SelectNoMore(rows[1..], q, c1, c2);
    } else {
      SelectShrinks(rows[1..], q, c1, c2, r);
    }
  }

  lemma {:induction false} SelectNoMore(rows: seq<Row>, q: Query, c1: Option<Cursor>, c2: Cursor)
    requires forall x :: x in rows && Chosen(q, Some(c2), x) ==> Chosen(q, c1, x)
    ensures |Select(rows, q, Some(c2))| <= |Select(rows, q, c1)|
  {
    if rows == [] {
    } else {
      SelectNoMore(rows[1..], q, c1, c2);
    }
  }

  lemma {:induction false} OrderedSize(rows: seq<Row>, sort: SortBy)
    ensures |Ordered(rows, sort)| == |rows|
  {
    if rows == [] {
    } else {
      OrderedSize(rows[1..], sort);
      InsertSize(Ordered(rows[1..], sort), rows[0], sort);
    }
  }

  lemma {:induction false} InsertSize(rows: seq<Row>, r: Row, sort: SortBy)
    ensures |Insert(rows, r, sort)| == |rows| + 1
  {
    if rows == [] || Before(sort, r, rows[0]) {
    } else {
      InsertSize(rows[1..], r, sort);
    }
  }

  /** Termination, for every sort, cursor and limit: the next cursor is one of the rows the last one admitted,
      and it admits fewer. */
  lemma CursorDescends(table: seq<Row>, q: Query, afterId: Option<nat>, limit: nat)
    requires limit >= 1 && DistinctIds(table) && ListAuctions(table, q, afterId, limit).hasMore
    ensures var next := ListAuctions(table, q, afterId, limit).nextCursor;
      |Answer(table, q, next)| < |Answer(table, q, afterId)|
  {
    hide Ordered, Select, Find, Matches;
    var answer := Answer(table, q, afterId);
    var c1 := if afterId.None? then None else CursorOf(table, q.sort, afterId.value);
    var r := answer[limit - 1];
    SelectMembers(table, q, c1);
    SelectDistinct(table, q, c1);
    OrderedOrders(Select(table, q, c1), q.sort);
    assert r in multiset(answer);
    FindRow(table, r);
    var c2 := CursorAt(r, q.sort);
    SelectShrinks(table, q, c1, c2, r);
    OrderedSize(Select(table, q, c1), q.sort);
    OrderedSize(Select(table, q, Some(c2)), q.sort);
  }

  // ---------------------------------------------------------------- what following collects

  /** No other row of the list has the key of row `i`. */
  predicate KeyAlone(full: seq<Row>, sort: SortBy, i: nat)
    requires i < |full|
  {
    forall j :: 0 <= j < |full| && j != i ==> Key(full[j], sort) != Key(full[i], sort)
  }

  /** The last row of each page but the last one, from position `n` on, has its key for itself. */
  predicate BoundariesAlone(full: seq<Row>, sort: SortBy, limit: nat, n: nat)
    requires limit >= 1 && n <= |full|
    decreases |full| - n
  {
    |full| - n <= limit || (KeyAlone(full, sort, n + limit - 1) && BoundariesAlone(full, sort, limit, n + limit))
  }

  lemma {:induction false} SelectSuffix(rows: seq<Row>, q: Query, c: Cursor, n: nat)
    requires n <= |rows| && forall k :: 0 <= k < |rows| ==> (Chosen(q, Some(c), rows[k]) <==> n <= k)
    ensures Select(rows, q, Some(c)) == rows[n..]
  {
    if rows == [] {
    } else {
      if n == 0 {
        SelectSuffix(rows[1..], q, c, 0);
        assert rows == [rows[0]] + rows[1..];
      } else {
        SelectSuffix(rows[1..], q, c, n - 1);
        assert rows[1..][n - 1..] == rows[n..];
      }
    }
  }

  /** The cursor at a row leaves exactly the rows behind it, in the ascending sorts or if its key is alone. */
  lemma RestBehind(table: seq<Row>, q: Query, i: nat)
    requires DistinctIds(table) && i < |FullList(table, q)|
    requires IsAscending(q.sort) || KeyAlone(FullList(table, q), q.sort, i)
    ensures Answer(table, q, Some(FullList(table, q)[i].id)) == FullList(table, q)[i + 1..]
  {
    var full := FullList(table, q);
    FullListIs(table, q);
    assert full[i] in full;
    AnswerAfterRow(table, q, full[i]);
    var c := CursorAt(full[i], q.sort);
    forall k | 0 <= k < |full| ensures Chosen(q, Some(c), full[k]) <==> i + 1 <= k {
      assert full[k] in full;
      assert k < i ==> Before(q.sort, full[k], full[i]);
      assert i < k ==> Before(q.sort, full[i], full[k]);
    }
    SelectSuffix(full, q, c, i + 1);
  }

  /** A page in the middle of the full list. */
  lemma PageAt(table: seq<Row>, q: Query, limit: nat, afterId: Option<nat>, n: nat)
    requires limit >= 1 && DistinctIds(table) && n + limit < |FullList(table, q)|
    requires Answer(table, q, afterId) == FullList(table, q)[n..]
    ensures var full := FullList(table, q); var next := full[n + limit - 1].id;
      && ListAuctions(table, q, afterId, limit) == Page(full[n..n + limit], Some(next), true)
      && Follow(table, q, afterId, limit) == full[n..n + limit] + Follow(table, q, Some(next), limit)
  {
    var full := FullList(table, q);
    assert full[n..][..limit] == full[n..n + limit];
  }

  lemma LastPage(table: seq<Row>, q: Query, limit: nat, afterId: Option<nat>, n: nat)
    requires limit >= 1 && DistinctIds(table) && n <= |FullList(table, q)| <= n + limit
    requires Answer(table, q, afterId) == FullList(table, q)[n..]
    ensures Follow(table, q, afterId, limit) == FullList(table, q)[n..]
  {
  }

  lemma FirstPage(table: seq<Row>, q: Query, limit: nat, afterId: Option<nat>, n: nat)
    requires limit >= 1 && DistinctIds(table) && n + limit < |FullList(table, q)|
    requires Answer(table, q, afterId) == FullList(table, q)[n..]
    requires Follow(table, q, Some(FullList(table, q)[n + limit - 1].id), limit) == FullList(table, q)[n + limit..]
    ensures Follow(table, q, afterId, limit) == FullList(table, q)[n..]
  {
    hide Follow, FullList, Answer;
    var full := FullList(table, q);
    PageAt(table, q, limit, afterId, n);
    assert full[n..] == full[n..n + limit] + full[n + limit..];
  }

  lemma {:induction false} FollowCollects(table: seq<Row>, q: Query, limit: nat, afterId: Option<nat>, n: nat)
    requires limit >= 1 && DistinctIds(table) && n <= |FullList(table, q)|
    requires Answer(table, q, afterId) == FullList(table, q)[n..]
    requires IsAscending(q.sort) || BoundariesAlone(FullList(table, q), q.sort, limit, n)
    ensures Follow(table, q, afterId, limit) == FullList(table, q)[n..]
    decreases |FullList(table, q)| - n
  {
    hide Follow, FullList, Answer;
    var full := FullList(table, q);
    if |full| - n <= limit {
      LastPage(table, q, limit, afterId, n);
    } else {
      RestBehind(table, q, n + limit - 1);
      FollowCollects(table, q, limit, Some(full[n + limit - 1].id), n + limit);
      FirstPage(table, q, limit, afterId, n);
    }
  }

  lemma FollowHead(table: seq<Row>, q: Query, afterId: Option<nat>, limit: nat)
    requires limit >= 1 && DistinctIds(table)
    ensures var answer := Answer(table, q, afterId);
      if answer == [] then Follow(table, q, afterId, limit) == []
      else Follow(table, q, afterId, limit) != [] && Follow(table, q, afterId, limit)[0] == answer[0]
  {
  }

  /** A shared key at a page boundary: the rows collected next do not start with the row that is due. */
  lemma SharedKeyDerails(table: seq<Row>, q: Query, limit: nat, i: nat)
    requires limit >= 1 && DistinctIds(table) && !IsAscending(q.sort) && i + 1 < |FullList(table, q)|
    requires !KeyAlone(FullList(table, q), q.sort, i)
    ensures Follow(table, q, Some(FullList(table, q)[i].id), limit) != FullList(table, q)[i + 1..]
  {
    hide Follow, FullList, Ordered, Answer, Matches;
    var full := FullList(table, q);
    FullListIs(table, q);
    var c, due := CursorAt(full[i], q.sort), full[i + 1];
    assert full[i] in full && due in full;
    AnswerAfterRow(table, q, full[i]);
    var answer := Select(full, q, Some(c));
    SelectMembers(full, q, Some(c));
    SelectInSequence(full, q, Some(c));
    FollowHead(table, q, Some(full[i].id), limit);
    var j :| 0 <= j < |full| && j != i && Key(full[j], q.sort) == Key(full[i], q.sort);
    if j < i {
      assert full[j] in full && full[j] in answer by { assert Before(q.sort, full[j], full[i]); }
      assert answer[0] != due by {
        assert Before(q.sort, full[j], due);
        var k :| 0 <= k < |answer| && answer[k] == full[j];
      }
    } else {
      assert Key(due, q.sort) == Key(full[i], q.sort) by {
        assert Before(q.sort, full[i], due);
        assert j > i + 1 ==> Before(q.sort, due, full[j]);
      }
      assert due !in answer by { assert Before(q.sort, full[i], due); }
    }
  }

  lemma {:induction false} FollowMisses(table: seq<Row>, q: Query, limit: nat, afterId: Option<nat>, n: nat)
    requires limit >= 1 && DistinctIds(table) && n <= |FullList(table, q)| && !IsAscending(q.sort)
    requires Answer(table, q, afterId) == FullList(table, q)[n..]
    requires !BoundariesAlone(FullList(table, q), q.sort, limit, n)
    ensures Follow(table, q, afterId, limit) != FullList(table, q)[n..]
    decreases |FullList(table, q)| - n
  {
    hide Follow, FullList, Answer;
    var full, rest := FullList(table, q), FullList(table, q)[n..];
    var next := Some(full[n + limit - 1].id);
    PageAt(table, q, limit, afterId, n);
    if KeyAlone(full, q.sort, n + limit - 1) {
      RestBehind(table, q, n + limit - 1);
      FollowMisses(table, q, limit, next, n + limit);
    } else {
      SharedKeyDerails(table, q, limit, n + limit - 1);
    }
    assert rest[limit..] == full[n + limit..];
    assert Follow(table, q, afterId, limit)[limit..] == Follow(table, q, next, limit);
  }

  /** Following the cursor collects exactly the full sorted list, with no gap and no repeat, in the ascending
      sorts always, and in the descending ones exactly when the last row of every page but the last has a sort
      key no other row of the list shares. */
  lemma FollowEnumerates(table: seq<Row>, q: Query, limit: nat)
    requires limit >= 1 && DistinctIds(table)
    ensures Follow(table, q, None, limit) == FullList(table, q) <==>
      IsAscending(q.sort) || BoundariesAlone(FullList(table, q), q.sort, limit, 0)
  {
    var full := FullList(table, q);
    assert full[0..] == full;
    if IsAscending(q.sort) || BoundariesAlone(full, q.sort, limit, 0) {
      FollowCollects(table, q, limit, None, 0);
    } else {
      FollowMisses(table, q, limit, None, 0);
    }
  }

  /** In particular with pairwise distinct sort keys. */
  lemma DistinctKeysEnumerate(table: seq<Row>, q: Query, limit: nat)
    requires limit >= 1 && DistinctIds(table)
    requires forall i, j :: 0 <= i < j < |table| ==> Key(table[i], q.sort) != Key(table[j], q.sort)
    ensures Follow(table, q, None, limit) == FullList(table, q)
  {
    var full := FullList(table, q);
    FullListIs(table, q);
    forall i: nat | i < |full| ensures KeyAlone(full, q.sort, i) {
      forall j | 0 <= j < |full| && j != i ensures Key(full[j], q.sort) != Key(full[i], q.sort) {
        assert full[i] in full && full[j] in full;
        assert i < j ==> Before(q.sort, full[i], full[j]);
        assert j < i ==> Before(q.sort, full[j], full[i]);
      }
    }
    AllAlone(full, q.sort, limit, 0);
    FollowEnumerates(table, q, limit);
  }

  lemma {:induction false} AllAlone(full: seq<Row>, sort: SortBy, limit: nat, n: nat)
    requires limit >= 1 && n <= |full|
    requires forall i {:trigger KeyAlone(full, sort, i)} :: 0 <= i < |full| ==> KeyAlone(full, sort, i)
    ensures BoundariesAlone(full, sort, limit, n)
    decreases |full| - n
  {
    if |full| - n <= limit {
    } else {
      AllAlone(full, sort, limit, n + limit);
    }
  }

  lemma {:induction false} FindNone(table: seq<Row>, id: nat)
    requires forall r :: r in table ==> r.id != id
    ensures Find(table, id).None?
  {
    if table == [] {
    } else {
      FindNone(table[1..], id);
    }
  }

  lemma {:induction false} OrderedMembers(table: seq<Row>, q: Query, c: Option<Cursor>, r: Row)
    requires DistinctIds(table)
    ensures r in Ordered(Select(table, q, c), q.sort) <==> r in table && Chosen(q, c, r)
  {
    hide Ordered, Select, Chosen, DistinctIds, InSequence;
    SelectMembers(table, q, c);
    SelectDistinct(table, q, c);
    OrderedOrders(Select(table, q, c), q.sort);
    assert r in multiset(Ordered(Select(table, q, c), q.sort)) <==> r in multiset(Select(table, q, c));
  }

  /** A cursor whose auction is gone ends the listing, but in the sort by bids it goes on with the auctions
      nobody bid on. */
  lemma {:induction false} GoneCursor(table: seq<Row>, q: Query, id: nat, r: Row)
    requires DistinctIds(table) && forall x :: x in table ==> x.id != id
    ensures r in Answer(table, q, Some(id)) <==>
      q.sort.BidCount? && r in table && Matches(q, r) && r.bidCount == 0 && r.id < id
  {
    hide Ordered, Select, Find, DistinctIds;
    FindNone(table, id);
    OrderedMembers(table, q, Some(Cursor(0, id)), r);
  }

  function Tied(id: nat): Row { Row(id, OPEN, 10, 5, 0, 0, "", "") }
  function DearestFirst(): Query { Query(0, None, None, None, Popular) }

  lemma TiedFullList()
    ensures FullList([Tied(0), Tied(1), Tied(2)], DearestFirst()) == [Tied(0), Tied(1), Tied(2)]
  {
    var a, b, c, q := Tied(0), Tied(1), Tied(2), DearestFirst();
    assert [a, b, c][1..] == [b, c] && [b, c][1..] == [c] && [c][1..] == [];
    assert Select([c], q, None) == [c];
    assert Select([b, c], q, None) == [b] + [c];
    assert Select([a, b, c], q, None) == [a] + [b, c];
    assert Ordered([c], Popular) == [c];
    assert Ordered([b, c], Popular) == [b] + [c];
    assert Ordered([a, b, c], Popular) == [a] + [b, c];
  }

  lemma TiedRest()
    ensures Answer([Tied(0), Tied(1), Tied(2)], DearestFirst(), Some(0)) == []
  {
    hide Ordered;
    var a, b, c, q, x := Tied(0), Tied(1), Tied(2), DearestFirst(), Some(Cursor(5, 0));
    assert [a, b, c][1..] == [b, c] && [b, c][1..] == [c] && [c][1..] == [];
    assert Select([c], q, x) == [];
    assert Select([b, c], q, x) == [];
    assert Select([a, b, c], q, x) == [];
    OrderedSize([], Popular);
  }

  /** Three auctions at one price, one per page, dearest first: the second and third are never shown. */
  lemma TiedPricesAreSkipped()
    ensures var table := [Tied(0), Tied(1), Tied(2)];
      && DistinctIds(table) && FullList(table, DearestFirst()) == table
      && Follow(table, DearestFirst(), None, 1) == [Tied(0)]
  {
    hide Ordered, Select, Find;
    var table := [Tied(0), Tied(1), Tied(2)];
    TiedFullList();
    TiedRest();
    assert ListAuctions(table, DearestFirst(), None, 1) == Page([Tied(0)], Some(0), true);
    assert Follow(table, DearestFirst(), Some(0), 1) == [];
  }
}
