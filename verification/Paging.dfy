/**
 Keyset paging: `SourcesRepo.list_candidate_rows` (publication time, nulls last) and
 `ContentRepo.list_by_channel` (update time).
 */
module Paging {
  import opened Numbers
  import opened Wrappers

  /** A candidate with the publication time of its document, or a content item with its update time. */
  datatype Row = Row(id: int, channel: int, status: string, time: Option<int>)

  type Test = Row -> bool

  /** `ORDER BY time DESC NULLS LAST, id DESC`. */
  predicate Before(a: Row, b: Row) {
    match (a.time, b.time)
    case (Some(x), Some(y)) => x > y || (x == y && a.id > b.id)
    case (Some(x), None) => true
    case (None, Some(y)) => false
    case (None, None) => a.id > b.id
  }

  ghost predicate DistinctIds(rows: seq<Row>) {
    forall i, j :: 0 <= i < j < |rows| ==> rows[i].id != rows[j].id
  }

  ghost predicate InOrder(rows: seq<Row>) {
    forall i, j :: 0 <= i < j < |rows| ==> Before(rows[i], rows[j])
  }

  function Filter(rows: seq<Row>, test: Test): (r: seq<Row>)
    ensures forall x :: x in r <==> x in rows && test(x)
  {
    if rows == [] then []
    else if test(rows[0]) then [rows[0]] + Filter(rows[1..], test)
    else Filter(rows[1..], test)
  }

  function Insert(x: Row, rows: seq<Row>): seq<Row> {
    if rows == [] || Before(x, rows[0]) then [x] + rows else [rows[0]] + Insert(x, rows[1..])
  }

  function Sort(rows: seq<Row>): (r: seq<Row>)
    ensures |r| == |rows| && multiset(r) == multiset(rows)
  {
    if rows == [] then []
    else
      InsertContents(rows[0], Sort(rows[1..]));
      assert rows == [rows[0]] + rows[1..];
      Insert(rows[0], Sort(rows[1..]))
  }

  lemma {:induction false} InsertContents(x: Row, rows: seq<Row>)
    ensures |Insert(x, rows)| == |rows| + 1 && multiset(Insert(x, rows)) == multiset(rows) + multiset{x}
  {
    if rows != [] {
      assert rows == [rows[0]] + rows[1..];
      if !Before(x, rows[0]) {
        InsertContents(x, rows[1..]);
      }
    }
  }

  /******* The queries *******/

  function Take(rows: seq<Row>, limit: nat): (r: seq<Row>)
    ensures r <= rows && |r| == if |rows| < limit then |rows| else limit
  {
    if |rows| < limit then rows else rows[..limit]
  }

  /** Channel and optional status. */
  function Wanted(channel: int, status: Option<string>): Test {
    (row: Row) => row.channel == channel && (status.Some? ==> row.status == status.value)
  }

  /** The cursor condition of `list_candidate_rows`; without an id it is left out. */
  predicate PastCandidate(row: Row, time: Option<int>, id: Option<int>) {
    if id.None? then true
    else if time.None? then row.time.None? && row.id < id.value
    else row.time.None? || row.time.value < time.value || (row.time.value == time.value && row.id < id.value)
  }

  function CandidatePage(table: seq<Row>, channel: int, status: Option<string>, limit: int,
                         time: Option<int>, id: Option<int>): seq<Row> {
    var wanted := Wanted(channel, status);
    Take(Sort(Filter(table, row => wanted(row) && PastCandidate(row, time, id))), Clamp(limit, 1, 500))
  }

  /** The cursor condition of `list_by_channel`, on rows that all have a time. */
  predicate PastContent(row: Row, time: int, id: int) {
    row.time.Some? && (row.time.value < time || (row.time.value == time && row.id < id))
  }

  datatype Error = CursorIncomplete

  function ContentPage(table: seq<Row>, channel: int, status: Option<string>, limit: int,
                       time: Option<int>, id: Option<int>): (r: Result<seq<Row>, Error>)
    ensures r.Err? <==> time.None? != id.None?
  {
    if time.None? != id.None? then Err(CursorIncomplete)
    else
      var wanted := Wanted(channel, status);
      var rows := Filter(table, row => wanted(row) && (id.Some? ==> PastContent(row, time.value, id.value)));
      Ok(Take(Sort(rows), Clamp(limit, 1, 200)))
  }

  /******* Sorting and filtering *******/

  lemma BeforeTotal(a: Row, b: Row)
    requires a.id != b.id
    ensures Before(a, b) != Before(b, a)
  {
  }

  lemma BeforeTransitive(a: Row, b: Row, c: Row)
    requires Before(a, b) && Before(b, c)
    ensures Before(a, c)
  {
  }

  lemma SortMembers(rows: seq<Row>)
    ensures forall x :: x in Sort(rows) <==> x in rows
  {
    forall x
      ensures x in Sort(rows) <==> x in rows
    {
      assert x in Sort(rows) <==> x in multiset(Sort(rows));
      assert x in rows <==> x in multiset(rows);
    }
  }

  lemma {:induction false} InsertInOrder(x: Row, rows: seq<Row>)
    requires InOrder(rows) && forall y :: y in rows ==> y.id != x.id
    ensures InOrder(Insert(x, rows)) && forall y :: y in Insert(x, rows) <==> y == x || y in rows
  {
    if rows != [] {
      if Before(x, rows[0]) {
        forall i | 0 <= i < |rows|
          ensures Before(x, rows[i])
        {
          if i > 0 {
            BeforeTransitive(x, rows[0], rows[i]);
          }
        }
      } else {
        BeforeTotal(x, rows[0]);
        assert InOrder(rows[1..]);
        InsertInOrder(x, rows[1..]);
        assert rows == [rows[0]] + rows[1..];
        forall y | y in Insert(x, rows[1..])
          ensures Before(rows[0], y)
        {
          if y != x {
            var i :| 0 <= i < |rows[1..]| && rows[1..][i] == y;
            assert rows[i + 1] == y;
          }
        }
      }
    }
  }

  lemma {:induction false} SortInOrder(rows: seq<Row>)
    requires DistinctIds(rows)
    ensures InOrder(Sort(rows))
  {
    if rows != [] {
      assert DistinctIds(rows[1..]);
      SortInOrder(rows[1..]);
      SortMembers(rows[1..]);
      forall y | y in Sort(rows[1..])
        ensures y.id != rows[0].id
      {
        var i :| 0 <= i < |rows[1..]| && rows[1..][i] == y;
        assert rows[i + 1] == y;
      }
      InsertInOrder(rows[0], Sort(rows[1..]));
    }
  }

  /** Filtering an ordered list, and inserting, commute. */
  lemma {:induction false} InsertFilter(x: Row, rows: seq<Row>, test: Test)
    requires InOrder(rows)
    ensures Filter(Insert(x, rows), test) == if test(x) then Insert(x, Filter(rows, test)) else Filter(rows, test)
  {
    if rows == [] {
      assert [x][1..] == [];
    } else if Before(x, rows[0]) {
      assert ([x] + rows)[1..] == rows;
      InsertFirst(x, rows, test);
    } else {
      assert InOrder(rows[1..]);
      InsertFilter(x, rows[1..], test);
      assert ([rows[0]] + Insert(x, rows[1..]))[1..] == Insert(x, rows[1..]);
    }
  }

  /** A row that precedes all others is inserted in front, also after filtering. */
  lemma InsertFirst(x: Row, rows: seq<Row>, test: Test)
    requires InOrder(rows) && rows != [] && Before(x, rows[0])
    ensures Insert(x, Filter(rows, test)) == [x] + Filter(rows, test)
  {
    var f := Filter(rows, test);
    if f != [] {
      assert f[0] in rows;
      var i :| 0 <= i < |rows| && rows[i] == f[0];
      if i > 0 {
        BeforeTransitive(x, rows[0], rows[i]);
      }
    }
  }

  lemma {:induction false} SortFilter(rows: seq<Row>, test: Test)
    requires DistinctIds(rows)
    ensures Sort(Filter(rows, test)) == Filter(Sort(rows), test)
  {
    if rows != [] {
      assert DistinctIds(rows[1..]);
      SortFilter(rows[1..], test);
      SortInOrder(rows[1..]);
      InsertFilter(rows[0], Sort(rows[1..]), test);
      if test(rows[0]) {
        assert ([rows[0]] + Filter(rows[1..], test))[1..] == Filter(rows[1..], test);
      }
    }
  }

  lemma {:induction false} FilterAll(rows: seq<Row>, test: Test)
    requires forall x :: x in rows ==> test(x)
    ensures Filter(rows, test) == rows
  {
    if rows != [] {
      FilterAll(rows[1..], test);
    }
  }

  lemma {:induction false} FilterSuffix(rows: seq<Row>, k: nat, test: Test)
    requires k <= |rows|
    requires forall i :: 0 <= i < |rows| ==> (test(rows[i]) <==> i >= k)
    ensures Filter(rows, test) == rows[k..]
  {
    if k == 0 {
      FilterAll(rows, test);
      assert rows[0..] == rows;
    } else {
      assert !test(rows[0]);
      FilterSuffix(rows[1..], k - 1, test);
      assert rows[1..][k - 1..] == rows[k..];
    }
  }

  lemma {:induction false} FilterTwice(rows: seq<Row>, first: Test, both: Test, second: Test)
    requires forall x :: x in rows ==> both(x) == (first(x) && second(x))
    ensures Filter(rows, both) == Filter(Filter(rows, first), second)
  {
    if rows != [] {
      assert forall x :: x in rows[1..] ==> x in rows;
      FilterTwice(rows[1..], first, both, second);
      if first(rows[0]) {
        assert ([rows[0]] + Filter(rows[1..], first))[1..] == Filter(rows[1..], first);
      }
    }
  }

  /******* A page is the next stretch of the whole list *******/

  /** The whole list, unpaged. */
  function Listing(table: seq<Row>, channel: int, status: Option<string>): seq<Row> {
    Sort(Filter(table, Wanted(channel, status)))
  }

  lemma ListingInOrder(table: seq<Row>, channel: int, status: Option<string>)
    requires DistinctIds(table)
    ensures InOrder(Listing(table, channel, status))
  {
    FilterDistinct(table, Wanted(channel, status));
    SortInOrder(Filter(table, Wanted(channel, status)));
  }

  lemma {:induction false} FilterDistinct(rows: seq<Row>, test: Test)
    requires DistinctIds(rows)
    ensures DistinctIds(Filter(rows, test))
  {
    if rows != [] {
      assert DistinctIds(rows[1..]);
      FilterDistinct(rows[1..], test);
      forall y | y in Filter(rows[1..], test)
        ensures y.id != rows[0].id
      {
        var i :| 0 <= i < |rows[1..]| && rows[1..][i] == y;
        assert rows[i + 1] == y;
      }
    }
  }

  /** A test that holds from position k on cuts the listing there. */
  lemma CutListing(table: seq<Row>, channel: int, status: Option<string>, both: Test, past: Test, k: nat)
    requires DistinctIds(table)
    requires forall x :: both(x) == (Wanted(channel, status)(x) && past(x))
    requires k <= |Listing(table, channel, status)|
    requires forall i :: 0 <= i < |Listing(table, channel, status)| ==>
      (past(Listing(table, channel, status)[i]) <==> i >= k)
    ensures Sort(Filter(table, both)) == Listing(table, channel, status)[k..]
  {
    var wanted := Wanted(channel, status);
    FilterTwice(table, wanted, both, past);
    FilterDistinct(table, wanted);
    SortFilter(Filter(table, wanted), past);
    FilterSuffix(Listing(table, channel, status), k, past);
  }

  /******* Following the cursors *******/

  type Query = (Option<int>, Option<int>) -> seq<Row>

  /** The cursor after the first k rows: none, or the time and id of row k - 1. */
  function CursorTime(all: seq<Row>, k: nat): Option<int>
    requires k <= |all|
  {
    if k == 0 then None else all[k - 1].time
  }

  function CursorId(all: seq<Row>, k: nat): Option<int>
    requires k <= |all|
  {
    if k == 0 then None else Some(all[k - 1].id)
  }

  /** The query continues the list right after any cursor, up to n rows. */
  ghost predicate Continues(query: Query, all: seq<Row>, n: nat) {
    forall k: nat :: k <= |all| ==> query(CursorTime(all, k), CursorId(all, k)) == Take(all[k..], n)
  }

  lemma CandidatePagesContinue(table: seq<Row>, channel: int, status: Option<string>, limit: int)
    requires DistinctIds(table)
    ensures Continues((time, id) => CandidatePage(table, channel, status, limit, time, id),
                      Listing(table, channel, status), Clamp(limit, 1, 500))
  {
    var all, wanted := Listing(table, channel, status), Wanted(channel, status);
    ListingInOrder(table, channel, status);
    forall k: nat | k <= |all|
      ensures CandidatePage(table, channel, status, limit, CursorTime(all, k), CursorId(all, k))
           == Take(all[k..], Clamp(limit, 1, 500))
    {
      var time, id := CursorTime(all, k), CursorId(all, k);
      forall i | 0 <= i < |all|
        ensures PastCandidate(all[i], time, id) <==> i >= k
      {
        if k > 0 && i < k - 1 {
          assert Before(all[i], all[k - 1]);
        } else if k > 0 && i > k - 1 {
          assert Before(all[k - 1], all[i]);
        }
      }
      CutListing(table, channel, status, row => wanted(row) && PastCandidate(row, time, id),
                 row => PastCandidate(row, time, id), k);
    }
  }

  function ContentRows(table: seq<Row>, channel: int, status: Option<string>, limit: int,
                       time: Option<int>, id: Option<int>): seq<Row> {
    var page := ContentPage(table, channel, status, limit, time, id);
    if page.Ok? then page.value else []
  }

  lemma ContentPagesContinue(table: seq<Row>, channel: int, status: Option<string>, limit: int)
    requires DistinctIds(table) && forall row :: row in table ==> row.time.Some?
    ensures Continues((time, id) => ContentRows(table, channel, status, limit, time, id),
                      Listing(table, channel, status), Clamp(limit, 1, 200))
  {
    var all, wanted := Listing(table, channel, status), Wanted(channel, status);
    ListingInOrder(table, channel, status);
    SortMembers(Filter(table, wanted));
    assert forall i :: 0 <= i < |all| ==> all[i] in all && all[i].time.Some?;
    forall k: nat | k <= |all|
      ensures ContentRows(table, channel, status, limit, CursorTime(all, k), CursorId(all, k))
           == Take(all[k..], Clamp(limit, 1, 200))
    {
      var time, id := CursorTime(all, k), CursorId(all, k);
      forall i | 0 <= i < |all|
        ensures (id.Some? ==> PastContent(all[i], time.value, id.value)) <==> i >= k
      {
        if k > 0 && i < k - 1 {
          assert Before(all[i], all[k - 1]);
        } else if k > 0 && i > k - 1 {
          assert Before(all[k - 1], all[i]);
        }
      }
      CutListing(table, channel, status, row => wanted(row) && (id.Some? ==> PastContent(row, time.value, id.value)),
                 row => id.Some? ==> PastContent(row, time.value, id.value), k);
    }
  }

  /** What a reader gets who asks for up to `most` pages, each from the last row before it, until an empty one. */
  function Pages(query: Query, time: Option<int>, id: Option<int>, most: nat): seq<seq<Row>>
    decreases most
  {
    var page := query(time, id);
    if page == [] || most == 0 then []
    else [page] + Pages(query, page[|page| - 1].time, Some(page[|page| - 1].id), most - 1)
  }

  function Concat(pages: seq<seq<Row>>): seq<Row> {
    if pages == [] then [] else pages[0] + Concat(pages[1..])
  }

  lemma {:induction false} PagesFrom(query: Query, all: seq<Row>, n: nat, k: nat, most: nat)
    requires Continues(query, all, n) && n >= 1 && k <= |all| && most >= |all| - k
    ensures Concat(Pages(query, CursorTime(all, k), CursorId(all, k), most)) == all[k..]
    decreases most
  {
    var page := query(CursorTime(all, k), CursorId(all, k));
    if page != [] {
      var next := k + |page|;
      assert page == all[k..next] && page[|page| - 1] == all[next - 1];
      PagesFrom(query, all, n, next, most - 1);
      var rest := Pages(query, CursorTime(all, next), CursorId(all, next), most - 1);
      assert ([page] + rest)[1..] == rest;
      assert all[k..] == page + all[next..];
    }
  }

  lemma ListingContents(table: seq<Row>, channel: int, status: Option<string>)
    requires DistinctIds(table)
    ensures var all := Listing(table, channel, status);
      InOrder(all) && |all| <= |table| && forall row :: row in all <==> row in table && Wanted(channel, status)(row)
  {
    ListingInOrder(table, channel, status);
    FilterShorter(table, Wanted(channel, status));
    SortMembers(Filter(table, Wanted(channel, status)));
  }

  lemma {:induction false} FilterShorter(rows: seq<Row>, test: Test)
    ensures |Filter(rows, test)| <= |rows|
  {
    if rows != [] {
      FilterShorter(rows[1..], test);
    }
  }

  /**
   For every limit, following the cursors over fixed data gives the whole ordered list once, with no
   gap and no duplicate, the rows without a publication time last.
   */
  lemma CandidatePagesAreTheListing(table: seq<Row>, channel: int, status: Option<string>, limit: int, most: nat)
    requires DistinctIds(table) && most >= |table|
    ensures Concat(Pages((time, id) => CandidatePage(table, channel, status, limit, time, id), None, None, most))
         == Listing(table, channel, status)
  {
    hide Listing, CandidatePage;
    var all := Listing(table, channel, status);
    CandidatePagesContinue(table, channel, status, limit);
    ListingContents(table, channel, status);
    PagesFrom((time, id) => CandidatePage(table, channel, status, limit, time, id), all, Clamp(limit, 1, 500), 0, most);
    assert all[0..] == all;
  }

  /** The content listing pages the same way. */
  lemma ContentPagesAreTheListing(table: seq<Row>, channel: int, status: Option<string>, limit: int, most: nat)
    requires DistinctIds(table) && most >= |table| && forall row :: row in table ==> row.time.Some?
    ensures Concat(Pages((time, id) => ContentRows(table, channel, status, limit, time, id), None, None, most))
         == Listing(table, channel, status)
  {
    hide Listing, ContentRows;
    var all := Listing(table, channel, status);
    ContentPagesContinue(table, channel, status, limit);
    ListingContents(table, channel, status);
    PagesFrom((time, id) => ContentRows(table, channel, status, limit, time, id), all, Clamp(limit, 1, 200), 0, most);
    assert all[0..] == all;
  }
}
