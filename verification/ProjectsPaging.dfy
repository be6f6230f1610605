/** Paging through the project list with the cursor of apps/api/src/routes/system.ts: the last row's
    time, which a JSON date carries to the millisecond only. */
module ProjectsPaging {
  import opened Basics
  import opened Sorting
  import opened ProjectsQuery

  // ---------- pages of an unchanging list ----------

  /** A time as a JavaScript date holds it. */
  function Millis(micros: int): int {
    micros / 1000
  }

  predicate Descending(rows: seq<Row>) {
    forall i, j :: 0 <= i < j < |rows| ==> rows[i].updatedAt >= rows[j].updatedAt
  }

  /** `all` is `rows` in an order that `order by updated_at desc` allows. */
  predicate Arrangement(all: seq<Row>, rows: seq<Row>) {
    multiset(all) == multiset(rows) && Descending(all)
  }

  function Take(rows: seq<Row>, limit: nat): seq<Row> {
    if |rows| <= limit then rows else rows[..limit]
  }

  /** Rows with equal times may come in any order, and in another one next time. */
  ghost predicate IsPage(page: seq<Row>, rows: seq<Row>, limit: nat) {
    exists all: seq<Row> :: Arrangement(all, rows) && page == Take(all, limit)
  }

  /** The rows before the cursor that a full page leads to. */
  function Before(page: seq<Row>): Row -> bool
    requires page != []
  {
    var cursor := Millis(page[|page| - 1].updatedAt) * 1000;
    (row: Row) => row.updatedAt < cursor
  }

  /** The pages a reader gets by following the cursor until there is none. */
  ghost predicate Paging(pages: seq<seq<Row>>, rows: seq<Row>, limit: nat)
    requires limit >= 1
  {
    && pages != []
    && IsPage(pages[0], rows, limit)
    && if |pages[0]| == limit then Paging(pages[1..], Filter(rows, Before(pages[0])), limit) else |pages| == 1
  }

  function Read(pages: seq<seq<Row>>): seq<Row> {
    if pages == [] then [] else pages[0] + Read(pages[1..])
  }

  // ---------- filters and counts ----------

  lemma {:induction false} FilterCount(rows: seq<Row>, keep: Row -> bool, row: Row)
    ensures multiset(Filter(rows, keep))[row] == if keep(row) then multiset(rows)[row] else 0
  {
    if rows != [] {
      FilterCount(rows[1..], keep, row);
      assert rows == [rows[0]] + rows[1..];
    }
  }

  lemma SameFilter(a: seq<Row>, b: seq<Row>, keep: Row -> bool)
    requires multiset(a) == multiset(b)
    ensures multiset(Filter(a, keep)) == multiset(Filter(b, keep)) && |Filter(a, keep)| == |Filter(b, keep)|
  {
    forall row ensures multiset(Filter(a, keep))[row] == multiset(Filter(b, keep))[row] {
      FilterCount(a, keep, row);
      FilterCount(b, keep, row);
    }
    assert multiset(Filter(a, keep)) == multiset(Filter(b, keep));
    SameSize(Filter(a, keep), Filter(b, keep));
  }

  lemma SameSize(a: seq<Row>, b: seq<Row>)
    requires multiset(a) == multiset(b)
    ensures |a| == |b|
  {
    assert |multiset(a)| == |multiset(b)|;
  }

  lemma SubsetSize(a: seq<Row>, b: seq<Row>)
    requires multiset(a) <= multiset(b)
    ensures |a| <= |b|
  {
    assert multiset(b) == multiset(a) + (multiset(b) - multiset(a));
    assert |multiset(a)| <= |multiset(b)|;
  }

  lemma {:induction false} FilterAll(rows: seq<Row>, keep: Row -> bool)
    requires forall i :: 0 <= i < |rows| ==> keep(rows[i])
    ensures Filter(rows, keep) == rows
  {
    if rows != [] {
      FilterAll(rows[1..], keep);
    }
  }

  lemma {:induction false} FilterNone(rows: seq<Row>, keep: Row -> bool)
    requires forall i :: 0 <= i < |rows| ==> !keep(rows[i])
    ensures Filter(rows, keep) == []
  {
    if rows != [] {
      FilterNone(rows[1..], keep);
    }
  }

  lemma {:induction false} FilterTwice(rows: seq<Row>, keep: Row -> bool, also: Row -> bool, both: Row -> bool)
    requires forall row :: both(row) <==> keep(row) && also(row)
    ensures Filter(Filter(rows, keep), also) == Filter(rows, both)
  {
    if rows != [] {
      FilterTwice(rows[1..], keep, also, both);
      FilterAppends(if keep(rows[0]) then [rows[0]] else [], Filter(rows[1..], keep), also);
      assert [rows[0]][1..] == [];
    }
  }

  // ---------- one page ----------

  /** The times of a descending arrangement do not depend on how ties are ordered. */
  lemma SameTimes(a: seq<Row>, b: seq<Row>)
    requires Arrangement(a, b) && Descending(b)
    ensures |a| == |b| && forall i :: 0 <= i < |a| ==> a[i].updatedAt == b[i].updatedAt
  {
    assert |multiset(a)| == |multiset(b)|;
    forall i | 0 <= i < |a| ensures a[i].updatedAt == b[i].updatedAt {
      NotLater(a, b, i);
      NotLater(b, a, i);
    }
  }

  lemma NotLater(a: seq<Row>, b: seq<Row>, i: nat)
    requires Descending(a) && Descending(b) && multiset(a) == multiset(b) && i < |a| && i < |b|
    ensures a[i].updatedAt <= b[i].updatedAt
  {
    if a[i].updatedAt > b[i].updatedAt {
      var t := a[i].updatedAt;
      var late := (row: Row) => row.updatedAt >= t;
      assert a == a[..i + 1] + a[i + 1..] && b == b[..i] + b[i..];
      FilterAppends(a[..i + 1], a[i + 1..], late);
      FilterAppends(b[..i], b[i..], late);
      FilterAll(a[..i + 1], late);
      FilterNone(b[i..], late);
      FilterMembers(b[..i], late);
      SameFilter(a, b, late);
      assert false;
    }
  }

  lemma PageNotBefore(all: seq<Row>, limit: nat)
    requires 1 <= limit <= |all| && Descending(all)
    ensures Filter(all[..limit], Before(all[..limit])) == []
  {
    FilterNone(all[..limit], Before(all[..limit]));
  }

  lemma FilterSplit(page: seq<Row>, rest: seq<Row>, keep: Row -> bool)
    requires Filter(page, keep) == []
    ensures Filter(page + rest, keep) == Filter(rest, keep)
  {
    FilterAppends(page, rest, keep);
  }

  lemma LaterIsRest(page: seq<Row>, rest: seq<Row>, rows: seq<Row>, keep: Row -> bool)
    requires multiset(page + rest) == multiset(rows) && Filter(page, keep) == []
    ensures multiset(Filter(rows, keep)) == multiset(Filter(rest, keep))
  {
    FilterSplit(page, rest, keep);
    SameFilter(rows, page + rest, keep);
  }

  lemma FilterSmaller(rows: seq<Row>, keep: Row -> bool)
    ensures multiset(Filter(rows, keep)) <= multiset(rows)
  {
    forall row ensures multiset(Filter(rows, keep))[row] <= multiset(rows)[row] {
      FilterCount(rows, keep, row);
    }
  }

  /** Whether a page of this size would end between two rows of the same millisecond. */
  predicate Splits(all: seq<Row>, limit: nat)
    requires limit >= 1
  {
    limit < |all| && Millis(all[limit - 1].updatedAt) == Millis(all[limit].updatedAt)
  }

  lemma RestKept(all: seq<Row>, limit: nat)
    requires 1 <= limit <= |all| && Descending(all) && !Splits(all, limit)
    ensures Filter(all[limit..], Before(all[..limit])) == all[limit..]
  {
    var rest, before := all[limit..], Before(all[..limit]);
    forall i | 0 <= i < |rest| ensures before(rest[i]) {
      assert rest[i] == all[limit + i];
      assert all[limit - 1].updatedAt >= all[limit].updatedAt >= rest[i].updatedAt;
    }
    FilterAll(rest, before);
  }

  lemma RestLost(all: seq<Row>, limit: nat)
    requires 1 <= limit <= |all| && Splits(all, limit)
    ensures |Filter(all[limit..], Before(all[..limit]))| < |all[limit..]|
  {
    var rest, before := all[limit..], Before(all[..limit]);
    assert rest[0] == all[limit] && !before(rest[0]);
    FilterMembers(rest[1..], before);
  }

  /** The rows before the cursor of a full page, by the rows after the page. */
  lemma LaterRows(all: seq<Row>, rows: seq<Row>, limit: nat)
    requires 1 <= limit <= |all| && Arrangement(all, rows)
    ensures var before := Before(all[..limit]);
      var later, kept := Filter(rows, before), Filter(all[limit..], before);
      multiset(later) == multiset(kept) && |later| == |kept| && multiset(later) <= multiset(all[limit..])
  {
    var page, rest, before := all[..limit], all[limit..], Before(all[..limit]);
    assert all == page + rest;
    PageNotBefore(all, limit);
    LaterIsRest(page, rest, rows, before);
    FilterSmaller(rest, before);
    SameSize(Filter(rows, before), Filter(rest, before));
  }

  lemma RestDescends(all: seq<Row>, limit: nat)
    requires limit <= |all| && Descending(all)
    ensures Descending(all[limit..])
  {
  }

  lemma WholeRest(all: seq<Row>, rows: seq<Row>, limit: nat)
    requires 1 <= limit <= |all| && Arrangement(all, rows) && !Splits(all, limit)
    ensures Arrangement(all[limit..], Filter(rows, Before(all[..limit])))
  {
    LaterRows(all, rows, limit);
    RestKept(all, limit);
    RestDescends(all, limit);
  }

  lemma ShortRest(all: seq<Row>, rows: seq<Row>, limit: nat)
    requires 1 <= limit <= |all| && Arrangement(all, rows) && Splits(all, limit)
    ensures |Filter(rows, Before(all[..limit]))| < |all[limit..]|
  {
    LaterRows(all, rows, limit);
    RestLost(all, limit);
  }

  /** After a full page, the rows before its cursor are the rest of the list when the page does not
      end inside a millisecond; otherwise they are too few. */
  lemma RestOfList(all: seq<Row>, rows: seq<Row>, limit: nat)
    requires 1 <= limit <= |all| && Arrangement(all, rows)
    ensures var rest, later := all[limit..], Filter(rows, Before(all[..limit]));
      multiset(later) <= multiset(rest) && if Splits(all, limit) then |later| < |rest| else Arrangement(rest, later)
  {
    LaterRows(all, rows, limit);
    if Splits(all, limit) {
      ShortRest(all, rows, limit);
    } else {
      WholeRest(all, rows, limit);
    }
  }

  lemma PageAndRest(all: seq<Row>, rows: seq<Row>, limit: nat)
    requires limit <= |all| && Arrangement(all, rows)
    ensures multiset(rows) == multiset(all[..limit]) + multiset(all[limit..]) && |rows| == limit + |all[limit..]|
  {
    assert all == all[..limit] + all[limit..];
    SameSize(all, rows);
  }

  // ---------- the whole reading ----------

  /** No page ends between two rows of the same millisecond. */
  predicate PagesApart(all: seq<Row>, limit: nat)
    requires limit >= 1
    decreases |all|
  {
    |all| <= limit || (!Splits(all, limit) && PagesApart(all[limit..], limit))
  }

  lemma {:induction false} ApartSameTimes(a: seq<Row>, b: seq<Row>, limit: nat)
    requires limit >= 1 && |a| == |b| && forall i :: 0 <= i < |a| ==> a[i].updatedAt == b[i].updatedAt
    ensures PagesApart(a, limit) <==> PagesApart(b, limit)
    decreases |a|
  {
    if |a| > limit {
      ApartSameTimes(a[limit..], b[limit..], limit);
    }
  }

  predicate AllBelow(rows: seq<Row>, time: int) {
    forall i :: 0 <= i < |rows| ==> rows[i].updatedAt <= time
  }

  lemma BelowTransfers(a: seq<Row>, b: seq<Row>, time: int)
    requires multiset(a) <= multiset(b) && AllBelow(b, time)
    ensures AllBelow(a, time)
  {
    forall i | 0 <= i < |a| ensures a[i].updatedAt <= time {
      assert a[i] in multiset(a);
      assert a[i] in multiset(b);
    }
  }

  /** Whatever the times are, no row is read twice, none is read that does not match, and the rows
      come in descending order. */
  lemma {:induction false} PagingIsSound(pages: seq<seq<Row>>, rows: seq<Row>, limit: nat)
    requires limit >= 1 && Paging(pages, rows, limit)
    ensures multiset(Read(pages)) <= multiset(rows) && Descending(Read(pages))
  {
    var all: seq<Row> :| Arrangement(all, rows) && pages[0] == Take(all, limit);
    SameSize(all, rows);
    if |pages[0]| == limit {
      assert pages[0] == all[..limit];
      RestOfList(all, rows, limit);
      PagingIsSound(pages[1..], Filter(rows, Before(pages[0])), limit);
      PageAndRest(all, rows, limit);
      SoundStep(all, limit, Read(pages[1..]));
    } else {
      assert pages[1..] == [] && Read(pages) == pages[0] + [] == all;
    }
  }

  lemma SoundStep(all: seq<Row>, limit: nat, later: seq<Row>)
    requires 1 <= limit <= |all| && Descending(all) && Descending(later) && multiset(later) <= multiset(all[limit..])
    ensures Descending(all[..limit] + later)
    ensures multiset(all[..limit] + later) <= multiset(all[..limit]) + multiset(all[limit..])
  {
    var time := all[limit - 1].updatedAt;
    assert AllBelow(all[limit..], time);
    BelowTransfers(later, all[limit..], time);
  }

  /** Every matching row is read exactly when no page ends between two rows of the same millisecond. */
  lemma {:induction false} PagingIsComplete(pages: seq<seq<Row>>, rows: seq<Row>, limit: nat, order: seq<Row>)
    requires limit >= 1 && Paging(pages, rows, limit) && Arrangement(order, rows)
    ensures multiset(Read(pages)) == multiset(rows) <==> PagesApart(order, limit)
    decreases |pages|
  {
    var all: seq<Row> :| Arrangement(all, rows) && pages[0] == Take(all, limit);
    SameTimes(all, order);
    ApartSameTimes(all, order, limit);
    if |pages[0]| == limit {
      PagingStep(pages, rows, limit, all);
    } else {
      assert pages[1..] == [] && Read(pages) == pages[0] + [] == all;
    }
  }

  lemma {:induction false} PagingStep(pages: seq<seq<Row>>, rows: seq<Row>, limit: nat, all: seq<Row>)
    requires limit >= 1 && Paging(pages, rows, limit) && Arrangement(all, rows)
    requires pages[0] == Take(all, limit) && |pages[0]| == limit
    ensures multiset(Read(pages)) == multiset(rows) <==> PagesApart(all, limit)
    decreases |pages|, 0
  {
    var rest, later, read := all[limit..], Filter(rows, Before(pages[0])), Read(pages[1..]);
    assert pages[0] == all[..limit];
    RestOfList(all, rows, limit);
    PageAndRest(all, rows, limit);
    SamePage(pages[0], read, rest);
    if Splits(all, limit) {
      PagingIsSound(pages[1..], later, limit);
      SubsetSize(read, later);
      if multiset(read) == multiset(rest) {
        SameSize(read, rest);
      }
    } else {
      PagingIsComplete(pages[1..], later, limit, rest);
      SameApart(all, limit);
    }
  }

  lemma SameApart(all: seq<Row>, limit: nat)
    requires 1 <= limit <= |all| && !Splits(all, limit)
    ensures PagesApart(all, limit) <==> PagesApart(all[limit..], limit)
  {
  }

  lemma SamePage(page: seq<Row>, read: seq<Row>, rest: seq<Row>)
    ensures multiset(page + read) == multiset(page) + multiset(rest) <==> multiset(read) == multiset(rest)
  {
    if multiset(page + read) == multiset(page) + multiset(rest) {
      forall row ensures multiset(read)[row] == multiset(rest)[row] {
        assert multiset(page + read)[row] == multiset(page)[row] + multiset(read)[row];
      }
    }
  }

  predicate DistinctMillis(all: seq<Row>) {
    forall i, j :: 0 <= i < j < |all| ==> Millis(all[i].updatedAt) != Millis(all[j].updatedAt)
  }

  lemma {:induction false} DistinctIsApart(all: seq<Row>, limit: nat)
    requires limit >= 1 && DistinctMillis(all)
    ensures PagesApart(all, limit)
    decreases |all|
  {
    if |all| > limit {
      DistinctIsApart(all[limit..], limit);
    }
  }

  ghost predicate ApartForAllLimits(all: seq<Row>) {
    forall limit: nat :: limit >= 1 ==> PagesApart(all, limit)
  }

  /** Reading is complete whatever the page size exactly when no two rows share a millisecond. */
  lemma DistinctMillisNeeded(all: seq<Row>)
    requires Descending(all)
    ensures DistinctMillis(all) <==> ApartForAllLimits(all)
  {
    if DistinctMillis(all) {
      forall limit: nat | limit >= 1 ensures PagesApart(all, limit) {
        DistinctIsApart(all, limit);
      }
    }
    if ApartForAllLimits(all) {
      forall i, j | 0 <= i < j < |all| ensures Millis(all[i].updatedAt) != Millis(all[j].updatedAt) {
        assert PagesApart(all, i + 1);
        assert !Splits(all, i + 1);
        assert all[i].updatedAt >= all[i + 1].updatedAt >= all[j].updatedAt;
      }
    }
  }

  /** Distinct times are not enough: of two rows half a millisecond apart, pages of one lose the older. */
  lemma HalfAMillisecondApart(newer: Row, older: Row, pages: seq<seq<Row>>)
    requires newer.updatedAt == 1500 && older.updatedAt == 1000
    requires Paging(pages, [older, newer], 1)
    ensures Read(pages) == [newer]
  {
    NewestFirst(newer, older, pages[0]);
    OlderIsLost(newer, older);
    NothingToRead(pages[1..], 1);
    assert [newer] + [] == [newer];
  }

  /** The second page has no rows to choose from: the older row is not before the cursor. */
  lemma OlderIsLost(newer: Row, older: Row)
    requires newer.updatedAt == 1500 && older.updatedAt == 1000
    ensures Filter([older, newer], Before([newer])) == []
  {
    FilterNone([older, newer], Before([newer]));
  }

  lemma NothingToRead(pages: seq<seq<Row>>, limit: nat)
    requires limit >= 1 && Paging(pages, [], limit)
    ensures Read(pages) == []
  {
    PagingIsSound(pages, [], limit);
    SubsetSize(Read(pages), []);
  }

  lemma TwoRows(newer: Row, older: Row, all: seq<Row>)
    requires newer.updatedAt > older.updatedAt && Arrangement(all, [older, newer])
    ensures all != [] && all[0] == newer
  {
    var rows, order := [older, newer], [newer, older];
    SameTimes(all, order);
    assert all[0] in multiset(all);
    assert all[0] in multiset(rows);
  }

  lemma NewestFirst(newer: Row, older: Row, page: seq<Row>)
    requires newer.updatedAt > older.updatedAt && IsPage(page, [older, newer], 1)
    ensures page == [newer]
  {
    var all: seq<Row> :| Arrangement(all, [older, newer]) && page == Take(all, 1);
    TwoRows(newer, older, all);
  }

  // ---------- it ends ----------

  /** A reading that has not stopped yet: every page so far was full. */
  ghost predicate FullPages(pages: seq<seq<Row>>, rows: seq<Row>, limit: nat)
    requires limit >= 1
  {
    pages == [] || (IsPage(pages[0], rows, limit) && |pages[0]| == limit && FullPages(pages[1..], Filter(rows, Before(pages[0])), limit))
  }

  /** A reader gets at most as many full pages as the rows fill. */
  lemma {:induction false} PagingEnds(pages: seq<seq<Row>>, rows: seq<Row>, limit: nat)
    requires limit >= 1 && FullPages(pages, rows, limit)
    ensures |pages| * limit <= |rows|
  {
    if pages != [] {
      var later := Filter(rows, Before(pages[0]));
      FullPageLeaves(pages[0], rows, limit);
      PagingEnds(pages[1..], later, limit);
      OneMore(|pages[1..]|, limit, |later|, |rows|);
    }
  }

  lemma FullPageLeaves(page: seq<Row>, rows: seq<Row>, limit: nat)
    requires limit >= 1 && IsPage(page, rows, limit) && |page| == limit
    ensures |Filter(rows, Before(page))| + limit <= |rows|
  {
    var all: seq<Row> :| Arrangement(all, rows) && page == Take(all, limit);
    assert page == all[..limit];
    RestOfList(all, rows, limit);
    SubsetSize(Filter(rows, Before(page)), all[limit..]);
    PageAndRest(all, rows, limit);
  }

  /** Some reading exists, whatever the rows. */
  lemma {:induction false} SomeReading(rows: seq<Row>, limit: nat) returns (pages: seq<seq<Row>>)
    requires limit >= 1
    ensures Paging(pages, rows, limit)
    decreases |rows|
  {
    var newest := (row: Row) => -row.updatedAt;
    var all := SortBy(rows, newest);
    SortSorts(rows, newest);
    SameSize(all, rows);
    var page := Take(all, limit);
    assert Arrangement(all, rows) by {
      assert forall i :: 0 <= i < |all| ==> newest(all[i]) == -all[i].updatedAt;
    }
    if |page| == limit {
      assert page == all[..limit];
      RestOfList(all, rows, limit);
      PageAndRest(all, rows, limit);
      SubsetSize(Filter(rows, Before(page)), all[limit..]);
      var more := SomeReading(Filter(rows, Before(page)), limit);
      pages := [page] + more;
      assert pages[1..] == more;
    } else {
      pages := [page];
    }
  }

  lemma OneMore(pages: nat, limit: nat, later: nat, rows: nat)
    requires pages * limit <= later && later + limit <= rows
    ensures (pages + 1) * limit <= rows
  {
  }

  // ---------- the requests ----------

  /** A JSON date read back by the database is the time to the millisecond. */
  ghost predicate DatesRoundTrip(iso: int -> string, sql: Sql) {
    forall time :: sql.time(iso(time)) == Some(Millis(time) * 1000)
  }

  function WantedBy(companyId: string, query: Query, sql: Sql): Row -> bool {
    (row: Row) => Wanted(companyId, query, row, sql)
  }

  /** The rows of the table that the built query selects. */
  function Matching(table: seq<Row>, companyId: string, query: Query, sql: Sql): seq<Row> {
    Filter(table, WantedBy(companyId, query, sql))
  }

  function NextCursor(page: seq<Row>, limit: int, iso: int -> string): Option<string> {
    if |page| == limit && page != [] then Some(iso(page[|page| - 1].updatedAt)) else None
  }

  /** The pages of successive requests, each with the cursor of the one before, until there is none. */
  ghost predicate Requests(pages: seq<seq<Row>>, table: seq<Row>, companyId: string, query: Query, sql: Sql, iso: int -> string)
    requires query.limit >= 1
  {
    && pages != []
    && IsPage(pages[0], Matching(table, companyId, query, sql), query.limit)
    && var next := NextCursor(pages[0], query.limit, iso);
       if next.None? then |pages| == 1 else Requests(pages[1..], table, companyId, query.(cursor := next), sql, iso)
  }

  lemma CursorNarrows(table: seq<Row>, companyId: string, query: Query, sql: Sql, iso: int -> string, page: seq<Row>)
    requires DatesRoundTrip(iso, sql) && page != []
    requires IsPage(page, Matching(table, companyId, query, sql), |page|)
    ensures var next := query.(cursor := Some(iso(page[|page| - 1].updatedAt)));
      Matching(table, companyId, next, sql) == Filter(Matching(table, companyId, query, sql), Before(page))
  {
    var next := query.(cursor := Some(iso(page[|page| - 1].updatedAt)));
    var rows := Matching(table, companyId, query, sql);
    var all: seq<Row> :| Arrangement(all, rows) && page == Take(all, |page|);
    var last := page[|page| - 1];
    assert last in multiset(all);
    assert last in multiset(rows) && last in rows;
    FilterMembers(table, WantedBy(companyId, query, sql));
    assert Wanted(companyId, query, last, sql);
    assert sql.time(iso(last.updatedAt)) == Some(Millis(last.updatedAt) * 1000);
    forall row ensures Wanted(companyId, next, row, sql) <==> Wanted(companyId, query, row, sql) && Before(page)(row) {
    }
    FilterTwice(table, WantedBy(companyId, query, sql), Before(page), WantedBy(companyId, next, sql));
  }

  /** Following the cursors of the requests reads the list of the first one page by page. */
  lemma {:induction false} RequestsArePaging(
      pages: seq<seq<Row>>, table: seq<Row>, companyId: string, query: Query, sql: Sql, iso: int -> string)
    requires query.limit >= 1 && DatesRoundTrip(iso, sql) && Requests(pages, table, companyId, query, sql, iso)
    ensures Paging(pages, Matching(table, companyId, query, sql), query.limit)
  {
    var next := NextCursor(pages[0], query.limit, iso);
    if next.Some? {
      NextRows(table, companyId, query, sql, iso, pages[0]);
      RequestsArePaging(pages[1..], table, companyId, query.(cursor := next), sql, iso);
    }
  }

  lemma NextRows(table: seq<Row>, companyId: string, query: Query, sql: Sql, iso: int -> string, page: seq<Row>)
    requires query.limit >= 1 && DatesRoundTrip(iso, sql)
    requires IsPage(page, Matching(table, companyId, query, sql), query.limit)
    requires NextCursor(page, query.limit, iso).Some?
    ensures Matching(table, companyId, query.(cursor := NextCursor(page, query.limit, iso)), sql)
      == Filter(Matching(table, companyId, query, sql), Before(page))
  {
    CursorNarrows(table, companyId, query, sql, iso, page);
  }

  /** Starting without a cursor on an unchanging table, the requests yield rows that pass the filters,
      each at most once and in descending order; and they yield all of them exactly when no page ends
      between two rows of the same millisecond. */
  lemma ListingIsExact(
      pages: seq<seq<Row>>, table: seq<Row>, companyId: string, query: Query, sql: Sql, iso: int -> string, order: seq<Row>)
    requires query.limit >= 1 && query.cursor.None? && DatesRoundTrip(iso, sql)
    requires Requests(pages, table, companyId, query, sql, iso)
    requires Arrangement(order, Filter(table, (row: Row) => Filters(companyId, query, row, sql)))
    ensures Descending(Read(pages)) && multiset(Read(pages)) <= multiset(order)
    ensures multiset(Read(pages)) == multiset(order) <==> PagesApart(order, query.limit)
    ensures DistinctMillis(order) ==> multiset(Read(pages)) == multiset(order)
  {
    var rows := Matching(table, companyId, query, sql);
    SameKept(table, WantedBy(companyId, query, sql), (row: Row) => Filters(companyId, query, row, sql));
    RequestsArePaging(pages, table, companyId, query, sql, iso);
    PagingIsSound(pages, rows, query.limit);
    PagingIsComplete(pages, rows, query.limit, order);
    if DistinctMillis(order) {
      DistinctIsApart(order, query.limit);
    }
  }

  lemma {:induction false} SameKept(rows: seq<Row>, keep: Row -> bool, also: Row -> bool)
    requires forall row :: keep(row) == also(row)
    ensures Filter(rows, keep) == Filter(rows, also)
  {
    if rows != [] {
      SameKept(rows[1..], keep, also);
    }
  }
}
