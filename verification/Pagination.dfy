/** Keyset pagination: pages read one after another from a table that may change in between. */
module Pagination {
  import opened Records
  import opened Listing

  /** The page after `cursor`, as documented: the first `limit` remaining rows, and whether more remain. */
  function PageOf(table: seq<Rec>, f: Filters, cursor: Option<Cursor>, limit: nat): Page
    requires limit > 0
  {
    var all := Remaining(table, f, cursor);
    if |all| > limit then Page(all[..limit], true, Some(KeyOf(all[limit - 1]))) else Page(all, false, None)
  }

  function KeyOf(r: Rec): Cursor {
    Cursor(r.createdAt, r.id)
  }

  /** List: build the query, run it, trim the extra row that tells whether there is more. */
  method List(table: seq<Rec>, f: Filters, cursor: Option<Cursor>, limit: int) returns (page: Page)
    ensures page == PageOf(table, f, cursor, if limit <= 0 then 20 else limit)
  {
    var size := limit;
    if size <= 0 {
      size := 20;
    }
    var where, limitAt, args := BuildQuery(f, cursor, size);
    var rows := Execute(where, limitAt, args, table);
    ExecuteIsRemaining(table, f, cursor, where, limitAt, args, size);
    ExtraRowTells(Remaining(table, f, cursor), size);
    if |rows| > size {
      rows := rows[..size];
      page := Page(rows, true, Some(KeyOf(rows[|rows| - 1])));
    } else {
      page := Page(rows, false, None);
    }
  }

  /** Running a query that means filters plus cursor gives the first remaining rows. */
  lemma ExecuteIsRemaining(table: seq<Rec>, f: Filters, cursor: Option<Cursor>,
                           where: seq<Clause>, limitAt: nat, args: seq<Value>, size: nat)
    requires forall r :: Satisfies(where, args, r) <==> Matches(f, r) && Past(cursor, r)
    requires Arg(args, limitAt) == Some(Count(size + 1))
    ensures Execute(where, limitAt, args, table) == Take(Remaining(table, f, cursor), size + 1)
  {
    FilterSame(table, Selects(where, args), Wanted(f, cursor));
  }

  /** One row beyond the page tells whether there is more. */
  lemma ExtraRowTells(all: seq<Rec>, size: nat)
    ensures var rows := Take(all, size + 1);
            if |all| > size then |rows| > size && rows[..size] == all[..size] else rows == all
  {
  }

  // ---- Sorting

  /** Primary key: no two rows share an id. */
  ghost predicate Keyed(s: seq<Rec>) {
    s == [] || ((forall r :: r in s[1..] ==> r.id != s[0].id) && Keyed(s[1..]))
  }

  ghost predicate Descending(s: seq<Rec>) {
    s == [] || ((forall r :: r in s[1..] ==> Before(s[0], r)) && Descending(s[1..]))
  }

  lemma {:induction false} FilterElements(s: seq<Rec>, p: Rec -> bool)
    ensures forall r :: r in FilterBy(s, p) <==> r in s && p(r)
    ensures Keyed(s) ==> Keyed(FilterBy(s, p))
  {
    if s != [] {
      FilterElements(s[1..], p);
      assert s == [s[0]] + s[1..];
      if p(s[0]) {
        assert FilterBy(s, p)[1..] == FilterBy(s[1..], p);
      } else {
        assert FilterBy(s, p) == FilterBy(s[1..], p);
      }
    }
  }

  lemma {:induction false} InsertElements(r: Rec, s: seq<Rec>)
    ensures forall x :: x in InsertDesc(r, s) <==> x == r || x in s
    ensures |InsertDesc(r, s)| == |s| + 1
    ensures Descending(s) && (forall x :: x in s ==> x.id != r.id) ==> Descending(InsertDesc(r, s))
  {
    if s != [] {
      assert s == [s[0]] + s[1..];
      if Before(r, s[0]) {
        assert ([r] + s)[1..] == s;
      } else {
        InsertElements(r, s[1..]);
        assert InsertDesc(r, s)[1..] == InsertDesc(r, s[1..]);
      }
    }
  }

  lemma {:induction false} SortElements(s: seq<Rec>)
    ensures forall x :: x in SortDesc(s) <==> x in s
    ensures |SortDesc(s)| == |s|
    ensures Keyed(s) ==> Descending(SortDesc(s))
  {
    if s != [] {
      SortElements(s[1..]);
      InsertElements(s[0], SortDesc(s[1..]));
      assert s == [s[0]] + s[1..];
    }
  }

  lemma RemainingRows(table: seq<Rec>, f: Filters, cursor: Option<Cursor>)
    requires Keyed(table)
    ensures var all := Remaining(table, f, cursor);
            Descending(all) && forall r :: r in all <==> r in table && Matches(f, r) && Past(cursor, r)
  {
    FilterElements(table, Wanted(f, cursor));
    SortElements(FilterBy(table, Wanted(f, cursor)));
  }

  /** Indexwise form of descending order. */
  lemma {:induction false} DescendingAt(s: seq<Rec>, i: nat, j: nat)
    requires Descending(s) && i < j < |s|
    ensures Before(s[i], s[j])
  {
    if i == 0 {
      assert s[j] == s[1..][j - 1];
    } else {
      DescendingAt(s[1..], i - 1, j - 1);
    }
  }

  lemma {:induction false} DescendingSlice(s: seq<Rec>, n: nat)
    requires Descending(s) && n <= |s|
    ensures Descending(s[..n]) && Descending(s[n..])
  {
    if n > 0 {
      DescendingSlice(s[1..], n - 1);
      assert s[..n][1..] == s[1..][..n - 1];
      assert s[n..] == s[1..][n - 1..];
    }
  }

  lemma {:induction false} DescendingConcat(a: seq<Rec>, b: seq<Rec>)
    requires Descending(a) && Descending(b)
    requires forall x, y :: x in a && y in b ==> Before(x, y)
    ensures Descending(a + b)
  {
    if a == [] {
      assert a + b == b;
    } else {
      assert (a + b)[1..] == a[1..] + b;
      DescendingConcat(a[1..], b);
    }
  }

  lemma {:induction false} SortedUnique(a: seq<Rec>, b: seq<Rec>)
    requires Descending(a) && Descending(b) && forall r :: r in a <==> r in b
    ensures a == b
  {
    assert b != [] ==> b[0] in b;
    if a != [] {
      assert a[0] in a && a == [a[0]] + a[1..];
      assert b != [] && b[0] in b && b == [b[0]] + b[1..];
      assert a[0] == b[0] && !Before(a[0], a[0]);
      assert forall r :: r in a[1..] <==> r in a && r != a[0];
      assert forall r :: r in b[1..] <==> r in b && r != b[0];
      SortedUnique(a[1..], b[1..]);
    }
  }

  /** A page is newest first, and by descending id among rows of the same time. */
  lemma PageOrdered(table: seq<Rec>, f: Filters, cursor: Option<Cursor>, limit: nat)
    requires limit > 0 && Keyed(table)
    ensures var rows := PageOf(table, f, cursor, limit).rows;
            forall i, j :: 0 <= i < j < |rows| ==>
              rows[i].createdAt > rows[j].createdAt || (rows[i].createdAt == rows[j].createdAt && rows[i].id > rows[j].id)
  {
    var rows := PageOf(table, f, cursor, limit).rows;
    RemainingRows(table, f, cursor);
    forall i, j | 0 <= i < j < |rows| ensures Before(rows[i], rows[j]) {
      DescendingAt(Remaining(table, f, cursor), i, j);
    }
  }

  /** What remains to be listed: the rows that pass each filter given, the time bounds included, and lie below the cursor. */
  lemma RemainingMeans(table: seq<Rec>, f: Filters, cursor: Option<Cursor>, r: Rec)
    requires Keyed(table)
    ensures r in Remaining(table, f, cursor) <==>
              && r in table
              && (f.status.Some? ==> r.status == f.status.value)
              && (f.channel.Some? ==> r.channel == f.channel.value)
              && (f.priority.Some? ==> r.priority == f.priority.value)
              && (f.createdAfter.Some? ==> r.createdAt >= f.createdAfter.value)
              && (f.createdBefore.Some? ==> r.createdAt <= f.createdBefore.value)
              && (cursor.Some? ==> r.createdAt < cursor.value.createdAt
                                   || (r.createdAt == cursor.value.createdAt && r.id < cursor.value.id))
  {
    RemainingRows(table, f, cursor);
  }

  /**
    A page holds the remaining rows, as many as the limit allows. There is more exactly if some are left; then the
    next cursor is the key of the last row, and what is left is what remains after it.
  */
  lemma PageMeans(table: seq<Rec>, f: Filters, cursor: Option<Cursor>, limit: nat)
    requires limit > 0 && Keyed(table)
    ensures var page, all := PageOf(table, f, cursor, limit), Remaining(table, f, cursor);
            && |page.rows| <= limit && (page.hasMore ==> |page.rows| == limit)
            && page.next == (if page.hasMore then Some(Cursor(page.rows[limit - 1].createdAt, page.rows[limit - 1].id)) else None)
            && all == page.rows + (if page.hasMore then Remaining(table, f, page.next) else [])
            && (page.hasMore ==> Remaining(table, f, page.next) != [])
  {
    var all, page := Remaining(table, f, cursor), PageOf(table, f, cursor, limit);
    if page.hasMore {
      RemainingAfter(table, f, cursor, limit);
      assert all == all[..limit] + all[limit..];
    }
  }

  // ---- Walking through the pages

  /** Follow NextCursor through successive states of the table, until HasMore is false or the states run out. */
  function Walk(tables: seq<seq<Rec>>, f: Filters, cursor: Option<Cursor>, limit: nat): seq<Page>
    requires limit > 0
    decreases |tables|
  {
    if tables == [] then []
    else
      var page := PageOf(tables[0], f, cursor, limit);
      if page.hasMore then [page] + Walk(tables[1..], f, page.next, limit) else [page]
  }

  function Rows(pages: seq<Page>): seq<Rec> {
    if pages == [] then [] else pages[0].rows + Rows(pages[1..])
  }

  predicate Finished(pages: seq<Page>) {
    pages != [] && !pages[|pages| - 1].hasMore
  }

  /** Every page continues strictly below where the one before ended, so no key comes twice. */
  lemma {:induction false} WalkDescends(tables: seq<seq<Rec>>, f: Filters, cursor: Option<Cursor>, limit: nat)
    requires limit > 0 && forall i :: 0 <= i < |tables| ==> Keyed(tables[i])
    ensures Descending(Rows(Walk(tables, f, cursor, limit)))
    ensures forall r :: r in Rows(Walk(tables, f, cursor, limit)) ==> Past(cursor, r) && Matches(f, r)
    decreases |tables|
  {
    if tables != [] {
      var all := Remaining(tables[0], f, cursor);
      var page := PageOf(tables[0], f, cursor, limit);
      RemainingRows(tables[0], f, cursor);
      WalkUnfolds(tables, f, cursor, limit);
      if page.hasMore {
        WalkDescends(tables[1..], f, page.next, limit);
        ContinueBelow(all, limit, cursor, Rows(Walk(tables[1..], f, page.next, limit)));
      }
    }
  }

  /** A full page followed by rows below its last one stays in descending order, past the same cursor. */
  lemma ContinueBelow(all: seq<Rec>, limit: nat, cursor: Option<Cursor>, rest: seq<Rec>)
    requires 0 < limit < |all| && Descending(all) && Descending(rest)
    requires forall r :: r in all ==> Past(cursor, r)
    requires forall r :: r in rest ==> Past(Some(KeyOf(all[limit - 1])), r)
    ensures Descending(all[..limit] + rest) && forall r :: r in all[..limit] + rest ==> Past(cursor, r)
  {
    DescendingSlice(all, limit);
    forall x, y | x in all[..limit] && y in rest ensures Before(x, y) {
      var i :| 0 <= i < limit && all[i] == x;
      if i < limit - 1 {
        DescendingAt(all, i, limit - 1);
      }
    }
    DescendingConcat(all[..limit], rest);
    assert Past(cursor, all[limit - 1]);
  }

  /** No two rows of a descending listing have the same key, nor the same id and creation time. */
  lemma NoKeyTwice(s: seq<Rec>, i: nat, j: nat)
    requires Descending(s) && i < j < |s|
    ensures KeyOf(s[i]) != KeyOf(s[j])
  {
    DescendingAt(s, i, j);
  }

  /** A row of the table with this key satisfies the filters. */
  ghost predicate Shows(table: seq<Rec>, f: Filters, key: Cursor) {
    exists r :: r in table && KeyOf(r) == key && Matches(f, r)
  }

  predicate KeyPast(cursor: Option<Cursor>, key: Cursor) {
    cursor.Some? ==> key.createdAt < cursor.value.createdAt
                     || (key.createdAt == cursor.value.createdAt && key.id < cursor.value.id)
  }

  /** Rows of a descending sequence lie below its j-th row exactly when they come after it. */
  lemma BelowIsAfter(all: seq<Rec>, j: nat, r: Rec)
    requires Descending(all) && 0 < j <= |all| && r in all
    ensures Past(Some(KeyOf(all[j - 1])), r) <==> r in all[j..]
    ensures r in all[..j] || r in all[j..]
  {
    var i :| 0 <= i < |all| && all[i] == r;
    if i >= j {
      assert all[j..][i - j] == r;
      DescendingAt(all, j - 1, i);
    } else {
      assert all[..j][i] == r;
      if i < j - 1 {
        DescendingAt(all, i, j - 1);
      }
      if r in all[j..] {
        var k :| 0 <= k < |all[j..]| && all[j..][k] == r;
        DescendingAt(all, i, j + k);
      }
    }
  }

  /** A remaining row that is not on the page is left for the next one. */
  lemma LeftForNext(table: seq<Rec>, f: Filters, cursor: Option<Cursor>, limit: nat, r: Rec)
    requires limit > 0 && Keyed(table) && r in table && Matches(f, r) && Past(cursor, r)
    ensures var page := PageOf(table, f, cursor, limit); r in page.rows || (page.hasMore && Past(page.next, r))
  {
    RemainingRows(table, f, cursor);
    var all := Remaining(table, f, cursor);
    assert r in all;
    if |all| > limit {
      BelowIsAfter(all, limit, r);
    }
  }

  lemma WalkUnfolds(tables: seq<seq<Rec>>, f: Filters, cursor: Option<Cursor>, limit: nat)
    requires limit > 0 && tables != []
    ensures var page, pages := PageOf(tables[0], f, cursor, limit), Walk(tables, f, cursor, limit);
            if page.hasMore then
              pages == [page] + Walk(tables[1..], f, page.next, limit)
              && Rows(pages) == page.rows + Rows(Walk(tables[1..], f, page.next, limit))
            else pages == [page] && Rows(pages) == page.rows
  {
    var page, pages := PageOf(tables[0], f, cursor, limit), Walk(tables, f, cursor, limit);
    assert pages[1..] == if page.hasMore then Walk(tables[1..], f, page.next, limit) else [];
  }

  /** Whatever is inserted, updated or deleted between pages, a row that matched throughout is returned. */
  lemma {:induction false} WalkComplete(tables: seq<seq<Rec>>, f: Filters, cursor: Option<Cursor>, limit: nat, key: Cursor)
    requires limit > 0 && forall i :: 0 <= i < |tables| ==> Keyed(tables[i])
    requires forall i :: 0 <= i < |tables| ==> Shows(tables[i], f, key)
    requires KeyPast(cursor, key) && Finished(Walk(tables, f, cursor, limit))
    ensures exists r :: r in Rows(Walk(tables, f, cursor, limit)) && KeyOf(r) == key
    decreases |tables|
  {
    var page := PageOf(tables[0], f, cursor, limit);
    assert Shows(tables[0], f, key);
    var r :| r in tables[0] && KeyOf(r) == key && Matches(f, r);
    LeftForNext(tables[0], f, cursor, limit, r);
    WalkUnfolds(tables, f, cursor, limit);
    if r !in page.rows {
      WalkComplete(tables[1..], f, page.next, limit, key);
    }
  }

  /** From the first page to the last, such a row is returned exactly once. */
  lemma ReturnedExactlyOnce(tables: seq<seq<Rec>>, f: Filters, limit: nat, key: Cursor)
    requires limit > 0 && forall i :: 0 <= i < |tables| ==> Keyed(tables[i])
    requires forall i :: 0 <= i < |tables| ==> Shows(tables[i], f, key)
    requires Finished(Walk(tables, f, None, limit))
    ensures var rows := Rows(Walk(tables, f, None, limit));
            exists i :: 0 <= i < |rows| && KeyOf(rows[i]) == key
                        && forall j :: 0 <= j < |rows| && j != i ==> KeyOf(rows[j]) != key
  {
    var rows := Rows(Walk(tables, f, None, limit));
    WalkDescends(tables, f, None, limit);
    WalkComplete(tables, f, None, limit, key);
    var r :| r in rows && KeyOf(r) == key;
    var i :| 0 <= i < |rows| && rows[i] == r;
    forall j | 0 <= j < |rows| && j != i ensures KeyOf(rows[j]) != key {
      NoKeyTwice(rows, if i < j then i else j, if i < j then j else i);
    }
  }

  // ---- A table that does not change

  /** After a cursor at the j-th row, the rows from there on remain. */
  lemma RemainingAfter(table: seq<Rec>, f: Filters, cursor: Option<Cursor>, j: nat)
    requires Keyed(table) && 0 < j <= |Remaining(table, f, cursor)|
    ensures Remaining(table, f, Some(KeyOf(Remaining(table, f, cursor)[j - 1]))) == Remaining(table, f, cursor)[j..]
  {
    var all := Remaining(table, f, cursor);
    var c := Some(KeyOf(all[j - 1]));
    RemainingRows(table, f, cursor);
    RemainingRows(table, f, c);
    DescendingSlice(all, j);
    var rest := Remaining(table, f, c);
    assert all[j - 1] in all;
    forall r ensures r in rest <==> r in all[j..] {
      if r in all {
        BelowIsAfter(all, j, r);
      }
    }
    SortedUnique(rest, all[j..]);
  }

  /** How many pages `n` rows take. */
  function PageCount(n: nat, limit: nat): nat
    requires limit > 0
  {
    if n <= limit then 1 else 1 + PageCount(n - limit, limit)
  }

  /** That is max(1, ceil(n / limit)). */
  lemma {:induction false} PageCountIsCeiling(n: nat, limit: nat)
    requires limit > 0
    ensures (PageCount(n, limit) - 1) * limit < Max(n, 1) <= PageCount(n, limit) * limit
  {
    if n > limit {
      PageCountIsCeiling(n - limit, limit);
      var k := PageCount(n - limit, limit);
      assert (k + 1) * limit == k * limit + limit;
      assert k * limit == (k - 1) * limit + limit;
    }
  }

  lemma PrependPage(page: Page, rest: seq<Page>, all: seq<Rec>, limit: nat)
    requires 0 < limit < |all| && page.rows == all[..limit]
    requires Finished(rest) && Rows(rest) == all[limit..] && |rest| == PageCount(|all| - limit, limit)
    ensures var pages := [page] + rest;
            Finished(pages) && Rows(pages) == all && |pages| == PageCount(|all|, limit)
  {
    assert ([page] + rest)[1..] == rest;
    assert all[..limit] + all[limit..] == all;
  }

  /** On a table that does not change, the pages are the filtered rows in order, cut into PageCount pieces. */
  lemma {:induction false} FixedTablePages(tables: seq<seq<Rec>>, table: seq<Rec>, f: Filters, cursor: Option<Cursor>, limit: nat)
    requires limit > 0 && Keyed(table) && forall i :: 0 <= i < |tables| ==> tables[i] == table
    requires |tables| >= PageCount(|Remaining(table, f, cursor)|, limit)
    ensures var pages := Walk(tables, f, cursor, limit);
            && Finished(pages) && |pages| == PageCount(|Remaining(table, f, cursor)|, limit)
            && Rows(pages) == Remaining(table, f, cursor)
    decreases |tables|
  {
    var all := Remaining(table, f, cursor);
    var page := PageOf(table, f, cursor, limit);
    assert tables[0] == table;
    WalkUnfolds(tables, f, cursor, limit);
    if page.hasMore {
      RemainingAfter(table, f, cursor, limit);
      FixedTablePages(tables[1..], table, f, page.next, limit);
      PrependPage(page, Walk(tables[1..], f, page.next, limit), all, limit);
    }
  }
}
