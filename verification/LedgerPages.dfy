/** Listing a wallet's ledger page by page, with the last entry's id as the next cursor
    (internal/app/wallet_ledger_list.go, internal/postgres/wallet_repository.go). */
module LedgerPages {
  import opened Prelude

  /** A row of the ledger table, in commit order; what the listing does not look at is left out. */
  datatype Row = Row(id: Id, walletId: Id, createdAt: int)

  /** ORDER BY created_at, id. */
  predicate Less(a: Row, b: Row) {
    a.createdAt < b.createdAt || (a.createdAt == b.createdAt && a.id < b.id)
  }

  predicate Distinct(table: seq<Row>) {
    forall i, j :: 0 <= i < j < |table| ==> table[i].id != table[j].id
  }

  predicate Sorted(rows: seq<Row>) {
    forall i, j :: 0 <= i < j < |rows| ==> Less(rows[i], rows[j])
  }

  function Insert(rows: seq<Row>, r: Row): (longer: seq<Row>)
    ensures |longer| == |rows| + 1
    ensures forall x :: x in longer <==> x in rows || x == r
  {
    if rows == [] || Less(rows[|rows| - 1], r) then rows + [r]
    else
      var n := |rows| - 1;
      assert rows == rows[..n] + [rows[n]];
      Insert(rows[..n], r) + [rows[n]]
  }

  /** The wallet's rows, in order. */
  function Ordered(table: seq<Row>, w: Id): (rows: seq<Row>)
    ensures forall x :: x in rows <==> x in table && x.walletId == w
  {
    if table == [] then []
    else
      var init, last := Ordered(table[..|table| - 1], w), table[|table| - 1];
      assert table == table[..|table| - 1] + [last];
      if last.walletId == w then Insert(init, last) else init
  }

  function Lookup(table: seq<Row>, id: Id): (r: Option<Row>)
    ensures r.Some? ==> r.value in table && r.value.id == id
    ensures r.None? ==> forall x :: x in table ==> x.id != id
  {
    if table == [] then None else if table[0].id == id then Some(table[0]) else Lookup(table[1..], id)
  }

  /** The rows past a key, in order. */
  function After(rows: seq<Row>, key: Row): seq<Row> {
    if rows == [] then []
    else
      var n := |rows| - 1;
      if Less(key, rows[n]) then After(rows[..n], key) + [rows[n]] else After(rows[..n], key)
  }

  function Take(rows: seq<Row>, limit: nat): seq<Row> {
    if |rows| <= limit then rows else rows[..limit]
  }

  /** An unknown cursor compares with nothing, so it selects nothing; one of another wallet's
      entries still has a key to compare with. */
  function Selected(table: seq<Row>, w: Id, cursor: Option<Id>): seq<Row> {
    match cursor
    case None => Ordered(table, w)
    case Some(id) =>
      match Lookup(table, id)
      case None => []
      case Some(key) => After(Ordered(table, w), key)
  }

  function Page(table: seq<Row>, w: Id, cursor: Option<Id>, limit: nat): seq<Row> {
    Take(Selected(table, w, cursor), limit)
  }

  const DEFAULT_LIMIT := 50

  /** The limit as clamped in front of the query. */
  function Clamped(limit: int): nat {
    if limit <= 0 || limit > DEFAULT_LIMIT then DEFAULT_LIMIT else limit
  }

  /** The scan: rows arrive in order and are appended while they match and the page has room. */
  method ListLedgerEntries(table: seq<Row>, w: Id, cursor: Option<Id>, limit: nat) returns (entries: seq<Row>)
    ensures entries == Page(table, w, cursor, limit)
  {
    hide After, Less, Ordered, Lookup;
    var rows := Ordered(table, w);
    var key := None;
    if cursor.Some? {
      key := Lookup(table, cursor.value);
      if key.None? {
        return [];
      }
    }
    entries := [];
    if key.Some? {
      NothingAfter([], key.value);
    }
    for i := 0 to |rows|
      invariant entries == Take(if key.None? then rows[..i] else After(rows[..i], key.value), limit)
    {
      OneRowMore(rows, i, key, limit);
      if (key.None? || Less(key.value, rows[i])) && |entries| < limit {
        entries := entries + [rows[i]];
      }
    }
    assert rows[..|rows|] == rows;
  }

  /** The listing: at most fifty rows at a time, and fifty where none or more are asked for. */
  method List(table: seq<Row>, w: Id, cursor: Option<Id>, limit: int) returns (entries: seq<Row>)
    ensures entries == Page(table, w, cursor, if 1 <= limit <= 50 then limit else 50)
  {
    entries := ListLedgerEntries(table, w, cursor, Clamped(limit));
  }

  /** The page of one row more. */
  lemma OneRowMore(rows: seq<Row>, i: nat, key: Option<Row>, limit: nat)
    requires i < |rows|
    ensures var before := Take(if key.None? then rows[..i] else After(rows[..i], key.value), limit);
            var longer := Take(if key.None? then rows[..i + 1] else After(rows[..i + 1], key.value), limit);
            longer == if (key.None? || Less(key.value, rows[i])) && |before| < limit then before + [rows[i]] else before
  {
    assert rows[..i + 1][..i] == rows[..i];
  }

  // ----- ordering -----

  lemma {:induction false} InsertSorts(rows: seq<Row>, r: Row)
    requires Sorted(rows) && forall x :: x in rows ==> x.id != r.id
    ensures Sorted(Insert(rows, r))
  {
    if rows != [] && !Less(rows[|rows| - 1], r) {
      var n := |rows| - 1;
      assert forall x :: x in rows[..n] ==> x in rows;
      InsertSorts(rows[..n], r);
      var longer := Insert(rows[..n], r);
      assert rows[n] in rows;
      forall i | 0 <= i < |longer|
        ensures Less(longer[i], rows[n])
      {
        assert longer[i] in longer;
      }
    } else if rows != [] {
      forall i | 0 <= i < |rows|
        ensures Less(rows[i], r)
      {
        assert i < |rows| - 1 ==> Less(rows[i], rows[|rows| - 1]);
      }
    }
  }

  lemma {:induction false} OrderedSorts(table: seq<Row>, w: Id)
    requires Distinct(table)
    ensures Sorted(Ordered(table, w))
  {
    if table != [] {
      var n := |table| - 1;
      OrderedSorts(table[..n], w);
      assert forall x :: x in Ordered(table[..n], w) ==> x in table[..n];
      if table[n].walletId == w {
        InsertSorts(Ordered(table[..n], w), table[n]);
      }
    }
  }

  /** The rows past the k-th are those that follow it. */
  lemma {:induction false} AfterIsSuffix(rows: seq<Row>, k: nat)
    requires Sorted(rows) && k < |rows|
    ensures After(rows, rows[k]) == rows[k + 1..]
  {
    var n := |rows| - 1;
    if k == n {
      NothingAfter(rows, rows[n]);
    } else {
      assert rows[..n][k] == rows[k];
      AfterIsSuffix(rows[..n], k);
      assert rows[..n][k + 1..] + [rows[n]] == rows[k + 1..];
    }
  }

  lemma {:induction false} NothingAfter(rows: seq<Row>, key: Row)
    requires forall x :: x in rows ==> !Less(key, x)
    ensures After(rows, key) == []
  {
    if rows != [] {
      assert rows[|rows| - 1] in rows;
      NothingAfter(rows[..|rows| - 1], key);
    }
  }

  // ----- what a page holds -----

  /** The row follows the one the cursor names, whosever that is, in the listing's order. */
  predicate PastCursor(table: seq<Row>, cursor: Option<Id>, x: Row) {
    cursor.None?
    || exists i :: 0 <= i < |table| && table[i].id == cursor.value
                   && (table[i].createdAt < x.createdAt || (table[i].createdAt == x.createdAt && table[i].id < x.id))
  }

  lemma {:induction false} AfterHolds(rows: seq<Row>, key: Row)
    ensures forall x :: x in After(rows, key) <==> x in rows && Less(key, x)
    ensures Sorted(rows) ==> Sorted(After(rows, key))
  {
    if rows != [] {
      var n := |rows| - 1;
      AfterHolds(rows[..n], key);
      assert rows == rows[..n] + [rows[n]];
      if Sorted(rows) && Less(key, rows[n]) {
        var init := After(rows[..n], key);
        forall i | 0 <= i < |init|
          ensures Less(init[i], rows[n])
        {
          assert init[i] in init && init[i] in rows[..n];
        }
      }
    }
  }

  lemma SelectedExactly(table: seq<Row>, w: Id, cursor: Option<Id>)
    requires Distinct(table)
    ensures Sorted(Selected(table, w, cursor))
    ensures forall x :: x in Selected(table, w, cursor) <==>
                          x in table && x.walletId == w && PastCursor(table, cursor, x)
  {
    hide Ordered, Lookup, After;
    OrderedSorts(table, w);
    if cursor.Some? {
      var key := Lookup(table, cursor.value);
      if key.Some? {
        AfterHolds(Ordered(table, w), key.value);
        var i :| 0 <= i < |table| && table[i] == key.value;
      }
    }
  }

  /** A page holds, in the listing's order, rows of the wallet past the cursor, as many as the limit allows;
      and every such row that is not in it comes after all that are. A cursor nobody has selects nothing. */
  lemma PagesExactly(table: seq<Row>, w: Id, cursor: Option<Id>, limit: nat)
    requires Distinct(table)
    ensures var page := Page(table, w, cursor, limit);
            && |page| <= limit && Sorted(page)
            && (forall x :: x in page ==> x in table && x.walletId == w && PastCursor(table, cursor, x))
            && (forall x :: x in table && x.walletId == w && PastCursor(table, cursor, x) && x !in page ==>
                  |page| == limit && forall y :: y in page ==> Less(y, x))
  {
    hide Selected, PastCursor;
    SelectedExactly(table, w, cursor);
    var all, page := Selected(table, w, cursor), Page(table, w, cursor, limit);
    forall x | x in all && x !in page
      ensures |page| == limit && forall y :: y in page ==> Less(y, x)
    {
      var j :| 0 <= j < |all| && all[j] == x;
      assert j >= limit;
    }
  }

  // ----- following the cursors -----

  /** The later table has more rows, each of this wallet's keyed after all of the wallet's before. */
  predicate GrowsInOrder(table: seq<Row>, later: seq<Row>, w: Id) {
    && table <= later && Distinct(later)
    && forall i, j :: 0 <= j < i < |later| && |table| <= i && later[i].walletId == w && later[j].walletId == w ==>
      Less(later[j], later[i])
  }

  lemma {:induction false} GrowthAppends(table: seq<Row>, later: seq<Row>, w: Id)
    requires GrowsInOrder(table, later, w)
    ensures Ordered(table, w) <= Ordered(later, w)
    decreases |later|
  {
    if |table| == |later| {
      assert table == later;
    } else {
      var n := |later| - 1;
      GrowthAppends(table, later[..n], w);
      var rows := Ordered(later[..n], w);
      if later[n].walletId == w && rows != [] {
        assert rows[|rows| - 1] in rows;
        var j :| 0 <= j < n && later[j] == rows[|rows| - 1];
      }
    }
  }

  /** The tables as each page finds them. */
  predicate GrowInOrder(tables: seq<seq<Row>>, w: Id) {
    tables != [] ==>
      Distinct(tables[0]) && (|tables| > 1 ==> GrowsInOrder(tables[0], tables[1], w) && GrowInOrder(tables[1..], w))
  }

  /** One page per table, each page's last id the next cursor. */
  function Visit(tables: seq<seq<Row>>, w: Id, cursor: Option<Id>, limit: nat): seq<Row> {
    if tables == [] then []
    else
      var page := Page(tables[0], w, cursor, limit);
      page + Visit(tables[1..], w, if page == [] then cursor else Some(page[|page| - 1].id), limit)
  }

  /** The page the last table gives. */
  function LastPage(tables: seq<seq<Row>>, w: Id, cursor: Option<Id>, limit: nat): seq<Row>
    requires tables != []
  {
    var page := Page(tables[0], w, cursor, limit);
    if |tables| == 1 then page
    else LastPage(tables[1..], w, if page == [] then cursor else Some(page[|page| - 1].id), limit)
  }

  /** The cursor after k rows. */
  predicate CursorAt(rows: seq<Row>, k: nat, cursor: Option<Id>) {
    k <= |rows| && cursor == if k == 0 then None else Some(rows[k - 1].id)
  }

  lemma PageFrom(table: seq<Row>, w: Id, k: nat, cursor: Option<Id>, limit: nat)
    requires Distinct(table) && CursorAt(Ordered(table, w), k, cursor)
    ensures Page(table, w, cursor, limit) == Take(Ordered(table, w)[k..], limit)
  {
    hide Ordered, After, Lookup, Take;
    if k > 0 {
      var rows := Ordered(table, w);
      OrderedSorts(table, w);
      AfterIsSuffix(rows, k - 1);
      assert rows[k - 1] in rows;
      OneRowPerId(table, rows[k - 1]);
    }
  }

  lemma {:induction false} OneRowPerId(table: seq<Row>, r: Row)
    requires Distinct(table) && r in table
    ensures Lookup(table, r.id) == Some(r)
  {
    if table[0] != r {
      var i :| 0 <= i < |table| && table[i] == r;
      assert table[0].id != r.id;
      assert table[1..][i - 1] == r;
      OneRowPerId(table[1..], r);
    }
  }

  /** One page: the next rows, and the cursor after them. */
  lemma PageStep(table: seq<Row>, w: Id, k: nat, cursor: Option<Id>, limit: nat)
    requires Distinct(table) && CursorAt(Ordered(table, w), k, cursor) && limit > 0
    ensures var rows, page := Ordered(table, w), Page(table, w, cursor, limit);
            && k + |page| <= |rows| && page == rows[k..k + |page|]
            && (|page| < limit ==> k + |page| == |rows|) && |page| <= limit
            && CursorAt(rows, k + |page|, if page == [] then cursor else Some(page[|page| - 1].id))
  {
    hide Page, Ordered;
    PageFrom(table, w, k, cursor, limit);
  }

  lemma CursorStays(table: seq<Row>, later: seq<Row>, w: Id, k: nat, cursor: Option<Id>)
    requires GrowsInOrder(table, later, w) && CursorAt(Ordered(table, w), k, cursor)
    ensures CursorAt(Ordered(later, w), k, cursor)
  {
    hide Ordered;
    GrowthAppends(table, later, w);
  }

  lemma {:induction false} LastGrows(tables: seq<seq<Row>>, w: Id)
    requires tables != [] && GrowInOrder(tables, w)
    ensures Ordered(tables[0], w) <= Ordered(tables[|tables| - 1], w)
    decreases |tables|
  {
    if |tables| > 1 {
      hide Ordered, GrowsInOrder;
      LastGrows(tables[1..], w);
      GrowthAppends(tables[0], tables[1], w);
    }
  }

  /** Following the cursors, from after the k-th row on, over a table that grows in order between the
      pages, visits the rows that follow, in order and each once; and once a page comes out short,
      all there are. */
  lemma {:induction false} VisitsEachOnceInOrder(tables: seq<seq<Row>>, w: Id, k: nat, cursor: Option<Id>, limit: nat)
    requires tables != [] && GrowInOrder(tables, w) && CursorAt(Ordered(tables[0], w), k, cursor) && limit > 0
    ensures var all, seen := Ordered(tables[|tables| - 1], w), Visit(tables, w, cursor, limit);
            && k + |seen| <= |all| && seen == all[k..k + |seen|]
            && (|LastPage(tables, w, cursor, limit)| < limit ==> k + |seen| == |all|)
    decreases |tables|
  {
    hide Ordered, Page, GrowsInOrder, GrowInOrder, CursorAt, Visit, LastPage;
    var page := Page(tables[0], w, cursor, limit);
    GrowthStep(tables, w);
    PageStep(tables[0], w, k, cursor, limit);
    VisitStep(tables, w, cursor, limit);
    if |tables| > 1 {
      var next := if page == [] then cursor else Some(page[|page| - 1].id);
      CursorStays(tables[0], tables[1], w, k + |page|, next);
      VisitsEachOnceInOrder(tables[1..], w, k + |page|, next, limit);
      LastGrows(tables, w);
      Joins(page, Visit(tables[1..], w, next, limit), Ordered(tables[|tables| - 1], w), k);
    }
  }

  lemma GrowthStep(tables: seq<seq<Row>>, w: Id)
    requires tables != [] && GrowInOrder(tables, w)
    ensures Distinct(tables[0])
            && (|tables| > 1 ==> GrowsInOrder(tables[0], tables[1], w) && GrowInOrder(tables[1..], w))
  {
    hide Distinct, GrowsInOrder;
  }

  lemma VisitStep(tables: seq<seq<Row>>, w: Id, cursor: Option<Id>, limit: nat)
    requires tables != []
    ensures var page := Page(tables[0], w, cursor, limit);
            var next := if page == [] then cursor else Some(page[|page| - 1].id);
            && Visit(tables, w, cursor, limit) ==
              (if |tables| == 1 then page else page + Visit(tables[1..], w, next, limit))
            && LastPage(tables, w, cursor, limit) ==
              (if |tables| == 1 then page else LastPage(tables[1..], w, next, limit))
  {
    hide Page;
    if |tables| == 1 {
      assert tables[1..] == [];
    }
  }

  lemma Joins(page: seq<Row>, rest: seq<Row>, all: seq<Row>, k: nat)
    requires k + |page| + |rest| <= |all| && page == all[k..k + |page|] && rest == all[k + |page|..k + |page| + |rest|]
    ensures page + rest == all[k..k + |page| + |rest|]
  {
  }

  function Repeated(table: seq<Row>, n: nat): seq<seq<Row>> {
    if n == 0 then [] else [table] + Repeated(table, n - 1)
  }

  /** What n pages hold. */
  function Capacity(n: nat, limit: nat): (rows: nat)
    requires limit > 0
    ensures rows >= n
  {
    if n == 0 then 0 else limit + Capacity(n - 1, limit)
  }

  /** Over a table that stands still, n pages come to the first rows that n pages hold. */
  lemma {:induction false} PagesAddUp(table: seq<Row>, w: Id, k: nat, cursor: Option<Id>, limit: nat, n: nat)
    requires Distinct(table) && CursorAt(Ordered(table, w), k, cursor) && limit > 0
    ensures Visit(Repeated(table, n), w, cursor, limit) == Take(Ordered(table, w)[k..], Capacity(n, limit))
    decreases n
  {
    hide Ordered, Page, Take, Distinct, Visit, Repeated;
    if n == 0 {
      NoPages(table, w, k, cursor, limit);
    } else {
      var rows, page := Ordered(table, w), Page(table, w, cursor, limit);
      PageFrom(table, w, k, cursor, limit);
      PageStep(table, w, k, cursor, limit);
      var next := if page == [] then cursor else Some(page[|page| - 1].id);
      PagesAddUp(table, w, k + |page|, next, limit, n - 1);
      VisitRepeated(table, w, cursor, limit, n);
      TakeJoins(rows, k, limit, Capacity(n - 1, limit));
    }
  }

  /** The listing ends: from the start, as many pages as there are rows, at whatever limit was asked
      for, make up the unpaginated list, and any further page is empty. */
  lemma ListingEnds(table: seq<Row>, w: Id, limit: int, n: nat)
    requires Distinct(table) && n >= |Ordered(table, w)|
    ensures Visit(Repeated(table, n), w, None, Clamped(limit)) == Ordered(table, w)
  {
    PagesAddUp(table, w, 0, None, Clamped(limit), n);
    assert Ordered(table, w)[0..] == Ordered(table, w);
  }

  lemma NoPages(table: seq<Row>, w: Id, k: nat, cursor: Option<Id>, limit: nat)
    requires k <= |Ordered(table, w)|
    ensures Visit(Repeated(table, 0), w, cursor, limit) == Take(Ordered(table, w)[k..], 0)
  {
  }

  lemma VisitRepeated(table: seq<Row>, w: Id, cursor: Option<Id>, limit: nat, n: nat)
    requires n > 0
    ensures var page := Page(table, w, cursor, limit);
            Visit(Repeated(table, n), w, cursor, limit) ==
            page + Visit(Repeated(table, n - 1), w, if page == [] then cursor else Some(page[|page| - 1].id), limit)
  {
    hide Page;
    assert Repeated(table, n)[1..] == Repeated(table, n - 1);
  }

  lemma TakeJoins(rows: seq<Row>, k: nat, a: nat, b: nat)
    requires k <= |rows|
    ensures var first := Take(rows[k..], a);
            k + |first| <= |rows| && first + Take(rows[k + |first|..], b) == Take(rows[k..], a + b)
  {
  }
}
