/**
 Keyset pagination of closed trades: `get_performance_trades_page` of
 backend/async_persistence.py.

 Amounts and instants are exact reals and ids are the numbers of the UUIDs, which is how
 PostgreSQL orders them. What the database evaluates is stated in SQL's three-valued logic.
 */
module Pagination {
  import opened Common

  // ---------------------------------------------------------------------------------
  // SQL truth
  // ---------------------------------------------------------------------------------

  datatype Truth = True | False | Unknown {
    function And(other: Truth): Truth {
      if False? || other.False? then False else if True? && other.True? then True else Unknown
    }

    function Or(other: Truth): Truth {
      if True? || other.True? then True else if False? && other.False? then False else Unknown
    }
  }

  function Holds(b: bool): Truth {
    if b then True else False
  }

  function LessThan(a: Option<real>, b: Option<real>): Truth {
    if a.None? || b.None? then Unknown else Holds(a.value < b.value)
  }

  function EqualTo(a: Option<real>, b: Option<real>): Truth {
    if a.None? || b.None? then Unknown else Holds(a.value == b.value)
  }

  // ---------------------------------------------------------------------------------
  // Tables and the request
  // ---------------------------------------------------------------------------------

  datatype Account = Account(deleted: bool, active: bool, inAnalytics: bool, kind: string)

  datatype Trade = Trade(
    id: int, accountId: string, closed: bool,
    exitPrice: Option<real>, closedAt: Option<real>, netPnl: Option<real>)

  datatype Database = Database(trades: seq<Trade>, accounts: map<string, Account>) {
    /** `id` is the primary key. */
    ghost predicate Valid() {
      DistinctIds(trades)
    }
  }

  ghost predicate DistinctIds(rows: seq<Trade>) {
    forall i, j :: 0 <= i < j < |rows| ==> rows[i].id != rows[j].id
  }

  /** Any sort name other than `closed_at` is read as `net_pnl`. */
  datatype Sort = NetPnl | ClosedAt
  /** Any direction other than `asc` is read as `desc`. */
  datatype Direction = Asc | Desc

  /** `accountType == ""` is no filter, like a missing one. */
  datatype Request = Request(
    accountIds: Option<set<string>>, accountType: string,
    start: Option<real>, end: Option<real>, sort: Sort, direction: Direction)

  /** Where a row stands in the order: its sort column and its id. A cursor is a place. */
  datatype Place = Place(key: Option<real>, id: int)

  function Column(sort: Sort, t: Trade): Option<real> {
    match sort
    case NetPnl => t.netPnl
    case ClosedAt => t.closedAt
  }

  function PlaceOf(r: Request, t: Trade): Place {
    Place(Column(r.sort, t), t.id)
  }

  /** The join and the filters before the keyset condition. */
  predicate Selected(db: Database, r: Request, t: Trade) {
    && t.closed && t.closedAt.Some? && LessThan(Some(0.0), t.exitPrice) == True
    && t.accountId in db.accounts
    && var account := db.accounts[t.accountId];
       && !account.deleted && account.active && account.inAnalytics
       && (r.accountIds.Some? ==> t.accountId in r.accountIds.value)
       && (r.accountType != "" ==> account.kind == r.accountType)
       && (r.start.Some? ==> t.closedAt.value >= r.start.value)
       && (r.end.Some? ==> t.closedAt.value < r.end.value)
  }

  // ---------------------------------------------------------------------------------
  // The order, and the WHERE clause that continues it
  // ---------------------------------------------------------------------------------

  predicate IdBefore(d: Direction, a: int, b: int) {
    if d == Desc then a > b else a < b
  }

  predicate ValueBefore(d: Direction, a: real, b: real) {
    if d == Desc then a > b else a < b
  }

  /** `ORDER BY col dir NULLS LAST, id dir`: `a` comes strictly before `b`. */
  predicate Precedes(d: Direction, a: Place, b: Place) {
    match (a.key, b.key)
    case (Some(x), Some(y)) => ValueBefore(d, x, y) || (x == y && IdBefore(d, a.id, b.id))
    case (Some(_), None) => true
    case (None, Some(_)) => false
    case (None, None) => IdBefore(d, a.id, b.id)
  }

  lemma PrecedesIsStrictTotalOrder(d: Direction)
    ensures forall a :: !Precedes(d, a, a)
    ensures forall a, b, c :: Precedes(d, a, b) && Precedes(d, b, c) ==> Precedes(d, a, c)
    ensures forall a, b :: Precedes(d, a, b) || a == b || Precedes(d, b, a)
  {
  }

  lemma Transitive(d: Direction, a: Place, b: Place, c: Place)
    requires Precedes(d, a, b) && Precedes(d, b, c)
    ensures Precedes(d, a, c) && a != c
  {
  }

  function Compare(d: Direction, col: Option<real>, bound: Option<real>): Truth {
    if d == Desc then LessThan(col, bound) else LessThan(bound, col)
  }

  /** The condition the query adds for a cursor. */
  function KeysetCondition(r: Request, cursor: Place, t: Trade): Truth {
    var col := Column(r.sort, t);
    var idTest := Holds(if r.direction == Desc then t.id < cursor.id else t.id > cursor.id);
    match cursor.key
    case None => Holds(col.None?).And(idTest)
    case Some(_) =>
      Compare(r.direction, col, cursor.key)
        .Or(EqualTo(col, cursor.key).And(idTest))
        .Or(Holds(col.None?))
  }

  /** The WHERE clause selects exactly the rows strictly after the cursor. */
  lemma KeysetSelectsStrictlyAfter(r: Request, cursor: Place, t: Trade)
    ensures KeysetCondition(r, cursor, t) == True <==> Precedes(r.direction, cursor, PlaceOf(r, t))
  {
  }

  /** The rows a fetch may return. */
  ghost predicate Remaining(db: Database, r: Request, cursor: Option<Place>, t: Trade) {
    && t in db.trades && Selected(db, r, t)
    && (cursor.Some? ==> Precedes(r.direction, cursor.value, PlaceOf(r, t)))
  }

  ghost predicate InOrder(r: Request, rows: seq<Trade>) {
    forall i, j :: 0 <= i < j < |rows| ==> Precedes(r.direction, PlaceOf(r, rows[i]), PlaceOf(r, rows[j]))
  }

  // ---------------------------------------------------------------------------------
  // Sorting
  // ---------------------------------------------------------------------------------

  function Insert(r: Request, t: Trade, rows: seq<Trade>): seq<Trade> {
    if rows == [] || Precedes(r.direction, PlaceOf(r, t), PlaceOf(r, rows[0])) then [t] + rows
    else [rows[0]] + Insert(r, t, rows[1..])
  }

  function OrderBy(r: Request, rows: seq<Trade>): seq<Trade> {
    if rows == [] then [] else Insert(r, rows[0], OrderBy(r, rows[1..]))
  }

  lemma {:induction false} InsertSorts(r: Request, t: Trade, rows: seq<Trade>)
    requires InOrder(r, rows) && forall u :: u in rows ==> u.id != t.id
    ensures InOrder(r, Insert(r, t, rows))
    ensures forall u :: u in Insert(r, t, rows) <==> u == t || u in rows
  {
    PrecedesIsStrictTotalOrder(r.direction);
    if rows != [] {
      assert rows == [rows[0]] + rows[1..];
      if !Precedes(r.direction, PlaceOf(r, t), PlaceOf(r, rows[0])) {
        InsertSorts(r, t, rows[1..]);
        var rest := Insert(r, t, rows[1..]);
        forall k | 0 <= k < |rest|
          ensures Precedes(r.direction, PlaceOf(r, rows[0]), PlaceOf(r, rest[k]))
        {
          assert rest[k] in rest;
        }
      }
    }
  }

  lemma {:induction false} OrderBySorts(r: Request, rows: seq<Trade>)
    requires DistinctIds(rows)
    ensures InOrder(r, OrderBy(r, rows))
    ensures forall u :: u in OrderBy(r, rows) <==> u in rows
  {
    if rows != [] {
      OrderBySorts(r, rows[1..]);
      InsertSorts(r, rows[0], OrderBy(r, rows[1..]));
      assert rows == [rows[0]] + rows[1..];
    }
  }

  function Where(db: Database, r: Request, cursor: Option<Place>, rows: seq<Trade>): seq<Trade> {
    if rows == [] then []
    else
      (if Selected(db, r, rows[0]) && (cursor.Some? ==> KeysetCondition(r, cursor.value, rows[0]) == True)
       then [rows[0]] else [])
      + Where(db, r, cursor, rows[1..])
  }

  lemma {:induction false} WhereKeepsRemaining(db: Database, r: Request, cursor: Option<Place>, rows: seq<Trade>)
    requires DistinctIds(rows)
    ensures forall t :: t in Where(db, r, cursor, rows) <==>
              t in rows && Selected(db, r, t) && (cursor.Some? ==> Precedes(r.direction, cursor.value, PlaceOf(r, t)))
    ensures DistinctIds(Where(db, r, cursor, rows))
  {
    hide Selected, Precedes, KeysetCondition;
    if rows != [] {
      WhereKeepsRemaining(db, r, cursor, rows[1..]);
      if cursor.Some? {
        KeysetSelectsStrictlyAfter(r, cursor.value, rows[0]);
      }
      assert rows == [rows[0]] + rows[1..];
      forall t | t in Where(db, r, cursor, rows[1..])
        ensures t.id != rows[0].id
      {
        var j :| 0 <= j < |rows[1..]| && rows[1..][j] == t;
        assert rows[j + 1] == t;
      }
      PrependDistinct(rows[0], Where(db, r, cursor, rows[1..]));
    }
  }

  lemma PrependDistinct(t: Trade, rows: seq<Trade>)
    requires DistinctIds(rows) && forall u :: u in rows ==> u.id != t.id
    ensures DistinctIds([t] + rows) && [] + rows == rows
  {
  }

  // ---------------------------------------------------------------------------------
  // One page
  // ---------------------------------------------------------------------------------

  datatype Page = Page(rows: seq<Trade>, next: Option<Place>, hasMore: bool)

  /** The place a client sends back. `trip` is what becomes of a `net_pnl` value on its way
      through `float`, JSON, `str` and `Decimal`. Instants and ids survive as they are. */
  function Returned(r: Request, trip: real -> real, place: Place): Place {
    if r.sort == NetPnl && place.key.Some? then place.(key := Some(trip(place.key.value))) else place
  }

  /** What a page is for: the first `limit` remaining rows, in order; whether more remain; and
      a cursor for the last row exactly when there is more to come. */
  ghost predicate ExactPage(
    db: Database, r: Request, trip: real -> real, cursor: Option<Place>, limit: nat, page: Page)
  {
    && InOrder(r, page.rows)
    && |page.rows| <= limit
    && (forall t :: t in page.rows ==> Remaining(db, r, cursor, t))
    && (forall t :: Remaining(db, r, cursor, t) && t !in page.rows ==>
          && page.hasMore && |page.rows| == limit
          && forall u :: u in page.rows ==> Precedes(r.direction, PlaceOf(r, u), PlaceOf(r, t)))
    && (page.hasMore ==> exists t :: Remaining(db, r, cursor, t) && t !in page.rows)
    && page.next == (if page.hasMore && page.rows != []
                     then Some(Returned(r, trip, PlaceOf(r, page.rows[|page.rows| - 1]))) else None)
  }

  class TradeStore {
    var db: Database

    constructor (db: Database)
      ensures this.db == db
    {
      this.db := db;
    }

    /** `get_performance_trades_page`: fetch one row too many, then cut. */
    method TradesPage(r: Request, trip: real -> real, cursor: Option<Place>, limit: nat) returns (page: Page)
      requires db.Valid()
      ensures ExactPage(db, r, trip, cursor, limit, page)
    {
      hide Selected, Precedes, Where, OrderBy, ExactPage, Returned;
      var matching := Where(db, r, cursor, db.trades);
      WhereKeepsRemaining(db, r, cursor, db.trades);
      OrderBySorts(r, matching);
      var sorted := OrderBy(r, matching);
      var rows := if |sorted| > limit + 1 then sorted[..limit + 1] else sorted;
      var hasMore := |rows| > limit;
      if |rows| > limit {
        rows := rows[..limit];
      }
      var next := None;
      if hasMore && |rows| > 0 {
        var last := rows[|rows| - 1];
        next := Some(Returned(r, trip, PlaceOf(r, last)));
      }
      page := Page(rows, next, hasMore);
      assert rows == sorted[..Smaller(limit, |sorted|)];
      CutIsExactPage(db, r, trip, cursor, limit, sorted, page);
    }
  }

  lemma CutIsExactPage(
    db: Database, r: Request, trip: real -> real, cursor: Option<Place>, limit: nat, sorted: seq<Trade>, page: Page)
    requires InOrder(r, sorted) && forall t :: Remaining(db, r, cursor, t) <==> t in sorted
    requires page.rows == sorted[..Smaller(limit, |sorted|)] && (page.hasMore <==> limit < |sorted|)
    requires page.next == (if page.hasMore && page.rows != []
                           then Some(Returned(r, trip, PlaceOf(r, page.rows[|page.rows| - 1]))) else None)
    ensures ExactPage(db, r, trip, cursor, limit, page)
  {
    hide Remaining, Precedes, Returned;
    forall t | t in sorted && t !in page.rows
      ensures limit < |sorted|
      ensures forall u :: u in page.rows ==> Precedes(r.direction, PlaceOf(r, u), PlaceOf(r, t))
    {
      CutComesFirst(r, sorted, |page.rows|, t);
    }
    forall u | u in page.rows
      ensures u in sorted
    {
    }
    if limit < |sorted| {
      if sorted[limit] in page.rows {
        var i :| 0 <= i < |page.rows| && page.rows[i] == sorted[limit];
        OrderedRowsDiffer(r, sorted, i, limit);
      }
      assert Remaining(db, r, cursor, sorted[limit]);
    }
  }

  lemma CutComesFirst(r: Request, sorted: seq<Trade>, n: nat, t: Trade)
    requires InOrder(r, sorted) && n <= |sorted| && t in sorted && t !in sorted[..n]
    ensures n < |sorted|
    ensures forall u :: u in sorted[..n] ==> Precedes(r.direction, PlaceOf(r, u), PlaceOf(r, t))
  {
    hide Precedes;
    var j :| 0 <= j < |sorted| && sorted[j] == t;
    assert n <= j by {
      assert forall k :: 0 <= k < n ==> sorted[k] in sorted[..n];
    }
  }

  // ---------------------------------------------------------------------------------
  // Walking the pages
  // ---------------------------------------------------------------------------------

  function CursorAt(pages: seq<Page>, k: nat): Option<Place>
    requires k <= |pages|
  {
    if k == 0 then None else pages[k - 1].next
  }

  ghost predicate SameOrder(rs: seq<Request>) {
    forall k :: 0 <= k < |rs| ==> rs[k].sort == rs[0].sort && rs[k].direction == rs[0].direction
  }

  /** A client follows the cursor while there is more. Page `k` is read from state `dbs[k]` by request
      `rs[k]`; requests keep the order, but not the filters: the time window moves with the clock. */
  ghost predicate Walk(dbs: seq<Database>, rs: seq<Request>, trip: real -> real, limit: nat, pages: seq<Page>) {
    && |dbs| == |rs| == |pages| > 0 && SameOrder(rs)
    && (forall k :: 0 <= k < |pages| ==> ExactPage(dbs[k], rs[k], trip, CursorAt(pages, k), limit, pages[k]))
    && (forall k :: 0 <= k < |pages| - 1 ==> pages[k].hasMore)
  }

  ghost predicate Completed(pages: seq<Page>) {
    pages != [] && !pages[|pages| - 1].hasMore
  }

  ghost predicate Shows(r: Request, page: Page, place: Place) {
    exists t :: t in page.rows && PlaceOf(r, t) == place
  }

  /** The cursor of a page with more to come survives the trip. Under the `closed_at` order, and from
      the NULL tail, it always does. */
  ghost predicate CursorExact(r: Request, trip: real -> real, page: Page) {
    page.hasMore && page.rows != [] ==>
      var last := PlaceOf(r, page.rows[|page.rows| - 1]);
      Returned(r, trip, last) == last
  }

  ghost predicate CursorsExact(r: Request, trip: real -> real, pages: seq<Page>) {
    forall k :: 0 <= k < |pages| ==> CursorExact(r, trip, pages[k])
  }

  /** Every value that can become a cursor survives the trip. */
  ghost predicate TripExactOn(db: Database, r: Request, trip: real -> real) {
    forall t :: t in db.trades ==> Returned(r, trip, PlaceOf(r, t)) == PlaceOf(r, t)
  }

  /** `t` stands after one place and at or before the other. */
  predicate AtOrBetween(d: Direction, a: Place, b: Place, t: Place) {
    (Precedes(d, a, t) && (t == b || Precedes(d, t, b))) || (Precedes(d, b, t) && (t == a || Precedes(d, t, a)))
  }

  /** Whatever the trip did to a cursor, the next fetch continues exactly if and only if no row it could
      select stands at or between the last row's place and the returned one. */
  lemma FetchContinuesExactly(db: Database, r: Request, last: Place, returned: Place)
    ensures (forall t :: Remaining(db, r, Some(last), t) <==> Remaining(db, r, Some(returned), t))
            <==> forall t :: t in db.trades && Selected(db, r, t) ==>
                   !AtOrBetween(r.direction, last, returned, PlaceOf(r, t))
  {
    forall t
      ensures (Remaining(db, r, Some(last), t) <==> Remaining(db, r, Some(returned), t))
              <==> (t in db.trades && Selected(db, r, t) ==>
                      !AtOrBetween(r.direction, last, returned, PlaceOf(r, t)))
    {
      SeparatedRows(r.direction, last, returned, PlaceOf(r, t));
      hide Selected, Precedes, AtOrBetween;
    }
  }

  lemma SeparatedRows(d: Direction, a: Place, b: Place, t: Place)
    ensures AtOrBetween(d, a, b, t) <==> Precedes(d, a, t) != Precedes(d, b, t)
  {
  }

  lemma CursorIsLastRow(db: Database, r: Request, trip: real -> real, cursor: Option<Place>, limit: nat, page: Page)
    requires ExactPage(db, r, trip, cursor, limit, page) && CursorExact(r, trip, page) && limit >= 1 && page.hasMore
    ensures |page.rows| == limit
    ensures page.next == Some(PlaceOf(r, page.rows[limit - 1]))
    ensures cursor.Some? ==> Precedes(r.direction, cursor.value, page.next.value)
  {
    hide Selected, Precedes;
    var t :| Remaining(db, r, cursor, t) && t !in page.rows;
    assert Remaining(db, r, cursor, page.rows[limit - 1]);
  }

  /** The next cursor is not before a place that was shown, or that the old cursor was not before. */
  lemma CursorPassesShown(
    db: Database, r: Request, trip: real -> real, cursor: Option<Place>, limit: nat, page: Page, place: Place)
    requires ExactPage(db, r, trip, cursor, limit, page) && CursorExact(r, trip, page) && limit >= 1 && page.hasMore
    requires Shows(r, page, place) || (cursor.Some? && !Precedes(r.direction, cursor.value, place))
    ensures page.next.Some? && !Precedes(r.direction, page.next.value, place)
  {
    hide Selected, Precedes, Remaining;
    CursorIsLastRow(db, r, trip, cursor, limit, page);
    var last := page.next.value;
    if Precedes(r.direction, last, place) {
      if Shows(r, page, place) {
        var i :| 0 <= i < limit && PlaceOf(r, page.rows[i]) == place;
        Transitive(r.direction, if i < limit - 1 then place else last, last, place);
      } else {
        Transitive(r.direction, cursor.value, last, place);
      }
    }
  }

  /** The next cursor is before a remaining place that was not shown. */
  lemma CursorStaysBeforeUnseen(
    db: Database, r: Request, trip: real -> real, cursor: Option<Place>, limit: nat, page: Page, t: Trade)
    requires ExactPage(db, r, trip, cursor, limit, page) && CursorExact(r, trip, page) && limit >= 1 && page.hasMore
    requires Remaining(db, r, cursor, t) && !Shows(r, page, PlaceOf(r, t))
    ensures page.next.Some? && Precedes(r.direction, page.next.value, PlaceOf(r, t))
  {
    hide Selected, Precedes, Remaining;
    CursorIsLastRow(db, r, trip, cursor, limit, page);
    assert page.rows[limit - 1] in page.rows;
  }

  /** A place shown on page `j` is never after the cursor of a later page. */
  lemma {:induction false} PagesMoveOn(
    dbs: seq<Database>, rs: seq<Request>, trip: real -> real, limit: nat, pages: seq<Page>,
    j: nat, k: nat, place: Place)
    requires Walk(dbs, rs, trip, limit, pages) && CursorsExact(rs[0], trip, pages) && limit >= 1
    requires j < k < |pages| && Shows(rs[j], pages[j], place)
    ensures CursorAt(pages, k).Some? && !Precedes(rs[0].direction, CursorAt(pages, k).value, place)
    decreases k
  {
    hide Precedes, ExactPage, Shows;
    if j < k - 1 {
      PagesMoveOn(dbs, rs, trip, limit, pages, j, k - 1, place);
    }
    CursorPassesShown(dbs[k - 1], rs[k - 1], trip, CursorAt(pages, k - 1), limit, pages[k - 1], place);
  }

  /** Whatever happens to the table between fetches, no place is shown on two pages. */
  lemma NoPlaceShownTwice(
    dbs: seq<Database>, rs: seq<Request>, trip: real -> real, limit: nat, pages: seq<Page>,
    j: nat, k: nat, place: Place)
    requires Walk(dbs, rs, trip, limit, pages) && CursorsExact(rs[0], trip, pages) && limit >= 1
    requires j < k < |pages| && Shows(rs[j], pages[j], place)
    ensures !Shows(rs[k], pages[k], place)
  {
    hide Selected, Precedes;
    PagesMoveOn(dbs, rs, trip, limit, pages, j, k, place);
    assert ExactPage(dbs[k], rs[k], trip, CursorAt(pages, k), limit, pages[k]);
    assert forall t :: t in pages[k].rows ==> Remaining(dbs[k], rs[k], CursorAt(pages, k), t);
  }

  /** A row with this place is in the table and selected. */
  ghost predicate PresentAs(db: Database, r: Request, place: Place) {
    exists t :: t in db.trades && Selected(db, r, t) && PlaceOf(r, t) == place
  }

  /** It is at every fetch. */
  ghost predicate Persists(dbs: seq<Database>, rs: seq<Request>, place: Place)
    requires |dbs| == |rs|
  {
    forall k :: 0 <= k < |dbs| ==> PresentAs(dbs[k], rs[k], place)
  }

  /** Until it is shown, a persisting place stays ahead of the cursor. */
  lemma {:induction false} UnseenStaysAhead(
    dbs: seq<Database>, rs: seq<Request>, trip: real -> real, limit: nat, pages: seq<Page>, k: nat, place: Place)
    requires Walk(dbs, rs, trip, limit, pages) && CursorsExact(rs[0], trip, pages) && limit >= 1
    requires Persists(dbs, rs, place) && k < |pages|
    requires forall j :: 0 <= j < k ==> !Shows(rs[j], pages[j], place)
    ensures CursorAt(pages, k).Some? ==> Precedes(rs[0].direction, CursorAt(pages, k).value, place)
  {
    hide Precedes, ExactPage, Shows, Selected;
    if k > 0 {
      UnseenStaysAhead(dbs, rs, trip, limit, pages, k - 1, place);
      var t :| t in dbs[k - 1].trades && Selected(dbs[k - 1], rs[k - 1], t) && PlaceOf(rs[k - 1], t) == place;
      CursorStaysBeforeUnseen(dbs[k - 1], rs[k - 1], trip, CursorAt(pages, k - 1), limit, pages[k - 1], t);
    }
  }

  /** The walk under arbitrary change: if rows come, go and are re-priced between fetches, a row
      that keeps its place throughout a completed walk is on exactly one page. */
  lemma UnchangedRowShownExactlyOnce(
    dbs: seq<Database>, rs: seq<Request>, trip: real -> real, limit: nat, pages: seq<Page>, place: Place)
    returns (on: nat)
    requires Walk(dbs, rs, trip, limit, pages) && Completed(pages)
    requires CursorsExact(rs[0], trip, pages) && limit >= 1 && Persists(dbs, rs, place)
    ensures on < |pages| && Shows(rs[on], pages[on], place)
    ensures forall k :: 0 <= k < |pages| && k != on ==> !Shows(rs[k], pages[k], place)
  {
    hide Selected, Precedes;
    var last := |pages| - 1;
    if forall j :: 0 <= j < last ==> !Shows(rs[j], pages[j], place) {
      UnseenStaysAhead(dbs, rs, trip, limit, pages, last, place);
      assert ExactPage(dbs[last], rs[last], trip, CursorAt(pages, last), limit, pages[last]);
      var t :| t in dbs[last].trades && Selected(dbs[last], rs[last], t) && PlaceOf(rs[last], t) == place;
      assert Remaining(dbs[last], rs[last], CursorAt(pages, last), t);
      on := last;
    } else {
      on :| 0 <= on < last && Shows(rs[on], pages[on], place);
    }
    forall k | 0 <= k < |pages| && k != on
      ensures !Shows(rs[k], pages[k], place)
    {
      if on < k {
        NoPlaceShownTwice(dbs, rs, trip, limit, pages, on, k, place);
      } else if Shows(rs[k], pages[k], place) {
        NoPlaceShownTwice(dbs, rs, trip, limit, pages, k, on, place);
      }
    }
  }

  // ---------------------------------------------------------------------------------
  // The walk over a table that does not change
  // ---------------------------------------------------------------------------------

  lemma OrderedRowsDiffer(r: Request, rows: seq<Trade>, i: nat, j: nat)
    requires InOrder(r, rows) && i < j < |rows|
    ensures rows[i] != rows[j]
  {
  }

  /** Two ordered lists, the first holding the least rows of the second. */
  lemma {:induction false} SortedPrefix(r: Request, xs: seq<Trade>, ys: seq<Trade>)
    requires InOrder(r, xs) && InOrder(r, ys)
    requires forall x :: x in xs ==> x in ys
    requires forall x, y :: x in xs && y in ys && y !in xs ==> Precedes(r.direction, PlaceOf(r, x), PlaceOf(r, y))
    ensures xs <= ys
  {
    hide Precedes;
    if xs != [] {
      SameHead(r, xs, ys);
      assert xs == [xs[0]] + xs[1..] && ys == [ys[0]] + ys[1..];
      forall i | 1 <= i < |xs|
        ensures xs[i] in ys[1..]
      {
        OrderedRowsDiffer(r, xs, 0, i);
        assert xs[i] in ys;
      }
      forall i | 1 <= i < |ys|
        ensures ys[i] != xs[0]
      {
        OrderedRowsDiffer(r, ys, 0, i);
      }
      SortedPrefix(r, xs[1..], ys[1..]);
    }
  }

  lemma SameHead(r: Request, xs: seq<Trade>, ys: seq<Trade>)
    requires InOrder(r, xs) && InOrder(r, ys) && xs != []
    requires forall x :: x in xs ==> x in ys
    requires forall x, y :: x in xs && y in ys && y !in xs ==> Precedes(r.direction, PlaceOf(r, x), PlaceOf(r, y))
    ensures ys != [] && xs[0] == ys[0]
  {
    hide Precedes;
    assert xs[0] in ys;
    var j :| 0 <= j < |ys| && ys[j] == xs[0];
    if j > 0 {
      var a, b := PlaceOf(r, ys[0]), PlaceOf(r, xs[0]);
      if ys[0] in xs {
        var i :| 0 <= i < |xs| && xs[i] == ys[0];
        if i == 0 {
          OrderedRowsDiffer(r, ys, 0, j);
        }
      }
      Transitive(r.direction, a, b, a);
    }
  }

  function SortedTable(db: Database, r: Request): seq<Trade> {
    OrderBy(r, Where(db, r, None, db.trades))
  }

  lemma AfterIsLaterIndex(r: Request, sorted: seq<Trade>, m: nat, i: nat)
    requires InOrder(r, sorted) && m <= |sorted| && i < |sorted|
    ensures (m == 0 || Precedes(r.direction, PlaceOf(r, sorted[m - 1]), PlaceOf(r, sorted[i])))
            <==> sorted[i] in sorted[m..]
  {
    hide Precedes;
    if i >= m {
      assert sorted[m..][i - m] == sorted[i];
    } else {
      if sorted[i] in sorted[m..] {
        var j :| 0 <= j < |sorted[m..]| && sorted[m..][j] == sorted[i];
        OrderedRowsDiffer(r, sorted, i, m + j);
      }
      var a, b := PlaceOf(r, sorted[m - 1]), PlaceOf(r, sorted[i]);
      if Precedes(r.direction, a, b) {
        Transitive(r.direction, a, b, if i < m - 1 then a else b);
      }
    }
  }

  /** From just after row `m - 1` of the sorted table, a page is the next slice of it. */
  lemma PageIsSlice(db: Database, r: Request, trip: real -> real, limit: nat, m: nat, page: Page)
    requires db.Valid() && m <= |SortedTable(db, r)|
    requires ExactPage(db, r, trip, if m == 0 then None else Some(PlaceOf(r, SortedTable(db, r)[m - 1])), limit, page)
    ensures var sorted := SortedTable(db, r);
            && page.rows == sorted[m..Smaller(m + limit, |sorted|)]
            && (page.hasMore <==> m + limit < |sorted|)
  {
    hide Precedes, Selected, SortedTable, ExactPage;
    var sorted := SortedTable(db, r);
    var cursor := if m == 0 then None else Some(PlaceOf(r, sorted[m - 1]));
    RemainingIsSuffix(db, r, m);
    PageIsPrefix(db, r, trip, cursor, limit, page, sorted[m..]);
    assert sorted[m..][..Smaller(limit, |sorted[m..]|)] == sorted[m..Smaller(m + limit, |sorted|)];
  }

  lemma RemainingIsSuffix(db: Database, r: Request, m: nat)
    requires db.Valid() && m <= |SortedTable(db, r)|
    ensures var sorted := SortedTable(db, r);
            && InOrder(r, sorted[m..])
            && forall t :: Remaining(db, r, if m == 0 then None else Some(PlaceOf(r, sorted[m - 1])), t)
                           <==> t in sorted[m..]
  {
    hide Precedes, Selected, Where, OrderBy;
    WhereKeepsRemaining(db, r, None, db.trades);
    OrderBySorts(r, Where(db, r, None, db.trades));
    var sorted := SortedTable(db, r);
    var cursor := if m == 0 then None else Some(PlaceOf(r, sorted[m - 1]));
    forall t
      ensures Remaining(db, r, cursor, t) <==> t in sorted[m..]
    {
      if t in sorted {
        var i :| 0 <= i < |sorted| && sorted[i] == t;
        AfterIsLaterIndex(r, sorted, m, i);
      }
    }
  }

  /** A page is the head of the remaining rows in order. */
  lemma PageIsPrefix(
    db: Database, r: Request, trip: real -> real, cursor: Option<Place>, limit: nat, page: Page, rest: seq<Trade>)
    requires ExactPage(db, r, trip, cursor, limit, page) && InOrder(r, rest)
    requires forall t :: Remaining(db, r, cursor, t) <==> t in rest
    ensures page.rows == rest[..Smaller(limit, |rest|)]
    ensures page.hasMore <==> limit < |rest|
  {
    hide Precedes, Selected, Remaining;
    SortedPrefix(r, page.rows, rest);
    var n := |page.rows|;
    if n < |rest| {
      if rest[n] in page.rows {
        var i :| 0 <= i < n && page.rows[i] == rest[n];
        OrderedRowsDiffer(r, rest, i, n);
      }
      assert Remaining(db, r, cursor, rest[n]);
    }
  }

  // ---------------------------------------------------------------------------------
  // A page by columns
  // ---------------------------------------------------------------------------------

  /** A row on a page is a row of the table, a closed trade with a closing time and a positive exit
      price, of an account that exists, is not deleted, is active and counts in the analytics; and it
      passes each filter that the request gives. A row of which all that is true, and that comes after
      the cursor, is on the page, or the page is full and every row on it comes first. */
  lemma PageShowsExactly(
    db: Database, r: Request, trip: real -> real, cursor: Option<Place>, limit: nat, page: Page, t: Trade)
    requires ExactPage(db, r, trip, cursor, limit, page)
    ensures var asked :=
              && t in db.trades
              && t.closed && t.closedAt.Some? && t.exitPrice.Some? && t.exitPrice.value > 0.0
              && t.accountId in db.accounts
              && !db.accounts[t.accountId].deleted && db.accounts[t.accountId].active
              && db.accounts[t.accountId].inAnalytics
              && (r.accountIds.None? || t.accountId in r.accountIds.value)
              && (r.accountType == "" || r.accountType == db.accounts[t.accountId].kind)
              && (r.start.None? || r.start.value <= t.closedAt.value)
              && (r.end.None? || t.closedAt.value < r.end.value);
            var after := cursor.None? || Precedes(r.direction, cursor.value, PlaceOf(r, t));
            && (t in page.rows ==> asked && after)
            && (asked && after && t !in page.rows ==>
                  && page.hasMore && |page.rows| == limit
                  && forall u :: u in page.rows ==> Precedes(r.direction, PlaceOf(r, u), PlaceOf(r, t)))
  {
    hide Precedes, InOrder;
    assert t in page.rows ==> Remaining(db, r, cursor, t);
  }

  /** The order of a page: by the sort column in the direction asked for, rows without a value last,
      and by id in the same direction among equals. */
  lemma PageIsInOrder(
    db: Database, r: Request, trip: real -> real, cursor: Option<Place>, limit: nat, page: Page, i: nat, j: nat)
    requires ExactPage(db, r, trip, cursor, limit, page) && i < j < |page.rows|
    ensures var (a, b) := (page.rows[i], page.rows[j]);
            var (x, y) := if r.sort == ClosedAt then (a.closedAt, b.closedAt) else (a.netPnl, b.netPnl);
            && (x.None? ==> y.None?)
            && (x.Some? && y.Some? ==> if r.direction == Asc then x.value <= y.value else x.value >= y.value)
            && (x == y ==> if r.direction == Asc then a.id < b.id else a.id > b.id)
  {
    hide Selected, Remaining;
  }

  /** The cursor of a page: the last row's id and value, an amount as the trip returns it. */
  lemma CursorNamesLastRow(
    db: Database, r: Request, trip: real -> real, cursor: Option<Place>, limit: nat, page: Page)
    requires ExactPage(db, r, trip, cursor, limit, page)
    ensures page.next.Some? <==> page.hasMore && page.rows != []
    ensures page.next.Some? ==>
              var (last, next) := (page.rows[|page.rows| - 1], page.next.value);
              && next.id == last.id
              && (r.sort == ClosedAt ==> next.key == last.closedAt)
              && (r.sort == NetPnl ==> (next.key.Some? <==> last.netPnl.Some?))
              && (r.sort == NetPnl && last.netPnl.Some? ==> next.key == Some(trip(last.netPnl.value)))
  {
    hide Selected, Precedes, Remaining, InOrder;
  }

  // ---------------------------------------------------------------------------------
  // What the filters do to the table
  // ---------------------------------------------------------------------------------

  function Keep(rows: seq<Trade>, p: Trade -> bool): seq<Trade> {
    if rows == [] then [] else (if p(rows[0]) then [rows[0]] else []) + Keep(rows[1..], p)
  }

  lemma {:induction false} KeepKeeps(r: Request, rows: seq<Trade>, p: Trade -> bool)
    requires InOrder(r, rows)
    ensures forall t :: t in Keep(rows, p) <==> t in rows && p(t)
    ensures InOrder(r, Keep(rows, p))
  {
    hide Precedes;
    if rows != [] {
      KeepKeeps(r, rows[1..], p);
      assert rows == [rows[0]] + rows[1..];
      var rest := Keep(rows[1..], p);
      forall k | 0 <= k < |rest|
        ensures Precedes(r.direction, PlaceOf(r, rows[0]), PlaceOf(r, rest[k]))
      {
        assert rest[k] in rows[1..];
      }
    }
  }

  lemma SameRowsSameOrder(r: Request, xs: seq<Trade>, ys: seq<Trade>)
    requires InOrder(r, xs) && InOrder(r, ys) && forall t :: t in xs <==> t in ys
    ensures xs == ys
  {
    hide Precedes;
    SortedPrefix(r, xs, ys);
    SortedPrefix(r, ys, xs);
  }

  lemma SortedTableHolds(db: Database, r: Request)
    requires db.Valid()
    ensures InOrder(r, SortedTable(db, r))
    ensures forall t :: t in SortedTable(db, r) <==> t in db.trades && Selected(db, r, t)
  {
    hide Precedes, Selected, Where, OrderBy;
    WhereKeepsRemaining(db, r, None, db.trades);
    OrderBySorts(r, Where(db, r, None, db.trades));
  }

  /** A request that selects the rows of another one that pass a test, in the same order, is answered
      with those rows of the other's answer. */
  lemma TestedTable(db: Database, all: Request, some: Request, p: Trade -> bool)
    requires db.Valid() && all.sort == some.sort && all.direction == some.direction
    requires forall t :: t in db.trades ==> (Selected(db, some, t) <==> Selected(db, all, t) && p(t))
    ensures SortedTable(db, some) == Keep(SortedTable(db, all), p)
  {
    hide Precedes, Selected, SortedTable, Keep;
    SortedTableHolds(db, all);
    SortedTableHolds(db, some);
    KeepKeeps(all, SortedTable(db, all), p);
    SameOrderForBoth(all, some, SortedTable(db, some));
    SameRowsSameOrder(all, SortedTable(db, some), Keep(SortedTable(db, all), p));
  }

  lemma SameOrderForBoth(r: Request, s: Request, rows: seq<Trade>)
    requires r.sort == s.sort && r.direction == s.direction
    ensures InOrder(r, rows) <==> InOrder(s, rows)
  {
    hide Precedes;
  }

  /** A filter by ids answers with the rows of the unfiltered table whose account is among them, in the
      same order; a filter by type with those whose account has it. */
  lemma AccountFilters(db: Database, r: Request, ids: set<string>, kind: string)
    requires db.Valid()
    ensures SortedTable(db, r.(accountIds := Some(ids)))
            == Keep(SortedTable(db, r.(accountIds := None)), (t: Trade) => t.accountId in ids)
    ensures kind != "" ==>
              SortedTable(db, r.(accountType := kind))
              == Keep(SortedTable(db, r.(accountType := "")),
                      (t: Trade) => t.accountId in db.accounts && db.accounts[t.accountId].kind == kind)
  {
    hide SortedTable, Keep;
    TestedTable(db, r.(accountIds := None), r.(accountIds := Some(ids)), (t: Trade) => t.accountId in ids);
    if kind != "" {
      TestedTable(db, r.(accountType := ""), r.(accountType := kind),
                  (t: Trade) => t.accountId in db.accounts && db.accounts[t.accountId].kind == kind);
    }
  }

  /** A bound of the window answers with the rows closed at or after the start, or before the end. */
  lemma WindowFilters(db: Database, r: Request, bound: real)
    requires db.Valid()
    ensures SortedTable(db, r.(start := Some(bound)))
            == Keep(SortedTable(db, r.(start := None)), (t: Trade) => t.closedAt.Some? && t.closedAt.value >= bound)
    ensures SortedTable(db, r.(end := Some(bound)))
            == Keep(SortedTable(db, r.(end := None)), (t: Trade) => t.closedAt.Some? && t.closedAt.value < bound)
  {
    hide SortedTable, Keep;
    TestedTable(db, r.(start := None), r.(start := Some(bound)),
                (t: Trade) => t.closedAt.Some? && t.closedAt.value >= bound);
    TestedTable(db, r.(end := None), r.(end := Some(bound)),
                (t: Trade) => t.closedAt.Some? && t.closedAt.value < bound);
  }

  function Over(r: Request, start: real, end: real): Request {
    r.(start := Some(start), end := Some(end))
  }

  /** Neighbouring windows split the window they make up: each row of it is in exactly one of them, and
      under the order by closing time the earlier window's rows come first, or last if descending. */
  lemma WindowsSplit(db: Database, r: Request, a: real, b: real, c: real)
    requires db.Valid() && a <= b <= c
    ensures forall t :: t in SortedTable(db, Over(r, a, c))
              <==> (t in SortedTable(db, Over(r, a, b)) <==> t !in SortedTable(db, Over(r, b, c)))
    ensures r.sort == ClosedAt ==>
              var (earlier, later) := (SortedTable(db, Over(r, a, b)), SortedTable(db, Over(r, b, c)));
              SortedTable(db, Over(r, a, c)) == if r.direction == Asc then earlier + later else later + earlier
  {
    hide Precedes, SortedTable, InOrder;
    var (earlier, later) := (Over(r, a, b), Over(r, b, c));
    SortedTableHolds(db, Over(r, a, c));
    SortedTableHolds(db, earlier);
    SortedTableHolds(db, later);
    SameOrderForBoth(Over(r, a, c), earlier, SortedTable(db, earlier));
    SameOrderForBoth(Over(r, a, c), later, SortedTable(db, later));
    if r.sort == ClosedAt {
      var (xs, ys) := if r.direction == Asc then (SortedTable(db, earlier), SortedTable(db, later))
                      else (SortedTable(db, later), SortedTable(db, earlier));
      JoinInOrder(Over(r, a, c), xs, ys);
      SameRowsSameOrder(Over(r, a, c), SortedTable(db, Over(r, a, c)), xs + ys);
    }
  }

  lemma JoinInOrder(r: Request, xs: seq<Trade>, ys: seq<Trade>)
    requires InOrder(r, xs) && InOrder(r, ys) && r.sort == ClosedAt
    requires forall x, y :: x in xs && y in ys ==>
               && x.closedAt.Some? && y.closedAt.Some?
               && if r.direction == Asc then x.closedAt.value < y.closedAt.value
                  else x.closedAt.value > y.closedAt.value
    ensures InOrder(r, xs + ys)
  {
  }

  function Concat(pages: seq<Page>): seq<Trade> {
    if pages == [] then [] else Concat(pages[..|pages| - 1]) + pages[|pages| - 1].rows
  }

  ghost function Repeat<T>(x: T, n: nat): seq<T> {
    seq(n, i => x)
  }

  /** `n * limit`, one page at a time. */
  function Reach(n: nat, limit: nat): nat {
    if n == 0 then 0 else Reach(n - 1, limit) + limit
  }

  lemma {:induction false} ReachIsProduct(n: nat, limit: nat)
    ensures Reach(n, limit) == n * limit
  {
    if n > 0 {
      ReachIsProduct(n - 1, limit);
      assert n * limit == (n - 1) * limit + limit;
    }
  }

  /** A walk over one table with one request. */
  ghost predicate StillWalk(db: Database, r: Request, trip: real -> real, limit: nat, pages: seq<Page>) {
    Walk(Repeat(db, |pages|), Repeat(r, |pages|), trip, limit, pages)
  }

  lemma StillPage(db: Database, r: Request, trip: real -> real, limit: nat, pages: seq<Page>, k: nat)
    requires StillWalk(db, r, trip, limit, pages) && k < |pages|
    ensures ExactPage(db, r, trip, CursorAt(pages, k), limit, pages[k])
    ensures k + 1 < |pages| ==> pages[k].hasMore
  {
    hide ExactPage;
    assert ExactPage(Repeat(db, |pages|)[k], Repeat(r, |pages|)[k], trip, CursorAt(pages, k), limit, pages[k]);
  }

  lemma StillWalkHasPages(db: Database, r: Request, trip: real -> real, limit: nat, pages: seq<Page>)
    requires StillWalk(db, r, trip, limit, pages)
    ensures pages != []
  {
    hide ExactPage;
  }

  lemma WalkPrefix(db: Database, r: Request, trip: real -> real, limit: nat, pages: seq<Page>)
    requires StillWalk(db, r, trip, limit, pages) && |pages| > 1
    ensures StillWalk(db, r, trip, limit, pages[..|pages| - 1])
    ensures pages[|pages| - 2].hasMore
  {
    hide ExactPage;
    var n := |pages| - 1;
    forall k | 0 <= k < n
      ensures ExactPage(Repeat(db, n)[k], Repeat(r, n)[k], trip, CursorAt(pages[..n], k), limit, pages[..n][k])
      ensures k < n - 1 ==> pages[..n][k].hasMore
    {
      StillPage(db, r, trip, limit, pages, k);
    }
    StillPage(db, r, trip, limit, pages, n - 1);
  }

  /** On a fixed table the pages read so far are the sorted table so far, and there is more
      exactly while rows are left. */
  lemma {:induction false} FixedWalk(db: Database, r: Request, trip: real -> real, limit: nat, pages: seq<Page>)
    requires db.Valid() && limit >= 1 && CursorsExact(r, trip, pages)
    requires StillWalk(db, r, trip, limit, pages)
    ensures var (sorted, reach) := (SortedTable(db, r), Reach(|pages|, limit));
            && Concat(pages) == sorted[..Smaller(reach, |sorted|)]
            && (pages[|pages| - 1].hasMore <==> reach < |sorted|)
    decreases |pages|
  {
    hide ExactPage, SortedTable, StillWalk;
    StillWalkHasPages(db, r, trip, limit, pages);
    var n, sorted := |pages| - 1, SortedTable(db, r);
    var m := Reach(n, limit);
    StillPage(db, r, trip, limit, pages, n);
    if n > 0 {
      WalkPrefix(db, r, trip, limit, pages);
      FixedWalk(db, r, trip, limit, pages[..n]);
      FixedCursor(db, r, trip, limit, pages, sorted, m);
    } else {
      assert pages[..0] == [];
    }
    PageIsSlice(db, r, trip, limit, m, pages[n]);
    assert sorted[..m] + sorted[m..Smaller(m + limit, |sorted|)] == sorted[..Smaller(m + limit, |sorted|)];
  }

  lemma LastCursor(db: Database, r: Request, trip: real -> real, limit: nat, pages: seq<Page>)
    requires limit >= 1 && CursorsExact(r, trip, pages) && |pages| > 1
    requires StillWalk(db, r, trip, limit, pages)
    ensures var before := pages[|pages| - 2];
            |before.rows| == limit && CursorAt(pages, |pages| - 1) == Some(PlaceOf(r, before.rows[limit - 1]))
  {
    hide ExactPage, Precedes, PlaceOf, StillWalk;
    var k := |pages| - 2;
    StillPage(db, r, trip, limit, pages, k);
    CursorIsLastRow(db, r, trip, CursorAt(pages, k), limit, pages[k]);
  }

  /** The cursor of the last page is the last row read before it. */
  lemma FixedCursor(
    db: Database, r: Request, trip: real -> real, limit: nat, pages: seq<Page>, sorted: seq<Trade>, m: nat)
    requires limit >= 1 && CursorsExact(r, trip, pages) && |pages| > 1
    requires StillWalk(db, r, trip, limit, pages)
    requires m <= |sorted| && Concat(pages[..|pages| - 1]) == sorted[..m]
    ensures 0 < m && CursorAt(pages, |pages| - 1) == Some(PlaceOf(r, sorted[m - 1]))
  {
    hide StillWalk, CursorAt, PlaceOf;
    LastCursor(db, r, trip, limit, pages);
    ConcatEndsWithLastRow(pages[..|pages| - 1], limit);
    assert sorted[m - 1] == sorted[..m][m - 1];
  }

  lemma ConcatEndsWithLastRow(pages: seq<Page>, limit: nat)
    requires pages != [] && limit >= 1 && |pages[|pages| - 1].rows| == limit
    ensures Concat(pages) != [] && Concat(pages)[|Concat(pages)| - 1] == pages[|pages| - 1].rows[limit - 1]
  {
  }

  /** On a fixed table the walk stops after the least number of pages that can hold the rows, and
      a completed walk has read exactly the filtered table in order. */
  lemma FixedWalkReadsSortedTable(db: Database, r: Request, trip: real -> real, limit: nat, pages: seq<Page>)
    requires db.Valid() && limit >= 1 && CursorsExact(r, trip, pages)
    requires StillWalk(db, r, trip, limit, pages)
    ensures Completed(pages) <==> |pages| * limit >= |SortedTable(db, r)|
    ensures Completed(pages) ==> Concat(pages) == SortedTable(db, r)
    ensures |pages| > 1 ==> (|pages| - 1) * limit < |SortedTable(db, r)|
  {
    hide SortedTable, StillWalk, Concat, Reach;
    StillWalkHasPages(db, r, trip, limit, pages);
    FixedWalk(db, r, trip, limit, pages);
    ReachIsProduct(|pages|, limit);
    if |pages| > 1 {
      WalkPrefix(db, r, trip, limit, pages);
      FixedWalk(db, r, trip, limit, pages[..|pages| - 1]);
      ReachIsProduct(|pages| - 1, limit);
    }
  }

  /** Every fetch has an answer. */
  lemma PageExists(db: Database, r: Request, trip: real -> real, cursor: Option<Place>, limit: nat) returns (page: Page)
    requires db.Valid()
    ensures ExactPage(db, r, trip, cursor, limit, page)
  {
    hide Selected, Precedes, Where, OrderBy, ExactPage, Returned;
    WhereKeepsRemaining(db, r, cursor, db.trades);
    OrderBySorts(r, Where(db, r, cursor, db.trades));
    var sorted := OrderBy(r, Where(db, r, cursor, db.trades));
    var rows := sorted[..Smaller(limit, |sorted|)];
    var next := if limit < |sorted| && rows != [] then Some(Returned(r, trip, PlaceOf(r, rows[|rows| - 1]))) else None;
    page := Page(rows, next, limit < |sorted|);
    CutIsExactPage(db, r, trip, cursor, limit, sorted, page);
  }

  /** A walk that is not completed goes on, whatever the table has become. */
  lemma WalkGoesOn(
    dbs: seq<Database>, rs: seq<Request>, trip: real -> real, limit: nat, pages: seq<Page>, db: Database, r: Request)
    returns (page: Page)
    requires Walk(dbs, rs, trip, limit, pages) && !Completed(pages) && db.Valid()
    requires r.sort == rs[0].sort && r.direction == rs[0].direction
    ensures Walk(dbs + [db], rs + [r], trip, limit, pages + [page])
  {
    hide ExactPage, CursorAt;
    page := PageExists(db, r, trip, CursorAt(pages, |pages|), limit);
    var longer := pages + [page];
    forall k | 0 <= k < |longer|
      ensures ExactPage((dbs + [db])[k], (rs + [r])[k], trip, CursorAt(longer, k), limit, longer[k])
    {
      SameCursor(pages, page, k);
    }
  }

  lemma SameCursor(pages: seq<Page>, page: Page, k: nat)
    requires k <= |pages|
    ensures CursorAt(pages + [page], k) == CursorAt(pages, k)
  {
  }

  lemma StillWalkGoesOn(db: Database, r: Request, trip: real -> real, limit: nat, pages: seq<Page>) returns (page: Page)
    requires StillWalk(db, r, trip, limit, pages) && !Completed(pages) && db.Valid()
    ensures StillWalk(db, r, trip, limit, pages + [page])
  {
    hide ExactPage;
    StillWalkHasPages(db, r, trip, limit, pages);
    page := WalkGoesOn(Repeat(db, |pages|), Repeat(r, |pages|), trip, limit, pages, db, r);
    assert Repeat(db, |pages|) + [db] == Repeat(db, |pages| + 1);
    assert Repeat(r, |pages|) + [r] == Repeat(r, |pages| + 1);
  }

  lemma RowsMakeExactCursors(db: Database, r: Request, trip: real -> real, limit: nat, pages: seq<Page>)
    requires StillWalk(db, r, trip, limit, pages) && TripExactOn(db, r, trip)
    ensures CursorsExact(r, trip, pages)
  {
    hide StillWalk, Returned, Selected, Precedes;
    forall k | 0 <= k < |pages|
      ensures CursorExact(r, trip, pages[k])
    {
      StillPage(db, r, trip, limit, pages, k);
      if pages[k].rows != [] {
        var last := pages[k].rows[|pages[k].rows| - 1];
        assert last in pages[k].rows;
        assert Remaining(db, r, CursorAt(pages, k), last);
      }
    }
  }

  /** On a fixed table every walk can be completed, and the completed walk reads the sorted table. */
  lemma FixedWalkEnds(db: Database, r: Request, trip: real -> real, limit: nat) returns (pages: seq<Page>)
    requires db.Valid() && limit >= 1 && TripExactOn(db, r, trip)
    ensures StillWalk(db, r, trip, limit, pages) && Completed(pages)
    ensures Concat(pages) == SortedTable(db, r)
  {
    var first := PageExists(db, r, trip, None, limit);
    pages := [first];
    FirstPageIsWalk(db, r, trip, limit, first);
    hide ExactPage, SortedTable, Concat, StillWalk, TripExactOn, CursorsExact, Reach;
    while pages[|pages| - 1].hasMore
      invariant pages != [] && StillWalk(db, r, trip, limit, pages)
      decreases |SortedTable(db, r)| - Reach(|pages|, limit)
    {
      RowsMakeExactCursors(db, r, trip, limit, pages);
      FixedWalk(db, r, trip, limit, pages);
      ReachGrows(|pages|, limit);
      var page := StillWalkGoesOn(db, r, trip, limit, pages);
      pages := pages + [page];
    }
    RowsMakeExactCursors(db, r, trip, limit, pages);
    FixedWalkReadsSortedTable(db, r, trip, limit, pages);
  }

  lemma FirstPageIsWalk(db: Database, r: Request, trip: real -> real, limit: nat, page: Page)
    requires ExactPage(db, r, trip, None, limit, page)
    ensures StillWalk(db, r, trip, limit, [page])
  {
    hide ExactPage;
  }

  lemma ReachGrows(n: nat, limit: nat)
    requires limit >= 1
    ensures Reach(n + 1, limit) > Reach(n, limit)
  {
  }

  // ---------------------------------------------------------------------------------
  // Why the trip must be exact
  // ---------------------------------------------------------------------------------

  /** If some value does not survive the trip, there is a two-row table whose one-row pages
      skip a row or repeat one. */
  lemma InexactTripBreaksWalk(trip: real -> real, v: real, account: string)
    returns (db: Database, r: Request, first: Page, second: Page)
    requires trip(v) != v
    ensures db.Valid() && StillWalk(db, r, trip, 1, [first, second])
    ensures |SortedTable(db, r)| == 2 && first.rows == [SortedTable(db, r)[0]]
    ensures second.rows == first.rows || (second.rows == [] && Completed([first, second]))
  {
    hide Where, OrderBy, SortedTable, Selected;
    var a := Trade(1, account, true, Some(1.0), Some(0.0), Some(v));
    var b := Trade(0, account, true, Some(1.0), Some(0.0), Some(v));
    db, r := TwoRows(account, a, b);
    var back := Place(Some(trip(v)), 1);
    first := Page([a], Some(back), true);
    second := if trip(v) < v then Page([], None, false) else Page([a], Some(back), true);
    hide ExactPage, Precedes;
    FirstOfTwo(db, r, trip, a, b);
    SecondOfTwo(db, r, trip, a, b);
    StillWalkOfTwo(db, r, trip, first, second);
  }

  ghost predicate TwoEqualRows(db: Database, r: Request, a: Trade, b: Trade) {
    && r.sort == NetPnl && r.direction == Desc && a.id == 1 && b.id == 0 && a.netPnl.Some? && a.netPnl == b.netPnl
    && (forall t :: t in db.trades <==> t == a || t == b) && Selected(db, r, a) && Selected(db, r, b)
  }

  lemma FirstOfTwo(db: Database, r: Request, trip: real -> real, a: Trade, b: Trade)
    requires TwoEqualRows(db, r, a, b)
    ensures ExactPage(db, r, trip, None, 1, Page([a], Some(Place(Some(trip(a.netPnl.value)), 1)), true))
  {
    hide Selected;
    assert Remaining(db, r, None, a) && Remaining(db, r, None, b) && b !in [a];
  }

  lemma SecondOfTwo(db: Database, r: Request, trip: real -> real, a: Trade, b: Trade)
    requires TwoEqualRows(db, r, a, b) && trip(a.netPnl.value) != a.netPnl.value
    ensures var (v, back) := (a.netPnl.value, Place(Some(trip(a.netPnl.value)), 1));
            && (trip(v) < v ==> ExactPage(db, r, trip, Some(back), 1, Page([], None, false)))
            && (trip(v) > v ==> ExactPage(db, r, trip, Some(back), 1, Page([a], Some(back), true)))
  {
    hide Selected;
    var (v, back) := (a.netPnl.value, Place(Some(trip(a.netPnl.value)), 1));
    if trip(v) > v {
      assert Remaining(db, r, Some(back), a) && Remaining(db, r, Some(back), b) && b !in [a];
    }
  }

  lemma StillWalkOfTwo(db: Database, r: Request, trip: real -> real, first: Page, second: Page)
    requires ExactPage(db, r, trip, None, 1, first) && first.hasMore
    requires ExactPage(db, r, trip, first.next, 1, second)
    ensures StillWalk(db, r, trip, 1, [first, second])
  {
    hide ExactPage;
  }

  /** The table of two trades of one account, under the descending amount order. */
  lemma TwoRows(account: string, a: Trade, b: Trade) returns (db: Database, r: Request)
    requires a == Trade(1, account, true, Some(1.0), Some(0.0), a.netPnl) && a.netPnl.Some?
    requires b == Trade(0, account, true, Some(1.0), Some(0.0), a.netPnl)
    ensures db.Valid() && r.sort == NetPnl && r.direction == Desc && SortedTable(db, r) == [a, b]
    ensures forall t :: t in db.trades <==> t == a || t == b
    ensures Selected(db, r, a) && Selected(db, r, b)
  {
    db := Database([a, b], map[account := Account(false, true, true, "")]);
    r := Request(None, "", None, None, NetPnl, Desc);
    assert db.trades[0] == a && db.trades[1] == b;
    assert db.trades[1..] == [b] && db.trades[1..][1..] == [];
    assert Where(db, r, None, [b]) == [b] by { assert [b][1..] == []; }
    assert Where(db, r, None, db.trades) == [a, b];
    assert OrderBy(r, [b]) == [b] by { assert [b][1..] == []; }
    assert [a, b][1..] == [b];
  }
}
