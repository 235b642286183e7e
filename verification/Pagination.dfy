/** app/core/pagination.py: keyset pagination on a (key, tiebreaker) pair with an opaque cursor.  The
    JSON layer is a pair of functions, dump and load; the theorems say what its round trip is needed for. */
module Pagination {
  import opened Tables
  import opened Base64Url

  datatype Row = Row(key: int, id: nat)

  /** ORDER BY key, id in the direction asked for. */
  predicate Before(a: Row, b: Row, descending: bool) {
    if descending then b.key < a.key || (b.key == a.key && b.id < a.id)
    else a.key < b.key || (a.key == b.key && a.id < b.id)
  }

  lemma {:induction false} HasFirst(rows: set<Row>, descending: bool)
    requires rows != {}
    ensures exists r <- rows :: forall s <- rows :: s == r || Before(r, s, descending)
  {
    var x :| x in rows;
    if rows == {x} {
      assert forall s <- rows :: s == x;
    } else {
      HasFirst(rows - {x}, descending);
      var m :| m in rows - {x} && forall s <- rows - {x} :: s == m || Before(m, s, descending);
      var first := if Before(x, m, descending) then x else m;
      forall s <- rows
        ensures s == first || Before(first, s, descending)
      {
        assert s == x || s in rows - {x};
      }
      assert first in rows;
    }
  }

  function First(rows: set<Row>, descending: bool): (r: Row)
    requires rows != {}
    ensures r in rows && forall s <- rows :: s == r || Before(r, s, descending)
  {
    HasFirst(rows, descending);
    var r :| r in rows && forall s <- rows :: s == r || Before(r, s, descending);
    r
  }

  function Ordered(rows: set<Row>, descending: bool): (r: seq<Row>)
    ensures |r| == |rows|
    ensures forall s: Row :: s in r <==> s in rows
  {
    if rows == {} then []
    else
      var first := First(rows, descending);
      [first] + Ordered(rows - {first}, descending)
  }

  // The service

  datatype PageResult = Page(rows: seq<Row>, next: Option<string>) | InvalidCursor

  /** WHERE (key, id) is strictly beyond the cursor's. */
  function Beyond(table: set<Row>, last: Row, descending: bool): set<Row> {
    set r <- table | Before(last, r, descending)
  }

  function Trimmed(rows: seq<Row>, limit: nat, encode: Row -> string): PageResult
    requires limit >= 1
  {
    if |rows| > limit then Page(rows[..limit], Some(encode(rows[limit - 1]))) else Page(rows, None)
  }

  function EncodeCursor(dump: Row -> seq<Byte>): Row -> string {
    r => EncodeUnpadded(dump(r))
  }

  function DecodeCursor(cursor: string, load: seq<Byte> -> Option<Row>): Option<Row> {
    match DecodeUnpadded(cursor)
    case BadInput => None
    case Decoded(bytes) => load(bytes)
  }

  /** An empty cursor is no cursor. */
  function PageAt(table: set<Row>, cursor: Option<string>, limit: nat, descending: bool,
                  dump: Row -> seq<Byte>, load: seq<Byte> -> Option<Row>): PageResult
    requires limit >= 1
  {
    if cursor.None? || cursor.value == "" then Trimmed(Ordered(table, descending), limit, EncodeCursor(dump))
    else match DecodeCursor(cursor.value, load)
      case None => InvalidCursor
      case Some(last) => Trimmed(Ordered(Beyond(table, last, descending), descending), limit, EncodeCursor(dump))
  }

  /** A page of the rows of from: its first rows in order, as many as the limit allows, and a cursor made
      from the last of them if and only if there are more. */
  ghost predicate IsPage(r: PageResult, from: set<Row>, limit: nat, descending: bool, encode: Row -> string)
    requires limit >= 1
  {
    && r.Page?
    && |r.rows| == (if |from| <= limit then |from| else limit)
    && (forall j, k | 0 <= j < k < |r.rows| :: Before(r.rows[j], r.rows[k], descending))
    && (forall row <- r.rows :: row in from)
    && (forall row <- r.rows, other <- from | other !in r.rows :: Before(row, other, descending))
    && (r.next.Some? <==> |from| > limit)
    && (r.next.Some? ==> r.next.value == encode(r.rows[|r.rows| - 1]))
  }

  lemma PageComesFirst(order: seq<Row>, n: nat, row: Row, other: Row, descending: bool)
    requires n <= |order| && row in order[..n] && other in order && other !in order[..n]
    requires forall j, k | 0 <= j < k < |order| :: Before(order[j], order[k], descending)
    ensures Before(row, other, descending)
  {
    var j :| 0 <= j < n && order[..n][j] == row;
    var k :| 0 <= k < |order| && order[k] == other;
    assert forall m | 0 <= m < n :: order[..n][m] == order[m] && order[..n][m] in order[..n];
  }

  lemma TrimmedIsPage(from: set<Row>, limit: nat, descending: bool, encode: Row -> string)
    requires limit >= 1
    ensures IsPage(Trimmed(Ordered(from, descending), limit, encode), from, limit, descending, encode)
  {
    var order := Ordered(from, descending);
    forall j, k | 0 <= j < k < |order|
      ensures Before(order[j], order[k], descending)
    {
      OrderIsStrict(from, descending, j, k);
    }
    CutIsPage(from, order, limit, descending, encode);
  }

  lemma CutIsPage(from: set<Row>, order: seq<Row>, limit: nat, descending: bool, encode: Row -> string)
    requires limit >= 1 && |order| == |from|
    requires forall j, k | 0 <= j < k < |order| :: Before(order[j], order[k], descending)
    requires forall row: Row :: row in order <==> row in from
    ensures IsPage(Trimmed(order, limit, encode), from, limit, descending, encode)
  {
    var n := if |order| <= limit then |order| else limit;
    assert Trimmed(order, limit, encode).rows == order[..n];
    PrefixIsPage(from, order, n, descending);
  }

  lemma PrefixIsPage(from: set<Row>, order: seq<Row>, n: nat, descending: bool)
    requires n <= |order| && forall j, k | 0 <= j < k < |order| :: Before(order[j], order[k], descending)
    requires forall row: Row :: row in order <==> row in from
    ensures forall row <- order[..n] :: row in from
    ensures forall row <- order[..n], other <- from | other !in order[..n] :: Before(row, other, descending)
  {
    forall row <- order[..n]
      ensures row in from
    {
      assert row in order;
    }
    forall row <- order[..n], other <- from | other !in order[..n]
      ensures Before(row, other, descending)
    {
      PageComesFirst(order, n, row, other, descending);
    }
  }

  /** Fetches one row more than the page needs, to see whether there is a next page. */
  method FetchPage(ordered: seq<Row>, limit: nat, encode: Row -> string) returns (r: PageResult)
    requires limit >= 1
    ensures r == Trimmed(ordered, limit, encode)
  {
    var rows := ordered[..if limit + 1 <= |ordered| then limit + 1 else |ordered|];
    if |rows| > limit {
      rows := rows[..limit];
      var last := rows[|rows| - 1];
      return Page(rows, Some(encode(last)));
    }
    return Page(rows, None);
  }

  /** The rows strictly beyond the cursor; all of them without one. */
  function Reachable(table: set<Row>, cursor: Option<string>, descending: bool,
                     load: seq<Byte> -> Option<Row>): set<Row> {
    if cursor.None? || cursor.value == "" || DecodeCursor(cursor.value, load) == None then table
    else Beyond(table, DecodeCursor(cursor.value, load).value, descending)
  }

  method PaginateCursor(table: set<Row>, cursor: Option<string>, limit: nat, descending: bool,
                        dump: Row -> seq<Byte>, load: seq<Byte> -> Option<Row>) returns (r: PageResult)
    requires limit >= 1
    ensures r == InvalidCursor <==> cursor.Some? && cursor.value != "" && DecodeCursor(cursor.value, load) == None
    ensures r.Page? ==> IsPage(r, Reachable(table, cursor, descending, load), limit, descending, EncodeCursor(dump))
    ensures r == PageAt(table, cursor, limit, descending, dump, load)
  {
    var base := table;
    if cursor.Some? && cursor.value != "" {
      var decoded := DecodeCursor(cursor.value, load);
      if decoded.None? {
        return InvalidCursor;
      }
      base := Beyond(base, decoded.value, descending);
    }
    TrimmedIsPage(base, limit, descending, EncodeCursor(dump));
    r := FetchPage(Ordered(base, descending), limit, EncodeCursor(dump));
  }

  // Following the cursor

  /** Starting at cursor and following next_cursor, a client of pageAt sees rows, in so many pages. */
  ghost predicate Reads(pageAt: Option<string> -> PageResult, cursor: Option<string>, rows: seq<Row>, pages: nat)
    decreases pages
  {
    pages > 0 &&
    match pageAt(cursor)
    case InvalidCursor => false
    case Page(page, None) => pages == 1 && rows == page
    case Page(page, Some(next)) => page <= rows && Reads(pageAt, Some(next), rows[|page|..], pages - 1)
  }

  function PagesFor(n: nat, limit: nat): nat
    requires limit >= 1
  {
    if n <= limit then 1 else 1 + PagesFor(n - limit, limit)
  }

  lemma BeyondFirst(rows: set<Row>, descending: bool)
    requires rows != {}
    ensures Beyond(rows, First(rows, descending), descending) == rows - {First(rows, descending)}
  {
    var first := First(rows, descending);
    forall r: Row
      ensures r in Beyond(rows, first, descending) <==> r in rows - {first}
    {
    }
  }

  lemma BeyondLater(rows: set<Row>, descending: bool, r: Row)
    requires r in rows && r != First(rows, descending)
    ensures Beyond(rows, r, descending) == Beyond(rows - {First(rows, descending)}, r, descending)
  {
    var first := First(rows, descending);
    assert Before(first, r, descending);
    forall s: Row
      ensures s in Beyond(rows, r, descending) <==> s in Beyond(rows - {first}, r, descending)
    {
    }
  }

  lemma RestOfOrder(rows: set<Row>, descending: bool, k: nat)
    requires 0 < k < |rows|
    ensures var rest := rows - {First(rows, descending)};
            && k - 1 < |rest|
            && Ordered(rows, descending)[k] == Ordered(rest, descending)[k - 1]
            && Ordered(rows, descending)[k + 1..] == Ordered(rest, descending)[k..]
  {
  }

  /** What is beyond the k-th row of the order is the rest of the order. */
  lemma {:induction false} BeyondIsTheRest(rows: set<Row>, descending: bool, k: nat)
    requires k < |rows|
    ensures Ordered(Beyond(rows, Ordered(rows, descending)[k], descending), descending)
            == Ordered(rows, descending)[k + 1..]
    decreases k
  {
    if k == 0 {
      BeyondFirst(rows, descending);
    } else {
      var rest := rows - {First(rows, descending)};
      RestOfOrder(rows, descending, k);
      var r := Ordered(rest, descending)[k - 1];
      assert r in Ordered(rest, descending);
      BeyondLater(rows, descending, r);
      BeyondIsTheRest(rest, descending, k - 1);
    }
  }

  /** What the JSON layer makes of a row either comes back as that row or is not a cursor of the table at
      all.  The layer gives an integer or a string back, but a datetime comes back as text, which is no
      value of its column. */
  ghost predicate Honest(table: set<Row>, dump: Row -> seq<Byte>, load: seq<Byte> -> Option<Row>) {
    forall r <- table :: |dump(r)| > 0 && (load(dump(r)) == Some(r) || load(dump(r)) == None)
  }

  predicate ComesBack(r: Row, dump: Row -> seq<Byte>, load: seq<Byte> -> Option<Row>) {
    load(dump(r)) == Some(r)
  }

  /** A cursor made from row r is not the empty string, and decodes to what load makes of r. */
  lemma CursorDecodes(r: Row, dump: Row -> seq<Byte>, load: seq<Byte> -> Option<Row>)
    requires |dump(r)| > 0
    ensures EncodeUnpadded(dump(r)) != ""
    ensures DecodeCursor(EncodeUnpadded(dump(r)), load) == load(dump(r))
  {
    EncodedText(dump(r));
    DecodesWhatItEncodes(dump(r));
  }

  /** pageAt answers the cursor of each row that comes back with what follows the row, and no other. */
  ghost predicate Resumes(pageAt: Option<string> -> PageResult, order: seq<Row>, limit: nat, encode: Row -> string,
                          good: Row -> bool)
    requires limit >= 1
  {
    forall k | 0 <= k < |order| ::
      pageAt(Some(encode(order[k]))) == if good(order[k]) then Trimmed(order[k + 1..], limit, encode) else InvalidCursor
  }

  /** The last row of every full page that is not the last page comes back. */
  predicate PageEndsComeBack(order: seq<Row>, limit: nat, good: Row -> bool)
    requires limit >= 1
    decreases |order|
  {
    |order| <= limit || (good(order[limit - 1]) && PageEndsComeBack(order[limit..], limit, good))
  }

  lemma ReadsLast(pageAt: Option<string> -> PageResult, cursor: Option<string>, page: seq<Row>, rows: seq<Row>,
                  pages: nat)
    requires pageAt(cursor) == Page(page, None)
    ensures Reads(pageAt, cursor, rows, pages) <==> rows == page && pages == 1
  {
  }

  lemma ReadsOn(pageAt: Option<string> -> PageResult, cursor: Option<string>, page: seq<Row>, next: string,
                rows: seq<Row>, pages: nat)
    requires pageAt(cursor) == Page(page, Some(next))
    ensures Reads(pageAt, cursor, rows, pages)
       <==> pages > 0 && page <= rows && Reads(pageAt, Some(next), rows[|page|..], pages - 1)
  {
  }

  lemma SplitsAt(order: seq<Row>, rows: seq<Row>, limit: nat)
    requires limit <= |order|
    ensures rows == order <==> order[..limit] <= rows && rows[limit..] == order[limit..]
  {
    if order[..limit] <= rows && rows[limit..] == order[limit..] {
      assert rows == rows[..limit] + rows[limit..];
      assert order == order[..limit] + order[limit..];
    }
  }

  lemma RestResumes(pageAt: Option<string> -> PageResult, order: seq<Row>, limit: nat, encode: Row -> string,
                    good: Row -> bool)
    requires 1 <= limit <= |order| && Resumes(pageAt, order, limit, encode, good)
    ensures Resumes(pageAt, order[limit..], limit, encode, good)
  {
    var rest := order[limit..];
    forall k | 0 <= k < |rest|
      ensures pageAt(Some(encode(rest[k]))) ==
              if good(rest[k]) then Trimmed(rest[k + 1..], limit, encode) else InvalidCursor
    {
      assert rest[k] == order[limit + k] && rest[k + 1..] == order[limit + k + 1..];
    }
  }

  /** Page by page, from any point of the order: the rows read are the rest of it. */
  lemma {:induction false} ReadsTheRest(pageAt: Option<string> -> PageResult, order: seq<Row>, limit: nat,
                                        encode: Row -> string, good: Row -> bool,
                                        cursor: Option<string>, rows: seq<Row>, pages: nat)
    requires limit >= 1 && Resumes(pageAt, order, limit, encode, good)
    requires pageAt(cursor) == Trimmed(order, limit, encode)
    ensures Reads(pageAt, cursor, rows, pages)
       <==> PageEndsComeBack(order, limit, good) && rows == order && pages == PagesFor(|order|, limit)
    decreases |order|
  {
    if |order| <= limit {
      ReadsLast(pageAt, cursor, order, rows, pages);
    } else {
      var last, rest := order[limit - 1], order[limit..];
      ReadsOn(pageAt, cursor, order[..limit], encode(last), rows, pages);
      SplitsAt(order, rows, limit);
      if pages > 0 && order[..limit] <= rows && good(last) {
        RestResumes(pageAt, order, limit, encode, good);
        ReadsTheRest(pageAt, rest, limit, encode, good, Some(encode(last)), rows[limit..], pages - 1);
      }
    }
  }

  lemma ServiceResumes(table: set<Row>, limit: nat, descending: bool, dump: Row -> seq<Byte>,
                       load: seq<Byte> -> Option<Row>)
    requires limit >= 1 && Honest(table, dump, load)
    ensures Resumes(c => PageAt(table, c, limit, descending, dump, load), Ordered(table, descending), limit,
                    EncodeCursor(dump), r => ComesBack(r, dump, load))
  {
    forall k | 0 <= k < |table|
      ensures PageAt(table, Some(EncodeCursor(dump)(Ordered(table, descending)[k])), limit, descending, dump, load) ==
              if ComesBack(Ordered(table, descending)[k], dump, load)
              then Trimmed(Ordered(table, descending)[k + 1..], limit, EncodeCursor(dump)) else InvalidCursor
    {
      ResumesAfter(table, limit, descending, dump, load, k);
    }
  }

  lemma ResumesAfter(table: set<Row>, limit: nat, descending: bool, dump: Row -> seq<Byte>,
                     load: seq<Byte> -> Option<Row>, k: nat)
    requires limit >= 1 && Honest(table, dump, load) && k < |table|
    ensures PageAt(table, Some(EncodeCursor(dump)(Ordered(table, descending)[k])), limit, descending, dump, load) ==
            if ComesBack(Ordered(table, descending)[k], dump, load)
            then Trimmed(Ordered(table, descending)[k + 1..], limit, EncodeCursor(dump)) else InvalidCursor
  {
    var last := Ordered(table, descending)[k];
    assert last in Ordered(table, descending);
    CursorDecodes(last, dump, load);
    BeyondIsTheRest(table, descending, k);
    PageAfter(table, EncodeCursor(dump)(last), limit, descending, dump, load);
  }

  lemma PageAfter(table: set<Row>, cursor: string, limit: nat, descending: bool,
                  dump: Row -> seq<Byte>, load: seq<Byte> -> Option<Row>)
    requires limit >= 1 && cursor != ""
    ensures PageAt(table, Some(cursor), limit, descending, dump, load) ==
            match DecodeCursor(cursor, load)
            case None => InvalidCursor
            case Some(last) => Trimmed(Ordered(Beyond(table, last, descending), descending), limit, EncodeCursor(dump))
  {
  }

  /** The endpoint as its clients see it: from a cursor to a page. */
  ghost function Service(table: set<Row>, limit: nat, descending: bool, dump: Row -> seq<Byte>,
                         load: seq<Byte> -> Option<Row>): Option<string> -> PageResult
    requires limit >= 1
  {
    c => PageAt(table, c, limit, descending, dump, load)
  }

  /** Following next_cursor from the start ends if and only if the cursors on the way come back, and then
      it reads every row of the table exactly once, in order, in ceil(n / limit) pages (one, if there are no
      rows): in both directions and for every limit. */
  lemma FollowingReadsEverythingOnce(table: set<Row>, limit: nat, descending: bool, dump: Row -> seq<Byte>,
                                     load: seq<Byte> -> Option<Row>, rows: seq<Row>, pages: nat)
    requires limit >= 1 && Honest(table, dump, load)
    ensures Reads(Service(table, limit, descending, dump, load), None, rows, pages)
       <==> && PageEndsComeBack(Ordered(table, descending), limit, r => ComesBack(r, dump, load))
            && rows == Ordered(table, descending) && pages == PagesFor(|table|, limit)
  {
    var pageAt := Service(table, limit, descending, dump, load);
    ServiceResumes(table, limit, descending, dump, load);
    ReadsTheRest(pageAt, Ordered(table, descending), limit, EncodeCursor(dump), r => ComesBack(r, dump, load), None,
                 rows, pages);
  }

  lemma {:induction false} AllPageEndsComeBack(order: seq<Row>, limit: nat, good: Row -> bool)
    requires limit >= 1
    ensures (forall r <- order :: good(r)) ==> PageEndsComeBack(order, limit, good)
    ensures |order| > limit && (forall r <- order :: !good(r)) ==> !PageEndsComeBack(order, limit, good)
    decreases |order|
  {
    if |order| > limit {
      assert order[limit - 1] in order;
      if forall r <- order :: good(r) {
        AllPageEndsComeBack(order[limit..], limit, good);
      }
    }
  }

  /** So keys that come back enumerate every table, and keys that do not, datetimes among them, only a table
      that fits one page. */
  lemma KeysThatComeBack(table: set<Row>, limit: nat, descending: bool,
                         dump: Row -> seq<Byte>, load: seq<Byte> -> Option<Row>)
    requires limit >= 1 && Honest(table, dump, load)
    ensures var service := Service(table, limit, descending, dump, load);
            (forall r <- table :: ComesBack(r, dump, load)) ==>
              Reads(service, None, Ordered(table, descending), PagesFor(|table|, limit))
    ensures var service := Service(table, limit, descending, dump, load);
            (forall r <- table :: !ComesBack(r, dump, load)) && |table| > limit ==>
              forall rows, pages :: !Reads(service, None, rows, pages)
  {
    var good := r => ComesBack(r, dump, load);
    var service := Service(table, limit, descending, dump, load);
    var order := Ordered(table, descending);
    AllPageEndsComeBack(order, limit, good);
    FollowingReadsEverythingOnce(table, limit, descending, dump, load, order, PagesFor(|table|, limit));
    forall rows, pages
      ensures Reads(service, None, rows, pages) ==> PageEndsComeBack(order, limit, r => ComesBack(r, dump, load))
    {
      FollowingReadsEverythingOnce(table, limit, descending, dump, load, rows, pages);
    }
  }

  lemma {:induction false} OrderIsStrict(rows: set<Row>, descending: bool, j: nat, k: nat)
    requires j < k < |rows|
    ensures Before(Ordered(rows, descending)[j], Ordered(rows, descending)[k], descending)
    decreases j
  {
    var first := First(rows, descending);
    var rest := Ordered(rows - {first}, descending);
    if j == 0 {
      assert rest[k - 1] in rows - {first};
    } else {
      OrderIsStrict(rows - {first}, descending, j - 1, k - 1);
    }
  }

  lemma {:induction false} PagesForIsCeiling(n: nat, limit: nat)
    requires limit >= 1
    ensures n <= PagesFor(n, limit) * limit
    ensures n > 0 ==> (PagesFor(n, limit) - 1) * limit < n
    decreases n
  {
    if n > limit {
      PagesForIsCeiling(n - limit, limit);
      var p := PagesFor(n - limit, limit);
      assert (p + 1) * limit == p * limit + limit;
      assert p * limit == (p - 1) * limit + limit;
    }
  }
}
