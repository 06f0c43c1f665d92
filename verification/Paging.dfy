/** Keyset pagination of the history and spin lists (internal/api/game.go). */
module Paging {
  import opened Basics
  import opened Decimal

  /** A listed row: the query orders and cuts by id only. */
  datatype Item<T> = Item(id: nat, row: T)

  predicate Ascending<T>(rows: seq<Item<T>>) {
    forall i, j | 0 <= i < j < |rows| :: rows[i].id < rows[j].id
  }

  /******* Query parameters *******/

  function ClampLimit(raw: string, def: int, max: int): (n: int)
    ensures 0 < def <= max ==> 0 < n <= max
    ensures forall k: int | k > 0 && ParseInt64(raw) == Some(k) :: n <= k && n <= max && (n == k || n == max)
    ensures (forall k: int | k > 0 :: ParseInt64(raw) != Some(k)) ==> n == def
  {
    if raw == "" then def
    else match ParseInt64(raw)
      case None => def
      case Some(n) => if n <= 0 then def else if n > max then max else n
  }

  function ParseCursor(raw: string): (c: Option<nat>)
    ensures forall k: nat :: c == Some(k) <==> k > 0 && ParseInt64(raw) == Some(k)
  {
    if raw == "" then None
    else match ParseInt64(raw)
      case None => None
      case Some(n) => if n <= 0 then None else Some(n)
  }

  /** A limit the client asks for is granted up to the maximum. */
  lemma LimitRoundTrip(k: nat, def: int, max: int)
    requires 0 < k <= MAX_INT64
    ensures ClampLimit(ToString(k), def, max) == if k <= max then k else max
  {
    ParseOfText(k);
  }

  /** A cursor handed to the client comes back as itself. */
  lemma CursorRoundTrip(id: nat)
    requires 0 < id <= MAX_INT64
    ensures ParseCursor(ToString(id)) == Some(id)
  {
    ParseOfText(id);
  }

  /******* One page *******/

  /** The rows below the cursor, oldest first: WHERE id < cursor. */
  function Below<T>(rows: seq<Item<T>>, cursor: Option<nat>): seq<Item<T>> {
    if rows == [] then [] else
      var last := rows[|rows| - 1];
      Below(rows[..|rows| - 1], cursor) + if cursor == None || last.id < cursor.value then [last] else []
  }

  /** The `limit` last of them, newest first: ORDER BY id DESC LIMIT limit. */
  function Newest<T>(rows: seq<Item<T>>, limit: nat): (page: seq<Item<T>>)
    ensures |page| == if |rows| < limit then |rows| else limit
  {
    if rows == [] || limit == 0 then [] else [rows[|rows| - 1]] + Newest(rows[..|rows| - 1], limit - 1)
  }

  function Query<T>(rows: seq<Item<T>>, cursor: Option<nat>, limit: nat): seq<Item<T>> {
    Newest(Below(rows, cursor), limit)
  }

  function Reverse<T>(rows: seq<T>): (r: seq<T>)
    ensures |r| == |rows|
    ensures forall i | 0 <= i < |rows| :: r[i] == rows[|rows| - 1 - i]
  {
    if rows == [] then [] else [rows[|rows| - 1]] + Reverse(rows[..|rows| - 1])
  }

  predicate IsBelow<T>(i: Item<T>, cursor: Option<nat>) {
    cursor.Some? ==> i.id < cursor.value
  }

  /** What a page is: rows below the cursor, newest first, none of them skipped in favour of an older one, and all of them
      if the page is not full. */
  ghost predicate IsPage<T>(rows: seq<Item<T>>, cursor: Option<nat>, limit: nat, page: seq<Item<T>>) {
    && |page| <= limit
    && (forall i | i in page :: i in rows && IsBelow(i, cursor))
    && (forall i, j | 0 <= i < j < |page| :: page[i].id > page[j].id)
    && (forall i, p | i in rows && IsBelow(i, cursor) && i !in page && p in page :: i.id < p.id)
    && (|page| < limit ==> forall i | i in rows && IsBelow(i, cursor) :: i in page)
  }

  /** A handler's answer: the rows scanned one by one, and a cursor when the page came out full. With no cursor there is
      nothing left below; with one, what is left is exactly what lies below it. */
  method List<T>(rows: seq<Item<T>>, cursor: Option<nat>, limit: nat) returns (items: seq<Item<T>>, next: Option<nat>)
    requires limit > 0 && Ascending(rows)
    ensures IsPage(rows, cursor, limit, items) && items == Query(rows, cursor, limit)
    ensures next == None <==> |items| < limit
    ensures next == None ==> forall i | i in rows && IsBelow(i, cursor) :: i in items
    ensures next.Some? ==> forall i | i in rows :: IsBelow(i, next) <==> IsBelow(i, cursor) && i !in items
  {
    var result := Query(rows, cursor, limit);
    QueryIsPage(rows, cursor, limit);
    items := [];
    for i := 0 to |result|
      invariant items == result[..i]
    {
      items := items + [result[i]];
    }
    next := None;
    if |items| == limit && |items| > 0 {
      next := Some(items[|items| - 1].id);
      LeftBelow(rows, cursor, limit, items);
    }
  }

  lemma QueryIsPage<T>(rows: seq<Item<T>>, cursor: Option<nat>, limit: nat)
    requires Ascending(rows)
    ensures IsPage(rows, cursor, limit, Query(rows, cursor, limit))
  {
    PageBelow(rows, cursor);
    BelowAscends(rows, cursor);
    NewestFirst(Below(rows, cursor), limit);
    hide Below, Newest, Ascending;
    PageOfBelow(rows, cursor, limit, Below(rows, cursor), Query(rows, cursor, limit));
  }

  /** The same without a cursor. */
  ghost predicate Newer<T>(rows: seq<Item<T>>, limit: nat, page: seq<Item<T>>) {
    && |page| <= limit
    && (forall i | i in page :: i in rows)
    && (forall i, j | 0 <= i < j < |page| :: page[i].id > page[j].id)
    && (forall i, p | i in rows && i !in page && p in page :: i.id < p.id)
    && (|page| < limit ==> forall i | i in rows :: i in page)
  }

  lemma PageOfBelow<T>(rows: seq<Item<T>>, cursor: Option<nat>, limit: nat, below: seq<Item<T>>, page: seq<Item<T>>)
    requires Newer(below, limit, page)
    requires forall i | i in below :: i in rows && IsBelow(i, cursor)
    requires forall i | i in rows && IsBelow(i, cursor) :: i in below
    ensures IsPage(rows, cursor, limit, page)
  {
  }

  lemma {:induction false} NewestFirst<T>(rows: seq<Item<T>>, limit: nat)
    requires Ascending(rows)
    ensures Newer(rows, limit, Newest(rows, limit))
  {
    if rows != [] && limit > 0 {
      LastIsLargest(rows);
      NewestFirst(rows[..|rows| - 1], limit - 1);
      OneNewer(rows[..|rows| - 1], rows[|rows| - 1], limit, Newest(rows[..|rows| - 1], limit - 1));
      assert rows == rows[..|rows| - 1] + [rows[|rows| - 1]];
    }
  }

  lemma LastIsLargest<T>(rows: seq<Item<T>>)
    requires Ascending(rows) && rows != []
    ensures Ascending(rows[..|rows| - 1])
    ensures forall i | i in rows[..|rows| - 1] :: i.id < rows[|rows| - 1].id
  {
  }

  lemma OneNewer<T>(rest: seq<Item<T>>, last: Item<T>, limit: nat, page: seq<Item<T>>)
    requires limit > 0 && Newer(rest, limit - 1, page) && forall i | i in rest :: i.id < last.id
    ensures Newer(rest + [last], limit, [last] + page)
  {
    var full := [last] + page;
    forall i, j | 0 <= i < j < |full| ensures full[i].id > full[j].id {
      assert full[j] == page[j - 1] && page[j - 1] in page;
      assert i > 0 ==> full[i] == page[i - 1];
    }
  }

  /** Below the last id of a full page lies what the page left out. */
  lemma LeftBelow<T>(rows: seq<Item<T>>, cursor: Option<nat>, limit: nat, page: seq<Item<T>>)
    requires IsPage(rows, cursor, limit, page) && page != []
    ensures forall i | i in rows :: i.id < page[|page| - 1].id <==> IsBelow(i, cursor) && i !in page
  {
    var last := page[|page| - 1];
    assert last in page;
    forall i | i in rows ensures i.id < last.id <==> IsBelow(i, cursor) && i !in page {
      if i in page {
        var k :| 0 <= k < |page| && page[k] == i;
        assert k < |page| - 1 ==> page[k].id > last.id;
      }
    }
  }

  function NextCursor<T>(page: seq<Item<T>>, limit: nat): Option<nat> {
    if |page| == limit && |page| > 0 then Some(page[|page| - 1].id) else None
  }

  /** With the first k rows below the cursor and the others not, the query sees those k. */
  lemma {:induction false} BelowIsFilter<T>(rows: seq<Item<T>>, cursor: Option<nat>, k: nat)
    requires k <= |rows| && (cursor == None ==> k == |rows|)
    requires cursor.Some? ==> forall i | 0 <= i < |rows| :: rows[i].id < cursor.value <==> i < k
    ensures Below(rows, cursor) == rows[..k]
  {
    if rows != [] {
      var shorter := rows[..|rows| - 1];
      if k == |rows| {
        BelowIsFilter(shorter, cursor, k - 1);
        assert rows[..k] == rows == shorter + [rows[k - 1]];
      } else {
        BelowIsFilter(shorter, cursor, k);
        assert shorter[..k] == rows[..k];
      }
    }
  }

  /** The newest rows are the reverse of the tail they were cut from. */
  lemma {:induction false} NewestIsTail<T>(rows: seq<Item<T>>, limit: nat)
    requires limit <= |rows|
    ensures Newest(rows, limit) == Reverse(rows[|rows| - limit..])
  {
    if limit > 0 {
      NewestIsTail(rows[..|rows| - 1], limit - 1);
      var tail := rows[|rows| - limit..];
      assert tail[..|tail| - 1] == rows[..|rows| - 1][|rows| - limit..];
    }
  }

  lemma {:induction false} AllOfThem<T>(rows: seq<Item<T>>, limit: nat)
    requires |rows| <= limit
    ensures Newest(rows, limit) == Reverse(rows)
  {
    if rows != [] {
      AllOfThem(rows[..|rows| - 1], limit - 1);
    }
  }

  lemma {:induction false} ReverseConcat<T>(a: seq<T>, b: seq<T>)
    ensures Reverse(a + b) == Reverse(b) + Reverse(a)
  {
    if b == [] {
      assert a + b == a;
    } else {
      assert (a + b)[..|a + b| - 1] == a + b[..|b| - 1];
      ReverseConcat(a, b[..|b| - 1]);
    }
  }

  /******* Following the cursor while rows are committed *******/

  /** Later views only add rows, all with larger ids. */
  ghost predicate Extends<T>(before: seq<Item<T>>, after: seq<Item<T>>) {
    Ascending(after) && before <= after
  }

  /** What the n-th request sees extends what the first one saw. */
  ghost predicate Views<T>(view: nat -> seq<Item<T>>) {
    Ascending(view(0)) && forall n: nat :: Extends(view(0), view(n))
  }

  ghost function Bound<T>(view: nat -> seq<Item<T>>, n: nat, cursor: Option<nat>): nat {
    if cursor.Some? then cursor.value
    else if view(n) == [] then 0 else view(n)[|view(n)| - 1].id + 1
  }

  /** The filter keeps exactly the rows below the cursor, in order. */
  lemma {:induction false} PageBelow<T>(rows: seq<Item<T>>, cursor: Option<nat>)
    ensures forall i | i in Below(rows, cursor) :: i in rows && IsBelow(i, cursor)
    ensures forall i | i in rows && IsBelow(i, cursor) :: i in Below(rows, cursor)
  {
    if rows != [] {
      var rest, last := rows[..|rows| - 1], rows[|rows| - 1];
      PageBelow(rest, cursor);
      assert rows == rest + [last];
    }
  }

  lemma {:induction false} BelowAscends<T>(rows: seq<Item<T>>, cursor: Option<nat>)
    requires Ascending(rows)
    ensures Ascending(Below(rows, cursor))
  {
    if rows != [] {
      var rest := rows[..|rows| - 1];
      LastIsLargest(rows);
      BelowAscends(rest, cursor);
      PageBelow(rest, cursor);
      AscendOn(Below(rest, cursor), rows[|rows| - 1]);
    }
  }

  lemma AscendOn<T>(rows: seq<Item<T>>, last: Item<T>)
    requires Ascending(rows) && forall i | i in rows :: i.id < last.id
    ensures Ascending(rows + [last])
  {
    forall i, j | 0 <= i < j < |rows + [last]| ensures (rows + [last])[i].id < (rows + [last])[j].id {
      assert (rows + [last])[i] in rows;
    }
  }

  lemma {:induction false} NewestInside<T>(rows: seq<Item<T>>, limit: nat)
    ensures forall i | i in Newest(rows, limit) :: i in rows
  {
    if rows != [] && limit > 0 {
      NewestInside(rows[..|rows| - 1], limit - 1);
    }
  }

  lemma CursorFalls<T>(view: nat -> seq<Item<T>>, n: nat, cursor: Option<nat>, limit: nat)
    requires Ascending(view(n)) && NextCursor(Query(view(n), cursor, limit), limit).Some?
    ensures NextCursor(Query(view(n), cursor, limit), limit).value < Bound(view, n, cursor)
  {
    var page := Query(view(n), cursor, limit);
    var last := page[|page| - 1];
    NewestInside(Below(view(n), cursor), limit);
    PageBelow(view(n), cursor);
    assert last in page;
    assert last in Below(view(n), cursor);
    var j :| 0 <= j < |view(n)| && view(n)[j] == last;
  }

  /** All the rows a client collects that starts at `cursor` and follows next_cursor until it is absent. */
  ghost function Walk<T>(view: nat -> seq<Item<T>>, n: nat, cursor: Option<nat>, limit: nat): seq<Item<T>>
    requires limit > 0 && forall k: nat :: Ascending(view(k))
    decreases Bound(view, n, cursor)
  {
    var page := Query(view(n), cursor, limit);
    var next := NextCursor(page, limit);
    if next == None then page else
      CursorFalls(view, n, cursor, limit);
      page + Walk(view, n + 1, next, limit)
  }

  /** One request: a short page ends the walk, a full one continues it from the last row's id. */
  lemma WalkStep<T>(view: nat -> seq<Item<T>>, n: nat, cursor: Option<nat>, limit: nat, rows: seq<Item<T>>)
    requires limit > 0 && forall k: nat :: Ascending(view(k))
    requires Below(view(n), cursor) == rows
    ensures |rows| < limit ==> Walk(view, n, cursor, limit) == Reverse(rows)
    ensures |rows| >= limit ==>
              Walk(view, n, cursor, limit) ==
              Newest(rows, limit) + Walk(view, n + 1, Some(rows[|rows| - limit].id), limit)
  {
    hide Below, Reverse;
    if |rows| < limit {
      AllOfThem(rows, limit);
    } else {
      FullPage(rows, limit);
      CursorFalls(view, n, cursor, limit);
    }
  }

  /** From a cursor standing at position k of the first view, the walk returns exactly the k rows before it. */
  lemma {:induction false} WalkFrom<T>(
    view: nat -> seq<Item<T>>, n: nat, cursor: Option<nat>, limit: nat, first: seq<Item<T>>, k: nat)
    requires limit > 0 && k <= |first| && first == view(0)
    requires forall m: nat :: Ascending(view(m))
    requires forall m: nat :: Extends(first, view(m))
    requires cursor == None ==> n == 0 && k == |first|
    requires cursor.Some? ==> k < |first| && cursor.value == first[k].id
    ensures Walk(view, n, cursor, limit) == Reverse(first[..k])
    decreases k
  {
    hide Walk, Newest, Reverse, Below;
    PageAt(first, view(n), cursor, k);
    var rows := first[..k];
    WalkStep(view, n, cursor, limit, rows);
    if k >= limit {
      FullPage(rows, limit);
      WalkFrom(view, n + 1, Some(rows[k - limit].id), limit, first, k - limit);
      assert rows[..k - limit] == first[..k - limit];
    }
  }

  /** A full page, and what is left after it. */
  lemma FullPage<T>(rows: seq<Item<T>>, limit: nat)
    requires 0 < limit <= |rows|
    ensures Newest(rows, limit)[limit - 1] == rows[|rows| - limit]
    ensures Reverse(rows) == Newest(rows, limit) + Reverse(rows[..|rows| - limit])
  {
    var rest := |rows| - limit;
    NewestIsTail(rows, limit);
    assert rows == rows[..rest] + rows[rest..];
    ReverseConcat(rows[..rest], rows[rest..]);
  }

  lemma PageAt<T>(first: seq<Item<T>>, now: seq<Item<T>>, cursor: Option<nat>, k: nat)
    requires Extends(first, now) && k <= |first|
    requires cursor == None ==> now == first && k == |first|
    requires cursor.Some? ==> k < |first| && cursor.value == first[k].id
    ensures Below(now, cursor) == first[..k]
  {
    if cursor.Some? {
      assert now[k] == first[k];
      forall i | 0 <= i < |now| ensures now[i].id < cursor.value <==> i < k {
        assert i < k ==> now[i].id < now[k].id;
        assert k < i ==> now[k].id < now[i].id;
      }
    }
    BelowIsFilter(now, cursor, k);
    assert now[..k] == first[..k];
  }

  /** Following next_cursor to the end returns exactly the rows present at the first request, each once, newest
      first, whatever is committed between the pages. */
  lemma WalkIsComplete<T>(view: nat -> seq<Item<T>>, limit: nat)
    requires limit > 0 && Views(view)
    ensures Walk(view, 0, None, limit) == Reverse(view(0))
  {
    WalkFrom(view, 0, None, limit, view(0), |view(0)|);
    assert view(0)[..|view(0)|] == view(0);
  }

  /******* The cursor as text *******/

  ghost predicate Printable<T>(rows: seq<Item<T>>) {
    forall i | i in rows :: 0 < i.id <= MAX_INT64
  }

  /** The walk as the client makes it: next_cursor is printed, sent back and parsed. */
  ghost function WalkText<T>(view: nat -> seq<Item<T>>, n: nat, raw: string, limit: nat): seq<Item<T>>
    requires limit > 0 && forall k: nat :: Ascending(view(k)) && Printable(view(k))
    decreases Bound(view, n, ParseCursor(raw))
  {
    var page := Query(view(n), ParseCursor(raw), limit);
    var next := NextCursor(page, limit);
    if next == None then page else
      CursorFalls(view, n, ParseCursor(raw), limit);
      CursorPrinted(view(n), ParseCursor(raw), limit);
      page + WalkText(view, n + 1, ToString(next.value), limit)
  }

  lemma CursorPrinted<T>(rows: seq<Item<T>>, cursor: Option<nat>, limit: nat)
    requires Printable(rows) && NextCursor(Query(rows, cursor, limit), limit).Some?
    ensures var next := NextCursor(Query(rows, cursor, limit), limit);
            ParseCursor(ToString(next.value)) == next
  {
    var page := Query(rows, cursor, limit);
    NewestInside(Below(rows, cursor), limit);
    PageBelow(rows, cursor);
    assert page[|page| - 1] in page;
    CursorRoundTrip(page[|page| - 1].id);
  }

  lemma {:induction false} WalkTextSame<T>(view: nat -> seq<Item<T>>, n: nat, raw: string, limit: nat)
    requires limit > 0 && forall k: nat :: Ascending(view(k)) && Printable(view(k))
    ensures WalkText(view, n, raw, limit) == Walk(view, n, ParseCursor(raw), limit)
    decreases Bound(view, n, ParseCursor(raw))
  {
    var cursor := ParseCursor(raw);
    var next := NextCursor(Query(view(n), cursor, limit), limit);
    if next.Some? {
      CursorFalls(view, n, cursor, limit);
      CursorPrinted(view(n), cursor, limit);
      WalkTextSame(view, n + 1, ToString(next.value), limit);
    }
  }

  /** With ids that a bigserial can hand out, the printed and parsed cursors lose nothing: starting without one, the client
      collects exactly the rows of its first request, each once, newest first. */
  lemma TextWalkIsComplete<T>(view: nat -> seq<Item<T>>, limit: nat)
    requires limit > 0 && Views(view) && forall k: nat :: Printable(view(k))
    ensures (forall k: nat :: Ascending(view(k))) && WalkText(view, 0, "", limit) == Reverse(view(0))
  {
    forall k: nat ensures Ascending(view(k)) {
      assert Extends(view(0), view(k));
    }
    hide Walk, WalkText, Reverse, Views;
    assert ParseCursor("") == None;
    WalkIsComplete(view, limit);
    WalkTextSame(view, 0, "", limit);
  }
}
