/** Paging through the recycle bin by keyset cursor, one fetch loop per page. */
module RecycleBinPaging {
  import opened Common
  import opened Metadata
  import opened BinGroups
  import opened RecycleBinGrouping

  // --------------------------------------------------------------- the query

  /** Strictly after the cursor in (deleted_at DESC, id DESC). */
  predicate Beyond(c: Cursor, r: Row) {
    r.bin.deletedAt < c.deletedAt || (r.bin.deletedAt == c.deletedAt && r.id < c.id)
  }

  predicate InOrder(table: seq<Row>, i: int, j: int) { 0 <= i < j < |table| ==> Beyond(CursorOf(table[i]), table[j]) }

  ghost predicate Sorted(table: seq<Row>) { forall i, j {:trigger InOrder(table, i, j)} :: InOrder(table, i, j) }

  predicate Selects(bucket: string, cursor: Option<Cursor>, r: Row) {
    (bucket == "" || r.bin.key.bucket == bucket) && (cursor.None? || Beyond(cursor.value, r))
  }

  /** Every row the query selects, in listing order. */
  function Matching(table: seq<Row>, bucket: string, cursor: Option<Cursor>): seq<Row> {
    if table == [] then []
    else (if Selects(bucket, cursor, table[0]) then [table[0]] else []) + Matching(table[1..], bucket, cursor)
  }

  function Fetch(table: seq<Row>, bucket: string, cursor: Option<Cursor>, limit: nat): seq<Row> {
    var rows := Matching(table, bucket, cursor);
    if |rows| <= limit then rows else rows[..limit]
  }

  lemma SortedTail(table: seq<Row>)
    requires Sorted(table) && table != []
    ensures Sorted(table[1..]) && forall r :: r in table[1..] ==> Beyond(CursorOf(table[0]), r)
  {
    forall r | r in table[1..] ensures Beyond(CursorOf(table[0]), r) {
      var i :| 0 <= i < |table[1..]| && table[1..][i] == r;
      assert InOrder(table, 0, i + 1);
    }
    forall i, j ensures InOrder(table[1..], i, j) { assert InOrder(table, i + 1, j + 1); }
  }

  lemma {:induction false} MatchingIn(table: seq<Row>, bucket: string, cursor: Option<Cursor>)
    ensures forall r :: r in Matching(table, bucket, cursor) ==> r in table && Selects(bucket, cursor, r)
  {
    if table != [] { MatchingIn(table[1..], bucket, cursor); }
  }

  lemma {:induction false} SameMatching(table: seq<Row>, bucket: string, a: Option<Cursor>, b: Option<Cursor>)
    requires forall r :: r in table ==> (Selects(bucket, a, r) <==> Selects(bucket, b, r))
    ensures Matching(table, bucket, a) == Matching(table, bucket, b)
  {
    if table != [] {
      assert table[0] in table;
      SameMatching(table[1..], bucket, a, b);
    }
  }

  lemma FirstMatch(table: seq<Row>, bucket: string, cursor: Option<Cursor>)
    requires Sorted(table) && table != [] && Selects(bucket, cursor, table[0])
    ensures Matching(table, bucket, cursor) == [table[0]] + Matching(table[1..], bucket, cursor)
    ensures Matching(table, bucket, Some(CursorOf(table[0]))) == Matching(table[1..], bucket, cursor)
  {
    SortedTail(table);
    var c := Some(CursorOf(table[0]));
    forall x | x in table[1..] ensures Selects(bucket, cursor, x) <==> Selects(bucket, c, x) {}
    SameMatching(table[1..], bucket, cursor, c);
  }

  /** A cursor of a later row does not select the first. */
  lemma NotFirst(table: seq<Row>, bucket: string, x: Row)
    requires Sorted(table) && table != [] && x in table[1..]
    ensures Matching(table, bucket, Some(CursorOf(x))) == Matching(table[1..], bucket, Some(CursorOf(x)))
  {
    SortedTail(table);
  }

  lemma SkipFirst(table: seq<Row>, bucket: string, cursor: Option<Cursor>)
    requires table != [] && !Selects(bucket, cursor, table[0])
    ensures Matching(table, bucket, cursor) == Matching(table[1..], bucket, cursor)
  {
  }

  /** Row x of the selection is followed by exactly what its own cursor selects. */
  ghost predicate Follows(table: seq<Row>, bucket: string, x: Row, rest: seq<Row>) {
    Matching(table, bucket, Some(CursorOf(x))) == rest
  }

  lemma {:induction false} EachFollows(table: seq<Row>, bucket: string, cursor: Option<Cursor>, rows: seq<Row>, i: nat)
    requires Sorted(table) && rows == Matching(table, bucket, cursor) && i < |rows|
    ensures rows[i] in table && Follows(table, bucket, rows[i], rows[i + 1..])
    decreases |table|
  {
    var tail := table[1..];
    var later := Matching(tail, bucket, cursor);
    assert Sorted(tail) by { SortedTail(table); }
    if Selects(bucket, cursor, table[0]) {
      FirstMatch(table, bucket, cursor);
      if i > 0 {
        EachFollows(tail, bucket, cursor, later, i - 1);
        NotFirst(table, bucket, rows[i]);
        assert later[i - 1 + 1..] == rows[i + 1..];
      }
    } else {
      SkipFirst(table, bucket, cursor);
      EachFollows(tail, bucket, cursor, later, i);
      NotFirst(table, bucket, rows[i]);
    }
  }

  /** Asking again from the cursor of a row gives the rows after it. */
  lemma MatchingFrom(table: seq<Row>, bucket: string, cursor: Option<Cursor>, i: nat)
    requires Sorted(table) && i < |Matching(table, bucket, cursor)|
    ensures Matching(table, bucket, Some(CursorOf(Matching(table, bucket, cursor)[i]))) == Matching(table, bucket, cursor)[i + 1..]
  {
    EachFollows(table, bucket, cursor, Matching(table, bucket, cursor), i);
  }

  // ------------------------------------------------------- from rows to items

  predicate OneTime(rows: seq<Row>, i: int, j: int) {
    0 <= i < j < |rows| && GroupAt(rows[i]) == GroupAt(rows[j]) ==> rows[i].bin.deletedAt == rows[j].bin.deletedAt
  }

  /** A delete gives all its rows one timestamp. */
  ghost predicate SameTime(rows: seq<Row>) { forall i, j {:trigger OneTime(rows, i, j)} :: OneTime(rows, i, j) }

  ghost predicate Orderly(rows: seq<Row>) { Contiguous(rows) && SameTime(rows) }

  lemma OrderlyPart(rows: seq<Row>, i: nat, j: nat)
    requires Orderly(rows) && i <= j <= |rows|
    ensures Orderly(rows[i..j])
  {
    ContiguousTail(rows, j);
    assert rows[..j][i..] == rows[i..j];
    ContiguousTail(rows[..j], i);
    forall a, b ensures OneTime(rows[i..j], a, b) { assert OneTime(rows, i + a, i + b); }
  }

  /** A name for the listing that the verifier unfolds only where `At` is mentioned. */
  type Listing = seq<Row> -> seq<LogicalItem>

  predicate At(rows: seq<Row>) { true }

  ghost predicate IsLogical(f: Listing) { forall rows {:trigger At(rows)} :: At(rows) ==> f(rows) == Logical(rows) }

  lemma NoRows(f: Listing, rows: seq<Row>)
    requires IsLogical(f) && rows == []
    ensures f(rows) == []
  {
    assert At(rows);
  }

  lemma OneRun(f: Listing, rows: seq<Row>)
    requires IsLogical(f) && rows != []
    ensures f(rows) == GroupItems(rows[..RunLength(rows)]) + f(rows[RunLength(rows)..])
  {
    assert At(rows) && At(rows[RunLength(rows)..]);
  }

  /** Two lists that start with the same run start with the same items. */
  lemma SameHead(f: Listing, a: seq<Row>, b: seq<Row>, n: nat) returns (head: seq<LogicalItem>)
    requires IsLogical(f) && a != [] && b != [] && n == RunLength(a) == RunLength(b) && a[..n] == b[..n]
    ensures f(a) == head + f(a[n..]) && f(b) == head + f(b[n..])
  {
    OneRun(f, a);
    OneRun(f, b);
    head := GroupItems(a[..n]);
  }

  /** Between two rows of different groups the listing can be cut. */
  lemma {:induction false} ListingAppend(f: Listing, a: seq<Row>, b: seq<Row>)
    requires IsLogical(f) && Contiguous(a + b) && (a != [] && b != [] ==> GroupAt(a[|a| - 1]) != GroupAt(b[0]))
    ensures f(a + b) == f(a) + f(b)
    decreases |a|
  {
    var all := a + b;
    if a == [] {
      assert all == b;
      NoRows(f, a);
    } else {
      var n := RunLength(a);
      assert Contiguous(a) by {
        ContiguousTail(all, |a|);
        assert all[..|a|] == a;
      }
      SameRun(a, b);
      assert all[..n] == a[..n] && all[n..] == a[n..] + b;
      assert Contiguous(a[n..] + b) by { ContiguousTail(all, n); }
      ListingAppend(f, a[n..], b);
      var head := SameHead(f, a, all, n);
    }
  }

  lemma LogicalAppend(a: seq<Row>, b: seq<Row>)
    requires Contiguous(a + b) && (a != [] && b != [] ==> GroupAt(a[|a| - 1]) != GroupAt(b[0]))
    ensures Logical(a + b) == Logical(a) + Logical(b)
  {
    ListingAppend(rows => Logical(rows), a, b);
  }

  lemma SameRun(a: seq<Row>, b: seq<Row>)
    requires a != [] && Contiguous(a) && Contiguous(a + b) && (b != [] ==> GroupAt(a[|a| - 1]) != GroupAt(b[0]))
    ensures RunLength(a + b) == RunLength(a)
  {
    var all, n, m := a + b, RunLength(a), RunLength(a + b);
    RunIs(a);
    RunIs(all);
    if n < |a| {
      assert all[n] == a[n];
      assert all[n - 1] == a[n - 1];
    } else if b != [] {
      assert all[|a|] == b[0] && a[n - 1] == a[|a| - 1];
      assert all[n - 1] == a[n - 1];
    }
  }

  lemma TimeCut(rows: seq<Row>, n: nat)
    requires Orderly(rows) && n <= |rows|
    requires 0 < n < |rows| ==> rows[n - 1].bin.deletedAt != rows[n].bin.deletedAt
    ensures Logical(rows) == Logical(rows[..n]) + Logical(rows[n..])
  {
    assert rows == rows[..n] + rows[n..];
    assert OneTime(rows, n - 1, n);
    LogicalAppend(rows[..n], rows[n..]);
  }

  lemma CutAt(rows: seq<Row>, i: nat, j: nat)
    requires Orderly(rows) && i <= j <= |rows|
    requires i < j < |rows| ==> rows[j - 1].bin.deletedAt != rows[j].bin.deletedAt
    ensures Orderly(rows[i..j])
    ensures Logical(rows[i..]) == Logical(rows[i..j]) + Logical(rows[j..])
  {
    OrderlyPart(rows, i, j);
    OrderlyPart(rows, i, |rows|);
    var tail := rows[i..];
    assert rows[i..|rows|] == tail;
    assert tail[..j - i] == rows[i..j] && tail[j - i..] == rows[j..];
    TimeCut(tail, j - i);
  }

  /** The end of the batch of equal timestamps that starts at `start`. */
  method BatchEnd(rows: seq<Row>, start: nat) returns (end: nat)
    requires start < |rows|
    ensures start < end <= |rows|
    ensures end < |rows| ==> rows[end - 1].bin.deletedAt != rows[end].bin.deletedAt
  {
    end := start + 1;
    while end < |rows| && rows[end].bin.deletedAt == rows[start].bin.deletedAt
      invariant start < end <= |rows| && rows[end - 1].bin.deletedAt == rows[start].bin.deletedAt
    {
      end := end + 1;
    }
  }

  lemma CutListing(f: Listing, rows: seq<Row>, i: nat, j: nat)
    requires IsLogical(f) && Orderly(rows) && i <= j <= |rows|
    requires i < j < |rows| ==> rows[j - 1].bin.deletedAt != rows[j].bin.deletedAt
    ensures Orderly(rows[i..j])
    ensures f(rows[i..]) == f(rows[i..j]) + f(rows[j..])
  {
    assert Orderly(rows[i..j]) by { OrderlyPart(rows, i, j); }
    var all, front, back := rows[i..], rows[i..j], rows[j..];
    assert f(all) == Logical(front) + Logical(back) by {
      CutAt(rows, i, j);
      assert At(all);
    }
    assert f(front) == Logical(front) by { assert At(front); }
    assert f(back) == Logical(back) by { assert At(back); }
  }

  method LogicalItemsFromDeletedAt(rows: seq<Row>, ghost f: Listing) returns (items: seq<LogicalItem>)
    requires Orderly(rows) && IsLogical(f)
    ensures items == f(rows)
  {
    assert At(rows);
    BatchIsLogical(rows);
    items := LogicalItemsFromDeletedAtBatch(rows);
  }

  /** recycleBinLogicalItemsFromRawItems: batch by batch of equal timestamps. */
  method LogicalItemsFromRawItems(rows: seq<Row>, ghost f: Listing) returns (items: seq<LogicalItem>)
    requires Orderly(rows) && IsLogical(f)
    ensures items == f(rows)
  {
    items := [];
    var start := 0;
    assert rows[0..] == rows;
    while start < |rows|
      invariant 0 <= start <= |rows|
      invariant f(rows) == items + f(rows[start..])
    {
      var end := BatchEnd(rows, start);
      CutListing(f, rows, start, end);
      var batch := LogicalItemsFromDeletedAt(rows[start..end], f);
      items := items + batch;
      start := end;
    }
    NoRows(f, rows[start..]);
  }

  /** splitCompleteRecycleBinRawItems: hold back the rows of the last timestamp until it is
      known that no more of them follow. */
  method SplitComplete(rows: seq<Row>, reachedEnd: bool) returns (complete: seq<Row>, remaining: seq<Row>)
    ensures rows == complete + remaining
    ensures reachedEnd ==> remaining == []
    ensures complete != [] && remaining != [] ==> complete[|complete| - 1].bin.deletedAt != remaining[0].bin.deletedAt
    ensures !reachedEnd && rows != [] ==>
      remaining != [] && forall r :: r in remaining ==> r.bin.deletedAt == rows[|rows| - 1].bin.deletedAt
  {
    if |rows| == 0 { return [], []; }
    if reachedEnd { return rows, []; }
    var last := rows[|rows| - 1].bin.deletedAt;
    var split := |rows|;
    while split > 0 && rows[split - 1].bin.deletedAt == last
      invariant 0 <= split <= |rows| && forall i :: split <= i < |rows| ==> rows[i].bin.deletedAt == last
      invariant split == |rows| ==> rows[split - 1].bin.deletedAt == last
    {
      split := split - 1;
    }
    return rows[..split], rows[split..];
  }

  // --------------------------------------------------------------- one page

  datatype Page = Page(items: seq<ListedItem>, next: Option<Cursor>)

  function Items(logical: seq<LogicalItem>): seq<ListedItem> {
    seq(|logical|, i requires 0 <= i < |logical| => logical[i].item)
  }

  /** The first `limit` logical items, and a cursor unless they are all there are. */
  function PageOf(logical: seq<LogicalItem>, limit: nat): Page
    requires limit > 0
  {
    if |logical| <= limit then Page(Items(logical), None)
    else Page(Items(logical[..limit]), Some(logical[limit - 1].last))
  }

  ghost predicate Shows(logical: seq<LogicalItem>, items: seq<ListedItem>, last: Option<Cursor>) {
    items == Items(logical) && last == (if logical == [] then None else Some(logical[|logical| - 1].last))
  }

  /** What the page has shown so far, and whether it is full with more to come. */
  method Fill(logical: seq<LogicalItem>, limit: nat, items: seq<ListedItem>, last: Option<Cursor>, ghost done: seq<LogicalItem>)
    returns (full: bool, newItems: seq<ListedItem>, newLast: Option<Cursor>)
    requires Shows(done, items, last) && |done| <= limit
    ensures !full ==> Shows(done + logical, newItems, newLast) && |done + logical| <= limit
    ensures full ==> |newItems| == limit && exists i :: 0 <= i < |logical| && Shows(done + logical[..i], newItems, newLast)
  {
    newItems, newLast := items, last;
    assert done + logical[..0] == done;
    for i := 0 to |logical|
      invariant Shows(done + logical[..i], newItems, newLast) && |done| + i <= limit
    {
      if |newItems| == limit { return true, newItems, newLast; }
      newItems := newItems + [logical[i].item];
      newLast := Some(logical[i].last);
      assert done + logical[..i + 1] == done + logical[..i] + [logical[i]];
    }
    assert logical[..|logical|] == logical;
    return false, newItems, newLast;
  }

  lemma FetchIsFront(table: seq<Row>, bucket: string, query: Option<Cursor>, batchSize: nat)
    requires batchSize > 0
    ensures Fetch(table, bucket, query, batchSize) <= Matching(table, bucket, query)
    ensures Fetch(table, bucket, query, batchSize) == [] ==> Matching(table, bucket, query) == []
  {
  }

  lemma FrontOf(all: seq<Row>, fetched: nat, rest: seq<Row>, raw: seq<Row>)
    requires fetched <= |all| && rest == all[fetched..] && raw <= rest && (raw == [] ==> rest == [])
    ensures fetched + |raw| <= |all| && raw == all[fetched..fetched + |raw|]
    ensures if raw == [] then fetched == |all| else raw[|raw| - 1] == all[fetched + |raw| - 1]
  {
  }

  /** One fetch takes the next rows, and its last cursor resumes after them. */
  lemma NextFetch(table: seq<Row>, bucket: string, cursor: Option<Cursor>, query: Option<Cursor>, fetched: nat, raw: seq<Row>, batchSize: nat,
                  all: seq<Row>)
    requires Sorted(table) && all == Matching(table, bucket, cursor) && batchSize > 0
    requires Resumes(table, bucket, query, all, fetched) && raw == Fetch(table, bucket, query, batchSize)
    ensures fetched + |raw| <= |all| && raw == all[fetched..fetched + |raw|] && (raw == [] ==> fetched == |all|)
    ensures raw != [] ==> Resumes(table, bucket, Some(CursorOf(raw[|raw| - 1])), all, fetched + |raw|)
  {
    assert raw <= all[fetched..] && (raw == [] ==> all[fetched..] == []) by { FetchIsFront(table, bucket, query, batchSize); }
    FrontOf(all, fetched, all[fetched..], raw);
    if raw != [] {
      var x := raw[|raw| - 1];
      assert x == all[fetched + |raw| - 1];
      assert Matching(table, bucket, Some(CursorOf(x))) == all[fetched + |raw|..] by {
        MatchingFrom(table, bucket, cursor, fetched + |raw| - 1);
      }
    }
  }

  /** Show the complete rows among the pending ones: either the page is full with more to
      come, or everything before `cut` has been shown. */
  method ShowComplete(pending: seq<Row>, reachedEnd: bool, limit: nat, items: seq<ListedItem>, last: Option<Cursor>, ghost f: Listing,
                      ghost all: seq<Row>, ghost processed: nat, ghost fetched: nat, ghost done: seq<LogicalItem>)
    returns (full: bool, newItems: seq<ListedItem>, newLast: Option<Cursor>, remaining: seq<Row>, ghost cut: nat, ghost newDone: seq<LogicalItem>)
    requires Orderly(all) && IsLogical(f) && processed <= fetched <= |all| && pending == all[processed..fetched] && limit > 0
    requires reachedEnd ==> fetched == |all|
    requires Shows(done, items, last) && |done| <= limit
    ensures full ==> Page(newItems, newLast) == PageOf(done + f(all[processed..]), limit)
    ensures !full ==> processed <= cut <= fetched && remaining == all[cut..fetched] && (reachedEnd ==> cut == |all|)
    ensures !full ==> done + f(all[processed..]) == newDone + f(all[cut..])
    ensures !full ==> Shows(newDone, newItems, newLast) && |newDone| <= limit
  {
    var complete;
    complete, remaining := SplitComplete(pending, reachedEnd);
    cut := processed + |complete|;
    CutPending(f, all, processed, cut, fetched, complete, remaining);
    var logical := LogicalItemsFromRawItems(complete, f);
    full, newItems, newLast := Fill(logical, limit, items, last, done);
    newDone := done + logical;
    if full { FullPage(done, logical, f(all[cut..]), newItems, newLast, limit); }
  }

  /** The cursor from which a query would return the rows of `all` from `fetched` on. */
  ghost predicate Resumes(table: seq<Row>, bucket: string, query: Option<Cursor>, all: seq<Row>, fetched: nat) {
    fetched <= |all| && Matching(table, bucket, query) == all[fetched..]
  }

  lemma Joined(all: seq<Row>, i: nat, j: nat, k: nat)
    requires i <= j <= k <= |all|
    ensures all[i..j] + all[j..k] == all[i..k]
  {
  }

  method FetchMore(table: seq<Row>, bucket: string, query: Option<Cursor>, batchSize: nat, pending: seq<Row>,
                   ghost cursor: Option<Cursor>, ghost all: seq<Row>, ghost processed: nat, ghost fetched: nat)
    returns (count: nat, newQuery: Option<Cursor>, newPending: seq<Row>)
    requires Sorted(table) && batchSize > 0 && all == Matching(table, bucket, cursor)
    requires processed <= fetched && Resumes(table, bucket, query, all, fetched) && pending == all[processed..fetched]
    ensures Resumes(table, bucket, newQuery, all, fetched + count) && newPending == all[processed..fetched + count]
    ensures count == 0 ==> fetched == |all|
  {
    var raw := Fetch(table, bucket, query, batchSize);
    NextFetch(table, bucket, cursor, query, fetched, raw, batchSize, all);
    Joined(all, processed, fetched, fetched + |raw|);
    count, newPending := |raw|, pending + raw;
    newQuery := if |raw| > 0 then Some(CursorOf(raw[|raw| - 1])) else query;
  }

  /** The fetch loop of ListObjects. For every limit and every batch size it terminates and
      returns the page that the simple list prescribes. */
  method ListPage(table: seq<Row>, bucket: string, cursor: Option<Cursor>, limit: nat, batchSize: nat, ghost f: Listing) returns (page: Page)
    requires Sorted(table) && Orderly(Matching(table, bucket, cursor)) && IsLogical(f) && limit > 0 && batchSize > 0
    ensures page == PageOf(f(Matching(table, bucket, cursor)), limit)
  {
    ghost var all := Matching(table, bucket, cursor);
    ghost var fetched: nat, processed: nat := 0, 0;
    var items: seq<ListedItem> := [];
    var queryCursor, pageLast := cursor, None;
    var pending: seq<Row> := [];
    ghost var done: seq<LogicalItem> := [];
    assert all[0..] == all;
    while true
      invariant processed <= fetched && Resumes(table, bucket, queryCursor, all, fetched) && pending == all[processed..fetched]
      invariant f(all) == done + f(all[processed..]) && Shows(done, items, pageLast) && |done| <= limit
      decreases |all| - fetched
    {
      var count;
      count, queryCursor, pending := FetchMore(table, bucket, queryCursor, batchSize, pending, cursor, all, processed, fetched);
      fetched := fetched + count;
      var full;
      full, items, pageLast, pending, processed, done :=
        ShowComplete(pending, count == 0, limit, items, pageLast, f, all, processed, fetched, done);
      if full { return Page(items, pageLast); }
      if count == 0 { break; }
    }
    NoRows(f, all[processed..]);
    return Page(items, None);
  }

  /** A page that is full while more items follow. */
  lemma FullPage(done: seq<LogicalItem>, more: seq<LogicalItem>, rest: seq<LogicalItem>,
                 items: seq<ListedItem>, last: Option<Cursor>, limit: nat)
    requires limit > 0 && |items| == limit && exists i :: 0 <= i < |more| && Shows(done + more[..i], items, last)
    ensures PageOf(done + (more + rest), limit) == Page(items, last)
  {
    var i :| 0 <= i < |more| && Shows(done + more[..i], items, last);
    var all := done + (more + rest);
    assert all[..limit] == done + more[..i];
  }

  lemma Slices(all: seq<Row>, processed: nat, cut: nat, fetched: nat, complete: seq<Row>, remaining: seq<Row>)
    requires processed <= fetched <= |all| && all[processed..fetched] == complete + remaining && cut == processed + |complete|
    ensures cut <= fetched && complete == all[processed..cut] && remaining == all[cut..fetched]
  {
    assert (complete + remaining)[..|complete|] == complete && (complete + remaining)[|complete|..] == remaining;
    assert all[processed..fetched][..|complete|] == all[processed..cut];
  }

  /** Splitting off the complete rows cuts the whole listing at a change of timestamp. */
  lemma CutPending(f: Listing, all: seq<Row>, processed: nat, cut: nat, fetched: nat, complete: seq<Row>, remaining: seq<Row>)
    requires Orderly(all) && IsLogical(f) && processed <= fetched <= |all| && all[processed..fetched] == complete + remaining
    requires cut == processed + |complete|
    requires remaining == [] ==> fetched == |all| || complete == []
    requires complete != [] && remaining != [] ==> complete[|complete| - 1].bin.deletedAt != remaining[0].bin.deletedAt
    ensures cut <= fetched && remaining == all[cut..fetched] && Orderly(complete)
    ensures f(all[processed..]) == f(complete) + f(all[cut..])
  {
    Slices(all, processed, cut, fetched, complete, remaining);
    if processed < cut < |all| {
      assert all[cut - 1] == complete[|complete| - 1] && all[cut] == remaining[0];
    }
    CutListing(f, all, processed, cut);
  }

  const DEFAULT_LIMIT: nat := 20
  const MAX_LIMIT: nat := 100

  predicate LimitOk(limit: int) { 0 <= limit <= MAX_LIMIT }

  function EffectiveLimit(limit: int): nat
    requires LimitOk(limit)
  {
    if limit == 0 then DEFAULT_LIMIT else limit
  }

  /** The bucket asked for, or any when none is. */
  predicate InBucket(r: Row, bucket: string) { bucket != "" ==> r.bin.key.bucket == bucket }

  /** Deleted later, or at the same time under a higher id. */
  predicate Newer(a: Row, b: Row) {
    a.bin.deletedAt > b.bin.deletedAt || (a.bin.deletedAt == b.bin.deletedAt && a.id > b.id)
  }

  /** Older than the row a cursor was made from. */
  predicate After(c: Cursor, r: Row) {
    r.bin.deletedAt <= c.deletedAt && (r.bin.deletedAt == c.deletedAt ==> r.id < c.id)
  }

  ghost predicate Belongs(t: ListedItem, table: seq<Row>, bucket: string, cursor: Option<Cursor>) {
    t.row in table && InBucket(t.row, bucket) && (cursor.Some? ==> After(cursor.value, t.row))
  }

  lemma PageBelongs(table: seq<Row>, bucket: string, cursor: Option<Cursor>, limit: nat)
    requires limit > 0
    ensures forall t :: t in PageOf(Logical(Matching(table, bucket, cursor)), limit).items ==> Belongs(t, table, bucket, cursor)
  {
    var rows := Matching(table, bucket, cursor);
    LogicalShowsRows(rows);
    MatchingIn(table, bucket, cursor);
    var items := PageOf(Logical(rows), limit).items;
    forall t | t in items ensures Belongs(t, table, bucket, cursor) {
      var i :| 0 <= i < |items| && items[i] == t;
      assert t == Logical(rows)[i].item && t.row in rows;
    }
  }

  /** ListObjects: a page of the items that lie in the bucket, after the cursor. */
  method ListObjects(table: seq<Row>, bucket: string, limit: int, cursor: Option<Cursor>) returns (page: Option<Page>)
    requires Sorted(table) && Orderly(Matching(table, bucket, cursor))
    ensures page.Some? <==> LimitOk(limit)
    ensures page.Some? ==> page.value == PageOf(Logical(Matching(table, bucket, cursor)), EffectiveLimit(limit))
    ensures page.Some? ==> |page.value.items| <= EffectiveLimit(limit)
    ensures page.Some? ==> forall t :: t in page.value.items ==> Belongs(t, table, bucket, cursor)
  {
    var effective := if limit == 0 then DEFAULT_LIMIT else limit;
    if effective < 1 || effective > MAX_LIMIT { return None; }
    var batchSize := effective + 1;
    if batchSize < DEFAULT_LIMIT { batchSize := DEFAULT_LIMIT; }
    ghost var f: Listing := rows => Logical(rows);
    assert IsLogical(f);
    var result := ListPage(table, bucket, cursor, effective, batchSize, f);
    PageBelongs(table, bucket, cursor, effective);
    return Some(result);
  }

  // ------------------------------------------------------------- every page

  /** The items of all pages, following `NextCursor` from `cursor` on. */
  function AllPages(table: seq<Row>, bucket: string, cursor: Option<Cursor>, limit: nat): seq<ListedItem>
    requires limit > 0
    decreases |Matching(table, bucket, cursor)|
  {
    var page := PageOf(Logical(Matching(table, bucket, cursor)), limit);
    if page.next.Some? && |Matching(table, bucket, page.next)| < |Matching(table, bucket, cursor)|
    then page.items + AllPages(table, bucket, page.next, limit)
    else page.items
  }

  /** One item for a run of rows: it shows one of them, and its cursor is that of the last. */
  ghost predicate OneItem(run: seq<Row>)
    requires run != []
  {
    |GroupItems(run)| == 1 && GroupItems(run)[0].last == CursorOf(run[|run| - 1]) && GroupItems(run)[0].item.row in run
  }

  /** Every group of the listing shows as one item. */
  ghost predicate Single(rows: seq<Row>)
    decreases |rows|
  {
    rows != [] ==> OneItem(rows[..RunLength(rows)]) && Single(rows[RunLength(rows)..])
  }

  /** As for `Listing`, a name for `Single` that is unfolded only where `At` is mentioned. */
  ghost predicate IsSingle(g: seq<Row> -> bool) { forall rows {:trigger At(rows)} :: At(rows) ==> (g(rows) <==> Single(rows)) }

  lemma FirstRun(f: Listing, g: seq<Row> -> bool, rows: seq<Row>) returns (n: nat)
    requires IsLogical(f) && IsSingle(g) && g(rows) && rows != []
    ensures 0 < n <= |rows| && f(rows) != [] && f(rows)[0].last == CursorOf(rows[n - 1])
    ensures f(rows)[1..] == f(rows[n..]) && g(rows[n..])
    ensures n == RunLength(rows) && f(rows)[0].item.row in rows[..n]
  {
    n := RunLength(rows);
    assert At(rows) && At(rows[n..]);
    assert OneItem(rows[..n]);
  }

  /** The cursor of item k cuts the listing between its group and the next. */
  lemma {:induction false} CursorCuts(f: Listing, g: seq<Row> -> bool, rows: seq<Row>, k: nat) returns (e: nat)
    requires IsLogical(f) && IsSingle(g) && g(rows) && 0 < k < |f(rows)|
    ensures 0 < e < |rows| && f(rows)[k - 1].last == CursorOf(rows[e - 1])
    ensures f(rows[e..]) == f(rows)[k..] && g(rows[e..])
    decreases |rows|
  {
    if rows == [] { NoRows(f, rows); }
    var n := FirstRun(f, g, rows);
    var rest := rows[n..];
    if k == 1 {
      e := n;
      if rest == [] { NoRows(f, rest); }
    } else {
      var x := CursorCuts(f, g, rest, k - 1);
      e := n + x;
      assert rows[e..] == rest[x..];
      assert f(rows)[k..] == f(rest)[k - 1..];
    }
  }

  lemma ItemsAppend(a: seq<LogicalItem>, b: seq<LogicalItem>)
    ensures Items(a + b) == Items(a) + Items(b)
  {
  }

  lemma NextPage(table: seq<Row>, bucket: string, cursor: Option<Cursor>, limit: nat) returns (e: nat)
    requires Sorted(table) && Single(Matching(table, bucket, cursor)) && 0 < limit < |Logical(Matching(table, bucket, cursor))|
    ensures var rows := Matching(table, bucket, cursor);
      && 0 < e < |rows| && PageOf(Logical(rows), limit).next == Some(CursorOf(rows[e - 1]))
      && Matching(table, bucket, Some(CursorOf(rows[e - 1]))) == rows[e..]
      && Logical(rows[e..]) == Logical(rows)[limit..] && Single(rows[e..])
  {
    var rows := Matching(table, bucket, cursor);
    var f: Listing := rows => Logical(rows);
    var g := rows => Single(rows);
    e := CursorCuts(f, g, rows, limit);
    MatchingFrom(table, bucket, cursor, e - 1);
  }

  lemma PageThenRest(table: seq<Row>, bucket: string, cursor: Option<Cursor>, limit: nat, next: Option<Cursor>)
    requires 0 < limit < |Logical(Matching(table, bucket, cursor))|
    requires PageOf(Logical(Matching(table, bucket, cursor)), limit).next == next && next.Some?
    requires |Matching(table, bucket, next)| < |Matching(table, bucket, cursor)|
    ensures AllPages(table, bucket, cursor, limit)
      == Items(Logical(Matching(table, bucket, cursor))[..limit]) + AllPages(table, bucket, next, limit)
  {
  }

  lemma OnePage(table: seq<Row>, bucket: string, cursor: Option<Cursor>, limit: nat)
    requires 0 < limit && |Logical(Matching(table, bucket, cursor))| <= limit
    ensures AllPages(table, bucket, cursor, limit) == Items(Logical(Matching(table, bucket, cursor)))
  {
  }

  lemma SplitItems(all: seq<LogicalItem>, limit: nat)
    requires limit <= |all|
    ensures Items(all) == Items(all[..limit]) + Items(all[limit..])
  {
    assert all == all[..limit] + all[limit..];
    ItemsAppend(all[..limit], all[limit..]);
  }

  /** Following the cursors from any page boundary shows every logical item exactly once, in
      the order of the simple list, for every limit. */
  lemma {:induction false} PagesAreTheList(table: seq<Row>, bucket: string, cursor: Option<Cursor>, limit: nat)
    requires Sorted(table) && Single(Matching(table, bucket, cursor)) && limit > 0
    ensures AllPages(table, bucket, cursor, limit) == Items(Logical(Matching(table, bucket, cursor)))
    decreases |Matching(table, bucket, cursor)|
  {
    if |Logical(Matching(table, bucket, cursor))| <= limit {
      OnePage(table, bucket, cursor, limit);
    } else {
      var e := NextPage(table, bucket, cursor, limit);
      var next := Some(CursorOf(Matching(table, bucket, cursor)[e - 1]));
      PageThenRest(table, bucket, cursor, limit, next);
      PagesAreTheList(table, bucket, next, limit);
      SplitItems(Logical(Matching(table, bucket, cursor)), limit);
    }
  }

  // ------------------------------------------------------ one item per group

  function ShownGroup(t: LogicalItem): Id { GroupAt(t.item.row) }

  ghost predicate HasGroup(items: seq<LogicalItem>, g: Id) { exists i :: 0 <= i < |items| && ShownGroup(items[i]) == g }

  ghost predicate InRows(rows: seq<Row>, g: Id) { exists r :: r in rows && GroupAt(r) == g }

  /** Every group of the rows is shown, and none twice. */
  ghost predicate OncePerGroup(items: seq<LogicalItem>, rows: seq<Row>) {
    && (forall g {:trigger InRows(rows, g)} {:trigger HasGroup(items, g)} :: HasGroup(items, g) <==> InRows(rows, g))
    && (forall i, j :: 0 <= i < j < |items| ==> ShownGroup(items[i]) != ShownGroup(items[j]))
  }

  lemma {:induction false} EachGroupOnceIn(f: Listing, g: seq<Row> -> bool, rows: seq<Row>)
    requires IsLogical(f) && IsSingle(g) && g(rows) && Contiguous(rows)
    ensures OncePerGroup(f(rows), rows)
    decreases |rows|
  {
    if rows == [] {
      NoRows(f, rows);
    } else {
      var n := FirstRun(f, g, rows);
      RunIs(rows);
      ContiguousTail(rows, n);
      var rest := rows[n..];
      EachGroupOnceIn(f, g, rest);
      OnceMore(f(rows), f(rest), rows, n);
    }
  }

  lemma OnceMore(items: seq<LogicalItem>, later: seq<LogicalItem>, rows: seq<Row>, n: nat)
    requires items != [] && items[1..] == later && 0 < n <= |rows|
    requires items[0].item.row in rows[..n]
    requires forall i :: 0 <= i < n ==> GroupAt(rows[i]) == GroupAt(rows[0])
    requires forall i :: n <= i < |rows| ==> GroupAt(rows[i]) != GroupAt(rows[0])
    requires OncePerGroup(later, rows[n..])
    ensures OncePerGroup(items, rows)
  {
    var first := GroupAt(rows[0]);
    assert ShownGroup(items[0]) == first;
    assert !InRows(rows[n..], first);
    forall i | 0 < i < |items| ensures items[i] == later[i - 1] && ShownGroup(items[i]) != first {
      assert items[i] == later[i - 1];
      assert HasGroup(later, ShownGroup(later[i - 1]));
    }
    forall x ensures HasGroup(items, x) <==> x == first || HasGroup(later, x) {
      if HasGroup(later, x) {
        var i :| 0 <= i < |later| && ShownGroup(later[i]) == x;
        assert items[i + 1] == later[i];
      }
      assert x == first ==> ShownGroup(items[0]) == x;
    }
    forall x ensures InRows(rows, x) <==> x == first || InRows(rows[n..], x) {
      assert rows == rows[..n] + rows[n..];
      assert rows[0] in rows;
    }
  }

  /** The listing shows every delete group exactly once. */
  lemma EachGroupOnce(rows: seq<Row>)
    requires Single(rows) && Contiguous(rows)
    ensures OncePerGroup(Logical(rows), rows)
  {
    var f: Listing := rows => Logical(rows);
    var g := rows => Single(rows);
    EachGroupOnceIn(f, g, rows);
    assert f(rows) == Logical(rows);
  }
}
