/**
  How the recycle bin turns raw rows into logical items: rows of one delete group collapse
  into the shallowest deleted folder that owns them.
 */
module RecycleBinGrouping {
  import opened Common
  import opened FolderPaths
  import opened Metadata
  import opened BinGroups

  datatype Row = Row(id: nat, bin: BinRow)

  datatype Cursor = Cursor(deletedAt: Time, id: nat)

  function CursorOf(r: Row): Cursor { Cursor(r.bin.deletedAt, r.id) }

  /** A listed item shows one row, with a size of its own. */
  datatype ListedItem = ListedItem(row: Row, size: int)

  datatype LogicalItem = LogicalItem(item: ListedItem, last: Cursor)

  datatype Directory = Directory(bucket: string, path: string)

  /** A row with what the grouping reads off its key: whether it is a folder marker, the
      directory it stands for, and the directories it could belong to. */
  datatype Entry = Entry(row: Row, isMarker: bool, directory: Directory, candidates: seq<string>)

  function EntryOf(r: Row): Entry {
    var path := EntryPath(r.bin.key.key);
    Entry(r, IsMarkerRow(r.bin), Directory(r.bin.key.bucket, path), AncestorPaths(path, IsMarkerRow(r.bin)))
  }

  function Entries(rows: seq<Row>): seq<Entry> {
    seq(|rows|, i requires 0 <= i < |rows| => EntryOf(rows[i]))
  }

  // --------------------------------------------------------- one delete group

  function MarkersIn(entries: seq<Entry>): map<Directory, Row> {
    if entries == [] then map[]
    else var rest, e := MarkersIn(entries[..|entries| - 1]), entries[|entries| - 1];
      if e.isMarker then rest[e.directory := e.row] else rest
  }

  function FirstIn(paths: seq<string>, bucket: string, markers: map<Directory, Row>): (d: Option<Directory>)
    ensures d.Some? ==> d.value in markers && d.value.bucket == bucket && d.value.path in paths
  {
    if paths == [] then None
    else if Directory(bucket, paths[0]) in markers then Some(Directory(bucket, paths[0]))
    else FirstIn(paths[1..], bucket, markers)
  }

  function Owner(markers: map<Directory, Row>, e: Entry): Option<Directory> {
    FirstIn(e.candidates, e.directory.bucket, markers)
  }

  datatype Grouping = Grouping(items: seq<LogicalItem>, index: map<Directory, nat>)
  {
    predicate Ok() { forall d :: d in index ==> index[d] < |items| }
  }

  function Shown(r: Row, last: Row): LogicalItem { LogicalItem(ListedItem(r, r.bin.file.size), CursorOf(last)) }

  function AddSize(t: LogicalItem, e: Entry): LogicalItem {
    if e.isMarker then t else t.(item := t.item.(size := t.item.size + e.row.bin.file.size))
  }

  function AddRow(g: Grouping, markers: map<Directory, Row>, e: Entry): (n: Grouping)
    requires g.Ok()
    ensures n.Ok()
  {
    match Owner(markers, e)
    case None => Grouping(g.items + [Shown(e.row, e.row)], g.index)
    case Some(d) =>
      if d in g.index then
        Grouping(g.items[g.index[d] := AddSize(g.items[g.index[d]].(last := CursorOf(e.row)), e)], g.index)
      else Grouping(g.items + [AddSize(Shown(markers[d], e.row), e)], g.index[d := |g.items|])
  }

  function GroupEntries(entries: seq<Entry>, markers: map<Directory, Row>): (g: Grouping)
    ensures g.Ok()
  {
    if entries == [] then Grouping([], map[])
    else AddRow(GroupEntries(entries[..|entries| - 1], markers), markers, entries[|entries| - 1])
  }

  /** recycleBinLogicalItemsFromDeleteGroup */
  function GroupItems(rows: seq<Row>): seq<LogicalItem> { GroupEntries(Entries(rows), MarkersIn(Entries(rows))).items }

  /** recycleBinOwningDirectoryKey */
  method OwningDirectory(markers: map<Directory, Row>, e: Entry) returns (d: Option<Directory>)
    ensures d == Owner(markers, e)
  {
    for i := 0 to |e.candidates|
      invariant Owner(markers, e) == FirstIn(e.candidates[i..], e.directory.bucket, markers)
    {
      var key := Directory(e.directory.bucket, e.candidates[i]);
      assert e.candidates[i..][0] == e.candidates[i] && e.candidates[i..][1..] == e.candidates[i + 1..];
      if key in markers { return Some(key); }
    }
    return None;
  }

  lemma EntriesMore(rows: seq<Row>, i: nat)
    requires i < |rows|
    ensures Entries(rows[..i + 1]) == Entries(rows[..i]) + [EntryOf(rows[i])]
    ensures Entries(rows[..i + 1])[..i] == Entries(rows[..i])
  {
  }

  lemma OneMarkerMore(entries: seq<Entry>, e: Entry)
    ensures MarkersIn(entries + [e]) == if e.isMarker then MarkersIn(entries)[e.directory := e.row] else MarkersIn(entries)
  {
    assert (entries + [e])[..|entries|] == entries;
  }

  method CollectMarkers(rows: seq<Row>) returns (markers: map<Directory, Row>)
    ensures markers == MarkersIn(Entries(rows))
  {
    markers := map[];
    for i := 0 to |rows|
      invariant markers == MarkersIn(Entries(rows[..i]))
    {
      var e := EntryOf(rows[i]);
      EntriesMore(rows, i);
      OneMarkerMore(Entries(rows[..i]), e);
      if e.isMarker { markers := markers[e.directory := e.row]; }
    }
    assert rows[..|rows|] == rows;
  }

  lemma OneRowMore(entries: seq<Entry>, markers: map<Directory, Row>, e: Entry)
    ensures GroupEntries(entries + [e], markers) == AddRow(GroupEntries(entries, markers), markers, e)
  {
    assert (entries + [e])[..|entries|] == entries;
  }

  method LogicalItemsFromDeleteGroup(rows: seq<Row>) returns (items: seq<LogicalItem>)
    ensures items == GroupItems(rows)
  {
    var markers := CollectMarkers(rows);
    items := [];
    var index: map<Directory, nat> := map[];
    ghost var g := Grouping(items, index);
    for i := 0 to |rows|
      invariant g == Grouping(items, index) && g == GroupEntries(Entries(rows[..i]), markers) && g.Ok()
    {
      var e := EntryOf(rows[i]);
      EntriesMore(rows, i);
      OneRowMore(Entries(rows[..i]), markers, e);
      items, index := PlaceRow(items, index, markers, e);
      g := Grouping(items, index);
    }
    assert rows[..|rows|] == rows;
  }

  /** The body of that loop. */
  method PlaceRow(items: seq<LogicalItem>, index: map<Directory, nat>, markers: map<Directory, Row>, e: Entry)
    returns (newItems: seq<LogicalItem>, newIndex: map<Directory, nat>)
    requires Grouping(items, index).Ok()
    ensures Grouping(newItems, newIndex) == AddRow(Grouping(items, index), markers, e)
  {
    newItems, newIndex := items, index;
    var owner := OwningDirectory(markers, e);
    if owner.None? { return items + [Shown(e.row, e.row)], index; }
    var d := owner.value;
    if d !in index {
      newItems, newIndex := items + [Shown(markers[d], e.row)], index[d := |items|];
    } else {
      newItems := items[index[d] := items[index[d]].(last := CursorOf(e.row))];
    }
    if !e.isMarker {
      var t := newItems[newIndex[d]];
      newItems := newItems[newIndex[d] := t.(item := t.item.(size := t.item.size + e.row.bin.file.size))];
    }
  }

  // ------------------------------------------------- items show rows of the list

  ghost predicate ShowRows(items: seq<LogicalItem>, rows: seq<Row>) {
    forall i :: 0 <= i < |items| ==> items[i].item.row in rows
  }

  lemma {:induction false} MarkersAreRows(entries: seq<Entry>)
    ensures forall d :: d in MarkersIn(entries) ==> exists i :: 0 <= i < |entries| && MarkersIn(entries)[d] == entries[i].row
  {
    if entries != [] { MarkersAreRows(entries[..|entries| - 1]); }
  }

  lemma {:induction false} GroupShowsRows(entries: seq<Entry>, markers: map<Directory, Row>, rows: seq<Row>)
    requires (forall i :: 0 <= i < |entries| ==> entries[i].row in rows) && forall d :: d in markers ==> markers[d] in rows
    ensures ShowRows(GroupEntries(entries, markers).items, rows)
  {
    if entries != [] { GroupShowsRows(entries[..|entries| - 1], markers, rows); }
  }

  /** Every item of a delete group shows one of its rows. */
  lemma ItemsShowRows(rows: seq<Row>)
    ensures ShowRows(GroupItems(rows), rows)
  {
    var entries := Entries(rows);
    MarkersAreRows(entries);
    forall i | 0 <= i < |entries| ensures entries[i].row in rows { assert rows[i] in rows; }
    forall d | d in MarkersIn(entries) ensures MarkersIn(entries)[d] in rows {
      var i :| 0 <= i < |entries| && MarkersIn(entries)[d] == entries[i].row;
    }
    GroupShowsRows(entries, MarkersIn(entries), rows);
  }

  // ------------------------------------------------------- runs of one group

  function GroupAt(r: Row): Id { r.bin.group }

  predicate NotSplit(rows: seq<Row>, i: int, k: int, j: int) {
    0 <= i < k < j < |rows| && GroupAt(rows[i]) == GroupAt(rows[j]) ==> GroupAt(rows[i]) == GroupAt(rows[k])
  }

  /** Rows of one group lie together. */
  ghost predicate Contiguous(rows: seq<Row>) {
    forall i, k, j {:trigger NotSplit(rows, i, k, j)} :: NotSplit(rows, i, k, j)
  }

  /** How many rows at the front share the group of the first. */
  function RunLength(rows: seq<Row>): (n: nat)
    requires rows != []
    ensures 0 < n <= |rows|
  {
    if |rows| > 1 && GroupAt(rows[1]) == GroupAt(rows[0]) then 1 + RunLength(rows[1..]) else 1
  }

  /** The listing a reader expects: the items of each group, group by group. */
  function Logical(rows: seq<Row>): seq<LogicalItem>
    decreases |rows|
  {
    if rows == [] then []
    else GroupItems(rows[..RunLength(rows)]) + Logical(rows[RunLength(rows)..])
  }

  lemma {:induction false} RunIs(rows: seq<Row>)
    requires rows != [] && Contiguous(rows)
    ensures forall i :: 0 <= i < RunLength(rows) ==> GroupAt(rows[i]) == GroupAt(rows[0])
    ensures forall i :: RunLength(rows) <= i < |rows| ==> GroupAt(rows[i]) != GroupAt(rows[0])
    decreases |rows|
  {
    var n := RunLength(rows);
    if |rows| > 1 && GroupAt(rows[1]) == GroupAt(rows[0]) {
      var tail := rows[1..];
      ContiguousTail(rows, 1);
      RunIs(tail);
      forall i | 0 <= i < |rows| ensures i < n <==> GroupAt(rows[i]) == GroupAt(rows[0]) {
        if i > 0 { assert rows[i] == tail[i - 1]; }
      }
    } else {
      forall i | 1 < i < |rows| ensures GroupAt(rows[i]) != GroupAt(rows[0]) { assert NotSplit(rows, 0, 1, i); }
    }
  }

  lemma {:induction false} LogicalShowsRows(rows: seq<Row>)
    ensures ShowRows(Logical(rows), rows)
    decreases |rows|
  {
    if rows != [] {
      var n := RunLength(rows);
      ItemsShowRows(rows[..n]);
      LogicalShowsRows(rows[n..]);
      assert rows == rows[..n] + rows[n..];
    }
  }

  // ---------------------------------------------- one batch of equal timestamps

  function GroupOrder(rows: seq<Row>): seq<Id> {
    if rows == [] then []
    else var init, g := GroupOrder(rows[..|rows| - 1]), GroupAt(rows[|rows| - 1]);
      if g in init then init else init + [g]
  }

  function Select(rows: seq<Row>, g: Id): seq<Row> {
    if rows == [] then []
    else Select(rows[..|rows| - 1], g) + (if GroupAt(rows[|rows| - 1]) == g then [rows[|rows| - 1]] else [])
  }

  function ItemsOf(order: seq<Id>, rows: seq<Row>): seq<LogicalItem> {
    if order == [] then [] else GroupItems(Select(rows, order[0])) + ItemsOf(order[1..], rows)
  }

  lemma GroupNext(rows: seq<Row>, i: nat)
    requires i < |rows|
    ensures var g := GroupAt(rows[i]);
      && GroupOrder(rows[..i + 1]) == (if g in GroupOrder(rows[..i]) then GroupOrder(rows[..i]) else GroupOrder(rows[..i]) + [g])
      && (forall h :: Select(rows[..i + 1], h) == Select(rows[..i], h) + (if h == g then [rows[i]] else []))
  {
    assert rows[..i + 1][..i] == rows[..i];
  }

  /** The map holds the rows of every group among the first i rows. */
  ghost predicate HoldsRows(rowsByGroup: map<Id, seq<Row>>, rows: seq<Row>) {
    forall g :: if g in rowsByGroup then rowsByGroup[g] == Select(rows, g) else Select(rows, g) == []
  }

  lemma NextRows(rows: seq<Row>, i: nat, was: map<Id, seq<Row>>, becomes: map<Id, seq<Row>>)
    requires i < |rows| && HoldsRows(was, rows[..i])
    requires var g := GroupAt(rows[i]); becomes == was[g := (if g in was then was[g] else []) + [rows[i]]]
    ensures HoldsRows(becomes, rows[..i + 1])
  {
    GroupNext(rows, i);
  }

  /** The first loop of the source: the rows of each group, and the groups in order of first
      appearance. */
  method RowsByGroup(rows: seq<Row>) returns (groups: seq<Id>, rowsByGroup: map<Id, seq<Row>>)
    ensures groups == GroupOrder(rows) && forall g :: g in groups ==> g in rowsByGroup && rowsByGroup[g] == Select(rows, g)
  {
    rowsByGroup, groups := map[], [];
    for i := 0 to |rows|
      invariant groups == GroupOrder(rows[..i]) && forall g :: g in rowsByGroup <==> g in groups
      invariant HoldsRows(rowsByGroup, rows[..i])
    {
      var g := GroupAt(rows[i]);
      GroupNext(rows, i);
      ghost var was := rowsByGroup;
      if g !in rowsByGroup { groups := groups + [g]; }
      rowsByGroup := rowsByGroup[g := (if g in rowsByGroup then rowsByGroup[g] else []) + [rows[i]]];
      NextRows(rows, i, was, rowsByGroup);
    }
    assert rows[..|rows|] == rows;
  }

  lemma ItemsNext(order: seq<Id>, i: nat, rows: seq<Row>)
    requires i < |order|
    ensures ItemsOf(order[i..], rows) == GroupItems(Select(rows, order[i])) + ItemsOf(order[i + 1..], rows)
  {
    assert order[i..][1..] == order[i + 1..];
  }

  method LogicalItemsFromDeletedAtBatch(rows: seq<Row>) returns (items: seq<LogicalItem>)
    ensures items == ItemsOf(GroupOrder(rows), rows)
  {
    var groups, rowsByGroup := RowsByGroup(rows);
    items := [];
    for i := 0 to |groups|
      invariant ItemsOf(groups, rows) == items + ItemsOf(groups[i..], rows)
    {
      ItemsNext(groups, i, rows);
      var g := groups[i];
      var more := LogicalItemsFromDeleteGroup(rowsByGroup[g]);
      items := items + more;
    }
  }

  lemma {:induction false} GroupOrderIs(rows: seq<Row>)
    ensures forall g :: g in GroupOrder(rows) <==> exists r :: r in rows && GroupAt(r) == g
  {
    if rows != [] {
      GroupOrderIs(rows[..|rows| - 1]);
      assert rows == rows[..|rows| - 1] + [rows[|rows| - 1]];
    }
  }

  lemma LastRow(a: seq<Row>, b: seq<Row>)
    requires b != []
    ensures (a + b)[..|a + b| - 1] == a + b[..|b| - 1] && (a + b)[|a + b| - 1] == b[|b| - 1]
  {
  }

  lemma {:induction false} OneGroupOnly(run: seq<Row>, g: Id)
    requires run != [] && forall r :: r in run ==> GroupAt(r) == g
    ensures GroupOrder(run) == [g] && Select(run, g) == run && forall h :: h != g ==> Select(run, h) == []
  {
    var init, last := run[..|run| - 1], run[|run| - 1];
    assert GroupAt(last) == g by { assert last in run; }
    assert run == init + [last];
    if init == [] {
      assert GroupOrder(init) == [] && Select(init, g) == [];
    } else {
      forall r | r in init ensures GroupAt(r) == g { assert r in run; }
      OneGroupOnly(init, g);
    }
  }

  /** A run in front of rows of other groups comes first and is selected whole. */
  lemma {:induction false} RunFirst(run: seq<Row>, rest: seq<Row>, g: Id)
    requires run != [] && (forall r :: r in run ==> GroupAt(r) == g) && (forall r :: r in rest ==> GroupAt(r) != g)
    ensures GroupOrder(run + rest) == [g] + GroupOrder(rest)
    ensures Select(run + rest, g) == run
    ensures forall h :: h != g ==> Select(run + rest, h) == Select(rest, h)
    decreases |rest|
  {
    if rest == [] {
      assert run + rest == run;
      OneGroupOnly(run, g);
    } else {
      LastRow(run, rest);
      assert rest[|rest| - 1] in rest;
      RunFirst(run, rest[..|rest| - 1], g);
    }
  }

  lemma {:induction false} SameItems(order: seq<Id>, rows: seq<Row>, rest: seq<Row>)
    requires forall h :: h in order ==> Select(rows, h) == Select(rest, h)
    ensures ItemsOf(order, rows) == ItemsOf(order, rest)
  {
    if order != [] {
      assert order[0] in order;
      SameItems(order[1..], rows, rest);
    }
  }

  lemma ContiguousTail(rows: seq<Row>, n: nat)
    requires Contiguous(rows) && n <= |rows|
    ensures Contiguous(rows[n..]) && Contiguous(rows[..n])
  {
    forall i, k, j ensures NotSplit(rows[n..], i, k, j) { assert NotSplit(rows, n + i, n + k, n + j); }
    forall i, k, j ensures NotSplit(rows[..n], i, k, j) { assert NotSplit(rows, i, k, j); }
  }

  /** Grouping by a map, in order of first appearance, is grouping run by run. */
  lemma {:induction false} BatchIsLogical(rows: seq<Row>)
    requires Contiguous(rows)
    ensures ItemsOf(GroupOrder(rows), rows) == Logical(rows)
    decreases |rows|
  {
    if rows != [] {
      var n := RunLength(rows);
      var run, rest := rows[..n], rows[n..];
      RunIs(rows);
      assert rows == run + rest;
      var g := GroupAt(rows[0]);
      RunFirst(run, rest, g);
      GroupOrderIs(rest);
      SameItems(GroupOrder(rest), rows, rest);
      assert GroupOrder(rows)[1..] == GroupOrder(rest);
      ContiguousTail(rows, n);
      BatchIsLogical(rest);
    }
  }
}
