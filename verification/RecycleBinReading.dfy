/**
  What a reader of the recycle bin sees, told on the rows of the bin alone: which groups,
  in which order, each under which row and with which size.
 */
module RecycleBinReading {
  import opened Common
  import opened FolderPaths
  import opened Metadata
  import opened BinGroups
  import opened RecycleBinGrouping
  import opened RecycleBinPaging
  import opened RecycleBinFolders

  /** The bytes of the files of a group, markers left out. */
  function FilesTotal(rows: seq<Row>, g: Id): int {
    if rows == [] then 0
    else (if GroupAt(rows[0]) == g && !IsMarkerRow(rows[0].bin) then rows[0].bin.file.size else 0) + FilesTotal(rows[1..], g)
  }

  function MarkerSize(r: Row): int { if IsMarkerRow(r.bin) then r.bin.file.size else 0 }

  /** A row that can stand for its group: it is the whole group, or the marker of a folder
      that holds every other row of it. */
  predicate StandsFor(head: Row, r: Row) {
    r == head || (IsMarkerRow(head.bin) && r.bin.key.bucket == head.bin.key.bucket && EntryPath(head.bin.key.key) <= r.bin.key.key)
  }

  /** The item shows a row that stands for its group, with the size of all of it. */
  ghost predicate Tells(t: ListedItem, rows: seq<Row>) {
    && t.row in rows
    && t.size == MarkerSize(t.row) + FilesTotal(rows, GroupAt(t.row))
    && forall r :: r in rows && GroupAt(r) == GroupAt(t.row) ==> StandsFor(t.row, r)
  }

  ghost predicate AllTell(items: seq<LogicalItem>, rows: seq<Row>) {
    forall i :: 0 <= i < |items| ==> Tells(items[i].item, rows)
  }

  ghost predicate NewestFirst(items: seq<LogicalItem>) {
    forall i, j :: 0 <= i < j < |items| ==> Newer(items[i].item.row, items[j].item.row)
  }

  lemma {:induction false} FilesTotalAppend(a: seq<Row>, b: seq<Row>, g: Id)
    ensures FilesTotal(a + b, g) == FilesTotal(a, g) + FilesTotal(b, g)
  {
    if a == [] {
      assert a + b == b;
    } else {
      assert (a + b)[1..] == a[1..] + b;
      FilesTotalAppend(a[1..], b, g);
    }
  }

  lemma {:induction false} OtherGroups(rows: seq<Row>, g: Id)
    requires forall r :: r in rows ==> GroupAt(r) != g
    ensures FilesTotal(rows, g) == 0
  {
    if rows != [] {
      assert rows[0] in rows;
      OtherGroups(rows[1..], g);
    }
  }

  lemma {:induction false} SizesAreTotal(rows: seq<Row>, g: Id)
    requires forall r :: r in rows ==> GroupAt(r) == g
    ensures FileSizes(Entries(rows)) == FilesTotal(rows, g)
  {
    if rows != [] {
      var init, last := rows[..|rows| - 1], rows[|rows| - 1];
      assert last in rows && rows == init + [last];
      SizesAreTotal(init, g);
      EntriesMore(rows, |rows| - 1);
      assert rows[..|rows| - 1 + 1] == rows;
      FilesTotalAppend(init, [last], g);
      assert [last][1..] == [];
    }
  }

  lemma AloneTells(first: Row)
    ensures |GroupItems([first])| == 1 && Tells(GroupItems([first])[0].item, [first])
  {
    RowIsOneItem(first);
    assert [first][1..] == [];
  }

  lemma FolderItem(run: seq<Row>, bucket: string, f: string) returns (head: Row)
    requires OneFolder(run, bucket, f)
    ensures |GroupItems(run)| == 1
    ensures GroupItems(run)[0].item == ListedItem(head, head.bin.file.size + FileSizes(Entries(run)))
    ensures head in run && IsMarkerRow(head.bin) && EntryPath(head.bin.key.key) == f
  {
    FolderIsOneItem(run, bucket, f);
    RowOfMarker(run, Directory(bucket, f));
    head := MarkersIn(Entries(run))[Directory(bucket, f)];
  }

  lemma HeadStands(run: seq<Row>, bucket: string, f: string, head: Row)
    requires OneFolder(run, bucket, f) && head in run && IsMarkerRow(head.bin) && EntryPath(head.bin.key.key) == f
    ensures forall r :: r in run ==> StandsFor(head, r)
  {
    forall r | r in run ensures StandsFor(head, r) { assert InFolder(r, bucket, f) && InFolder(head, bucket, f); }
  }

  lemma FolderTells(run: seq<Row>, bucket: string, f: string, g: Id)
    requires OneFolder(run, bucket, f) && forall r :: r in run ==> GroupAt(r) == g
    ensures |GroupItems(run)| == 1 && Tells(GroupItems(run)[0].item, run)
  {
    var head := FolderItem(run, bucket, f);
    HeadStands(run, bucket, f, head);
    SizesAreTotal(run, g);
  }

  /** The one item of a whole group tells the group. */
  lemma GroupTells(run: seq<Row>, bin: map<nat, BinRow>, next: nat)
    requires BinOk(bin, next) && ProperBin(bin) && run != [] && Sorted(run) && WholeGroups(run, bin)
    requires forall r :: r in run ==> GroupAt(r) == GroupAt(run[0])
    ensures |GroupItems(run)| == 1 && Tells(GroupItems(run)[0].item, run)
  {
    var first := run[0];
    assert first in run && Rooted(bin, first.id);
    if Alone(bin, first.id) {
      assert forall i :: 0 <= i < |run| ==> run[i] in run && run[i].id == first.id;
      assert InOrder(run, 0, 1);
      assert run == [first];
      AloneTells(first);
    } else {
      var m :| m in bin && Together(bin[m], bin[first.id]) && Roots(bin, m);
      var f, bucket := EntryPath(bin[m].key.key), bin[m].key.bucket;
      assert OneFolder(run, bucket, f) by {
        assert Row(m, bin[m]) in run;
        forall r | r in run ensures InFolder(r, bucket, f) {
          assert Together(bin[m], bin[r.id]) && Uniform(bin[m], bin[r.id]);
        }
      }
      FolderTells(run, bucket, f, GroupAt(first));
    }
  }

  lemma MoreTell(items: seq<LogicalItem>, later: seq<LogicalItem>, rows: seq<Row>, n: nat)
    requires 0 < n <= |rows| && items != [] && items[1..] == later
    requires Tells(items[0].item, rows[..n]) && AllTell(later, rows[n..])
    requires forall r :: r in rows[..n] ==> GroupAt(r) == GroupAt(rows[0])
    requires forall r :: r in rows[n..] ==> GroupAt(r) != GroupAt(rows[0])
    ensures AllTell(items, rows)
  {
    assert rows == rows[..n] + rows[n..];
    forall i | 0 <= i < |items| ensures Tells(items[i].item, rows) {
      var g := GroupAt(items[i].item.row);
      FilesTotalAppend(rows[..n], rows[n..], g);
      if i == 0 {
        OtherGroups(rows[n..], g);
      } else {
        assert items[i] == later[i - 1] && Tells(later[i - 1].item, rows[n..]);
        OtherGroups(rows[..n], g);
      }
    }
  }

  lemma MoreNewest(items: seq<LogicalItem>, later: seq<LogicalItem>, rows: seq<Row>, n: nat)
    requires Sorted(rows) && 0 < n <= |rows| && items != [] && items[1..] == later && NewestFirst(later)
    requires items[0].item.row in rows[..n] && ShowRows(later, rows[n..])
    ensures NewestFirst(items)
  {
    forall i, j | 0 <= i < j < |items| ensures Newer(items[i].item.row, items[j].item.row) {
      assert items[j] == later[j - 1] && (i > 0 ==> items[i] == later[i - 1]);
      if i == 0 {
        var a :| 0 <= a < n && rows[..n][a] == items[0].item.row;
        var b :| 0 <= b < |rows[n..]| && rows[n..][b] == later[j - 1].item.row;
        assert rows[a] == items[0].item.row && rows[n + b] == items[j].item.row;
        assert InOrder(rows, a, n + b);
      }
    }
  }

  lemma {:induction false} ListTells(f: Listing, rows: seq<Row>, bin: map<nat, BinRow>, next: nat)
    requires IsLogical(f) && BinOk(bin, next) && ProperBin(bin) && Sorted(rows) && Contiguous(rows) && WholeGroups(rows, bin)
    ensures AllTell(f(rows), rows) && NewestFirst(f(rows)) && ShowRows(f(rows), rows)
    decreases |rows|
  {
    if rows == [] {
      NoRows(f, rows);
    } else {
      var n := RunLength(rows);
      RunIs(rows);
      FirstGroup(rows, bin, n);
      GroupTells(rows[..n], bin, next);
      ContiguousTail(rows, n);
      ListTells(f, rows[n..], bin, next);
      OneRun(f, rows);
      var items, later := f(rows), f(rows[n..]);
      assert items[0] == GroupItems(rows[..n])[0] && items[1..] == later;
      MoreTell(items, later, rows, n);
      MoreNewest(items, later, rows, n);
      assert ShowRows(items, rows) by {
        forall i | 0 <= i < |items| ensures items[i].item.row in rows { assert Tells(items[i].item, rows); }
      }
    }
  }

  // ------------------------------------------------------------- on the whole bin

  predicate HeldIn(bin: map<nat, BinRow>, r: Row) { r.id in bin && bin[r.id] == r.bin }

  /** The bucket holds a row of the group. */
  ghost predicate GroupIn(bin: map<nat, BinRow>, bucket: string, g: Id) {
    exists i :: i in bin && bin[i].group == g && InBucket(Row(i, bin[i]), bucket)
  }

  ghost predicate GroupShown(items: seq<ListedItem>, g: Id) { exists i :: 0 <= i < |items| && GroupAt(items[i].row) == g }

  /** The items are a true picture of the bin: each shows a row of the bucket that stands for
      its group with the size of all of it; the groups shown are those of the bucket, each
      once; and the newest comes first. */
  ghost predicate Pictures(items: seq<ListedItem>, bin: map<nat, BinRow>, table: seq<Row>, bucket: string) {
    && (forall i :: 0 <= i < |items| ==> HeldIn(bin, items[i].row) && InBucket(items[i].row, bucket) && Tells(items[i], table))
    && (forall g {:trigger GroupShown(items, g)} :: GroupShown(items, g) <==> GroupIn(bin, bucket, g))
    && (forall i, j :: 0 <= i < j < |items| ==> GroupAt(items[i].row) != GroupAt(items[j].row))
    && (forall i, j :: 0 <= i < j < |items| ==> Newer(items[i].row, items[j].row))
  }

  lemma {:induction false} FilesTotalMatching(table: seq<Row>, bucket: string, g: Id)
    requires forall r :: r in table && GroupAt(r) == g ==> InBucket(r, bucket)
    ensures FilesTotal(Matching(table, bucket, None), g) == FilesTotal(table, g)
  {
    if table != [] {
      assert table[0] in table;
      FilesTotalMatching(table[1..], bucket, g);
      var rest := Matching(table[1..], bucket, None);
      if Selects(bucket, None, table[0]) {
        assert Matching(table, bucket, None) == [table[0]] + rest && ([table[0]] + rest)[1..] == rest;
      } else {
        SkipFirst(table, bucket, None);
      }
    }
  }

  lemma TellsOfTable(t: ListedItem, bin: map<nat, BinRow>, next: nat, table: seq<Row>, bucket: string)
    requires BinOk(bin, next) && ListingOf(table, bin) && Tells(t, Matching(table, bucket, None))
    ensures HeldIn(bin, t.row) && InBucket(t.row, bucket) && Tells(t, table)
  {
    var rows, g := Matching(table, bucket, None), GroupAt(t.row);
    MatchingIn(table, bucket, None);
    forall r | r in table && GroupAt(r) == g ensures InBucket(r, bucket) && r in rows {
      assert Together(bin[t.row.id], bin[r.id]) && Uniform(bin[t.row.id], bin[r.id]);
      MatchingAll(table, bucket, r);
    }
    FilesTotalMatching(table, bucket, g);
  }

  lemma GroupsOfTable(items: seq<LogicalItem>, bin: map<nat, BinRow>, table: seq<Row>, bucket: string, g: Id)
    requires ListingOf(table, bin) && OncePerGroup(items, Matching(table, bucket, None))
    ensures GroupShown(Items(items), g) <==> GroupIn(bin, bucket, g)
  {
    var rows := Matching(table, bucket, None);
    MatchingIn(table, bucket, None);
    assert HasGroup(items, g) <==> InRows(rows, g);
    assert GroupShown(Items(items), g) <==> HasGroup(items, g) by {
      if HasGroup(items, g) {
        var i :| 0 <= i < |items| && ShownGroup(items[i]) == g;
        assert Items(items)[i].row == items[i].item.row;
      }
      if GroupShown(Items(items), g) {
        var i :| 0 <= i < |Items(items)| && GroupAt(Items(items)[i].row) == g;
        assert ShownGroup(items[i]) == g;
      }
    }
    if GroupIn(bin, bucket, g) {
      var i :| i in bin && bin[i].group == g && InBucket(Row(i, bin[i]), bucket);
      MatchingAll(table, bucket, Row(i, bin[i]));
    }
    if InRows(rows, g) {
      var r :| r in rows && GroupAt(r) == g;
      assert r.id in bin && Row(r.id, bin[r.id]) == r;
    }
  }

  /** All pages put together are a true picture of the bucket, for every page size. */
  lemma PagesPicture(bin: map<nat, BinRow>, next: nat, table: seq<Row>, bucket: string, limit: nat)
    requires BinOk(bin, next) && ProperBin(bin) && ListingOf(table, bin) && limit > 0
    ensures Pictures(AllPages(table, bucket, None, limit), bin, table, bucket)
  {
    var rows := Matching(table, bucket, None);
    var logical := Logical(rows);
    PagingShowsEveryGroupOnce(bin, next, table, bucket, limit);
    WholeMatching(bin, next, table, bucket);
    var f: Listing := rows => Logical(rows);
    ListTells(f, rows, bin, next);
    assert f(rows) == logical;
    PictureOf(logical, bin, next, table, bucket);
  }

  lemma WholeMatching(bin: map<nat, BinRow>, next: nat, table: seq<Row>, bucket: string)
    requires BinOk(bin, next) && ListingOf(table, bin)
    ensures var rows := Matching(table, bucket, None); Sorted(rows) && WholeGroups(rows, bin)
  {
    var rows := Matching(table, bucket, None);
    MatchingSorted(table, bucket, None);
    MatchingIn(table, bucket, None);
    forall r, i | r in rows && i in bin && Together(r.bin, bin[i]) ensures Row(i, bin[i]) in rows {
      assert Uniform(bin[r.id], bin[i]);
      MatchingAll(table, bucket, Row(i, bin[i]));
    }
  }

  lemma PictureOf(logical: seq<LogicalItem>, bin: map<nat, BinRow>, next: nat, table: seq<Row>, bucket: string)
    requires BinOk(bin, next) && ListingOf(table, bin)
    requires AllTell(logical, Matching(table, bucket, None)) && NewestFirst(logical)
    requires OncePerGroup(logical, Matching(table, bucket, None))
    ensures Pictures(Items(logical), bin, table, bucket)
  {
    var items := Items(logical);
    forall i | 0 <= i < |items| ensures HeldIn(bin, items[i].row) && InBucket(items[i].row, bucket) && Tells(items[i], table) {
      TellsOfTable(logical[i].item, bin, next, table, bucket);
    }
    forall g ensures GroupShown(items, g) <==> GroupIn(bin, bucket, g) { GroupsOfTable(logical, bin, table, bucket, g); }
    forall i, j | 0 <= i < j < |items| ensures GroupAt(items[i].row) != GroupAt(items[j].row) {
      assert ShownGroup(logical[i]) != ShownGroup(logical[j]);
    }
  }
}
