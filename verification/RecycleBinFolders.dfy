/**
  A delete group shows as one logical item, so that paging a recycle bin that the system
  has filled shows every group exactly once.
 */
module RecycleBinFolders {
  import opened Common
  import opened FolderPaths
  import opened Metadata
  import opened BinGroups
  import opened RecycleBinGrouping
  import opened RecycleBinPaging

  // --------------------------------------------------------------- folder paths

  lemma {:induction false} LastSegmentStarts(s: string)
    ensures var n := |s| - |LastSegment(s)|;
      0 <= n <= |s| && s == s[..n] + LastSegment(s) && (n > 0 ==> s[n - 1] == '/')
  {
    if s != "" && s[|s| - 1] != '/' {
      var short := s[..|s| - 1];
      LastSegmentStarts(short);
      var n := |short| - |LastSegment(short)|;
      assert s == short + [s[|s| - 1]];
      assert s[..n] == short[..n];
    }
  }

  /** The key of a marker is its folder followed by the marker's name. */
  lemma MarkerKey(key: string)
    requires ProperKey(key) && IsMarker(key)
    ensures key == EntryPath(key) + MARKER && (EntryPath(key) != "" ==> EntryPath(key)[|EntryPath(key)| - 1] == '/')
  {
    assert StripSlashes(key) == key;
    LastSegmentStarts(key);
    var n := |key| - |MARKER|;
    assert key[n..] == MARKER && EntryPath(key) == key[..n];
  }

  predicate Lengthening(paths: seq<string>) { forall i, j :: 0 <= i < j < |paths| ==> |paths[i]| < |paths[j]| }

  lemma {:induction false} SlashPrefixesLengthen(s: string, from: nat)
    requires from <= |s|
    ensures Lengthening(SlashPrefixes(s, from))
    ensures forall p :: p in SlashPrefixes(s, from) ==> from < |p| <= |s|
    decreases |s| - from
  {
    if from < |s| { SlashPrefixesLengthen(s, from + 1); }
  }

  /** The candidates of an entry go from the shallowest folder to the deepest. */
  lemma CandidatesLengthen(path: string, includeSelf: bool)
    ensures Lengthening(AncestorPaths(path, includeSelf))
  {
    var trimmed := TrimSuffix(path, "/");
    SlashPrefixesLengthen(trimmed, 0);
  }

  /** A folder is among the candidates of every entry under it. */
  lemma FolderIsCandidate(f: string, path: string, includeSelf: bool)
    requires IsFolder(f) && f <= path
    requires if includeSelf then path[|path| - 1] == '/' else path[|path| - 1] != '/'
    ensures f in AncestorPaths(path, includeSelf)
  {
    var trimmed := TrimSuffix(path, "/");
    SlashPrefixesAre(trimmed, 0);
    assert path[|path| - 1..] == [path[|path| - 1]];
    if includeSelf && |f| == |path| {
      assert f == path && trimmed + "/" == f;
    } else {
      assert trimmed[..|f|] == f && trimmed[|f| - 1] == '/';
    }
  }

  // ------------------------------------------------------------------- owners

  ghost predicate Deep(markers: map<Directory, Row>, f: string) { forall d :: d in markers ==> |f| <= |d.path| }

  /** When the candidates lengthen and no marker is shallower than f, f is found. */
  lemma {:induction false} FirstIsRoot(paths: seq<string>, bucket: string, markers: map<Directory, Row>, f: string)
    requires Lengthening(paths) && f in paths && Directory(bucket, f) in markers && Deep(markers, f)
    ensures FirstIn(paths, bucket, markers) == Some(Directory(bucket, f))
  {
    if paths[0] != f {
      var i :| 0 <= i < |paths| && paths[i] == f;
      assert |paths[0]| < |paths[i]|;
      assert paths[1..][i - 1] == f;
      FirstIsRoot(paths[1..], bucket, markers, f);
    }
  }

  lemma {:induction false} MarkersInIs(entries: seq<Entry>)
    ensures forall e :: e in entries && e.isMarker ==> e.directory in MarkersIn(entries)
    ensures forall d :: d in MarkersIn(entries) ==>
      exists e :: e in entries && e.isMarker && e.directory == d && e.row == MarkersIn(entries)[d]
  {
    if entries != [] {
      var init := entries[..|entries| - 1];
      MarkersInIs(init);
      assert entries == init + [entries[|entries| - 1]];
    }
  }

  /** A group of several rows, as the grouping sees it: the marker of folder d is one of them,
      every row has d among its candidates, and no marker is shallower. */
  predicate Under(e: Entry, d: Directory) {
    && e.directory.bucket == d.bucket && d.path in e.candidates && Lengthening(e.candidates)
    && (e.isMarker ==> |d.path| <= |e.directory.path|)
  }

  ghost predicate Tree(entries: seq<Entry>, d: Directory) {
    && (forall e {:trigger Under(e, d)} :: e in entries ==> Under(e, d))
    && exists e :: e in entries && e.isMarker && e.directory == d
  }

  /** Every row of such a group is owned by the folder that was deleted. */
  lemma OwnedByRoot(entries: seq<Entry>, d: Directory, e: Entry)
    requires Tree(entries, d) && e in entries
    ensures Owner(MarkersIn(entries), e) == Some(d)
  {
    var markers := MarkersIn(entries);
    MarkersInIs(entries);
    forall x | x in markers ensures |d.path| <= |x.path| {
      var m :| m in entries && m.isMarker && m.directory == x && m.row == markers[x];
      assert Under(m, d);
    }
    assert Under(e, d);
    FirstIsRoot(e.candidates, d.bucket, markers, d.path);
  }

  // ------------------------------------------------------------- one item each

  function SizeOfFile(e: Entry): int { if e.isMarker then 0 else e.row.bin.file.size }

  /** The bytes of the files among the rows. */
  function FileSizes(entries: seq<Entry>): int {
    if entries == [] then 0 else FileSizes(entries[..|entries| - 1]) + SizeOfFile(entries[|entries| - 1])
  }

  /** What the rows so far have come to. */
  function Summary(head: Row, d: Directory, size: int, last: Row): Grouping {
    Grouping([LogicalItem(ListedItem(head, head.bin.file.size + size), CursorOf(last))], map[d := 0])
  }

  lemma {:induction false} OwnedRows(entries: seq<Entry>, markers: map<Directory, Row>, d: Directory)
    requires entries != [] && d in markers && forall e :: e in entries ==> Owner(markers, e) == Some(d)
    ensures GroupEntries(entries, markers) == Summary(markers[d], d, FileSizes(entries), entries[|entries| - 1].row)
  {
    var init, last := entries[..|entries| - 1], entries[|entries| - 1];
    assert last in entries;
    if init != [] { OwnedRows(init, markers, d); }
  }

  /** The group shows as its shallowest marker, with the marker's size plus the sizes of the
      files below it, and the cursor of its last row. */
  lemma TreeIsOneItem(entries: seq<Entry>, d: Directory)
    requires Tree(entries, d)
    ensures d in MarkersIn(entries)
    ensures GroupEntries(entries, MarkersIn(entries)) ==
      Summary(MarkersIn(entries)[d], d, FileSizes(entries), entries[|entries| - 1].row)
  {
    var markers := MarkersIn(entries);
    MarkersInIs(entries);
    forall e | e in entries ensures Owner(markers, e) == Some(d) { OwnedByRoot(entries, d, e); }
    OwnedRows(entries, markers, d);
  }

  // -------------------------------------------------------- rows of one delete

  predicate InFolder(r: Row, bucket: string, f: string) {
    r.bin.key.bucket == bucket && UnderFolder(r.bin, f) && ProperKey(r.bin.key.key)
  }

  /** As a recursive delete leaves it: the marker of folder f is one of the rows, and all of
      them lie in f. */
  ghost predicate OneFolder(rows: seq<Row>, bucket: string, f: string) {
    && IsFolder(f) && (forall r {:trigger InFolder(r, bucket, f)} :: r in rows ==> InFolder(r, bucket, f))
    && exists r :: r in rows && IsMarkerRow(r.bin) && EntryPath(r.bin.key.key) == f
  }

  lemma EntryUnder(r: Row, bucket: string, f: string)
    requires InFolder(r, bucket, f) && IsFolder(f)
    ensures Under(EntryOf(r), Directory(bucket, f))
  {
    var key := r.bin.key.key;
    EntryUnderFolder(f, key);
    if IsMarker(key) { MarkerKey(key); }
    FolderIsCandidate(f, EntryPath(key), IsMarker(key));
    CandidatesLengthen(EntryPath(key), IsMarker(key));
  }

  lemma FolderIsTree(rows: seq<Row>, bucket: string, f: string)
    requires OneFolder(rows, bucket, f)
    ensures Tree(Entries(rows), Directory(bucket, f))
  {
    var entries := Entries(rows);
    forall e | e in entries ensures Under(e, Directory(bucket, f)) {
      var i :| 0 <= i < |entries| && entries[i] == e;
      assert InFolder(rows[i], bucket, f);
      EntryUnder(rows[i], bucket, f);
    }
    var m :| m in rows && IsMarkerRow(m.bin) && EntryPath(m.bin.key.key) == f;
    var i :| 0 <= i < |rows| && rows[i] == m;
    assert InFolder(m, bucket, f) && entries[i] == EntryOf(m);
  }

  lemma RowOfMarker(rows: seq<Row>, d: Directory)
    requires d in MarkersIn(Entries(rows))
    ensures var head := MarkersIn(Entries(rows))[d];
      head in rows && EntryOf(head).isMarker && EntryOf(head).directory == d
  {
    var entries := Entries(rows);
    MarkersInIs(entries);
    var e :| e in entries && e.isMarker && e.directory == d && e.row == MarkersIn(entries)[d];
    var i :| 0 <= i < |entries| && entries[i] == e;
    assert e == EntryOf(rows[i]) && rows[i] in rows;
  }

  /** A deleted folder shows as one item: its own marker, with the marker's size plus the
      sizes of the files below it, and the cursor of its last row. */
  lemma FolderIsOneItem(rows: seq<Row>, bucket: string, f: string)
    requires OneFolder(rows, bucket, f)
    ensures var entries, d := Entries(rows), Directory(bucket, f);
      && d in MarkersIn(entries)
      && GroupItems(rows) == Summary(MarkersIn(entries)[d], d, FileSizes(entries), rows[|rows| - 1]).items
  {
    FolderIsTree(rows, bucket, f);
    TreeIsOneItem(Entries(rows), Directory(bucket, f));
    LastEntry(rows);
  }

  lemma LastEntry(rows: seq<Row>)
    requires rows != []
    ensures Entries(rows)[|Entries(rows)| - 1].row == rows[|rows| - 1]
  {
  }

  /** A row on its own shows as itself. */
  lemma RowIsOneItem(r: Row)
    ensures GroupItems([r]) == [Shown(r, r)]
  {
    var e := EntryOf(r);
    assert Entries([r]) == [e] && [e][..0] == [];
    assert MarkersIn([]) == map[] && GroupEntries([], MarkersIn([e])) == Grouping([], map[]);
    MarkersInIs([e]);
  }

  // ------------------------------------------------- the bin as the system fills it

  /** The rows of the bin, newest first. */
  ghost predicate ListingOf(table: seq<Row>, bin: map<nat, BinRow>) {
    && Sorted(table)
    && (forall r :: r in table ==> r.id in bin && bin[r.id] == r.bin)
    && (forall i :: i in bin ==> Row(i, bin[i]) in table)
  }

  ghost predicate ProperBin(bin: map<nat, BinRow>) { forall i :: i in bin ==> ProperKey(bin[i].key.key) }

  lemma {:induction false} MatchingSorted(table: seq<Row>, bucket: string, cursor: Option<Cursor>)
    requires Sorted(table)
    ensures Sorted(Matching(table, bucket, cursor))
  {
    if table != [] {
      SortedTail(table);
      MatchingSorted(table[1..], bucket, cursor);
      MatchingIn(table[1..], bucket, cursor);
      var rows, rest := Matching(table, bucket, cursor), Matching(table[1..], bucket, cursor);
      forall i, j ensures InOrder(rows, i, j) {
        if rows == [table[0]] + rest {
          if 0 < i { assert InOrder(rest, i - 1, j - 1); }
          else if 0 == i < j < |rows| { assert rows[j] == rest[j - 1] && rest[j - 1] in rest; }
        } else {
          assert InOrder(rest, i, j);
        }
      }
    }
  }

  lemma {:induction false} MatchingAll(table: seq<Row>, bucket: string, r: Row)
    requires r in table && Selects(bucket, None, r)
    ensures r in Matching(table, bucket, None)
  {
    if table[0] != r { MatchingAll(table[1..], bucket, r); }
  }

  /** Part of a listing that has the whole of each of its groups. */
  ghost predicate WholeGroups(rows: seq<Row>, bin: map<nat, BinRow>) {
    && (forall r :: r in rows ==> r.id in bin && bin[r.id] == r.bin)
    && (forall r, i :: r in rows && i in bin && Together(r.bin, bin[i]) ==> Row(i, bin[i]) in rows)
  }

  lemma GroupsTogether(rows: seq<Row>, bin: map<nat, BinRow>, next: nat)
    requires BinOk(bin, next) && Sorted(rows) && forall r :: r in rows ==> r.id in bin && bin[r.id] == r.bin
    ensures Orderly(rows)
  {
    forall i, j ensures OneTime(rows, i, j) {
      if 0 <= i < j < |rows| {
        assert rows[i] in rows && rows[j] in rows;
        assert Uniform(bin[rows[i].id], bin[rows[j].id]);
      }
    }
    forall i, k, j ensures NotSplit(rows, i, k, j) {
      if 0 <= i < k < j < |rows| {
        assert rows[i] in rows && rows[k] in rows && rows[j] in rows;
        assert InOrder(rows, i, k) && InOrder(rows, k, j);
        assert Uniform(bin[rows[i].id], bin[rows[j].id]);
        assert NotBetween(bin, rows[j].id, rows[k].id, rows[i].id);
      }
    }
  }

  /** One whole group of the bin is one item. */
  lemma GroupIsOneItem(run: seq<Row>, bin: map<nat, BinRow>, next: nat)
    requires BinOk(bin, next) && ProperBin(bin) && run != [] && Sorted(run) && WholeGroups(run, bin)
    requires forall r :: r in run ==> GroupAt(r) == GroupAt(run[0])
    ensures OneItem(run)
  {
    var first := run[0];
    assert first in run && Rooted(bin, first.id);
    if Alone(bin, first.id) {
      assert forall i :: 0 <= i < |run| ==> run[i] in run && run[i].id == first.id;
      assert InOrder(run, 0, 1);
      assert run == [first];
      RowIsOneItem(first);
    } else {
      var m :| m in bin && Together(bin[m], bin[first.id]) && Roots(bin, m);
      var f, bucket := EntryPath(bin[m].key.key), bin[m].key.bucket;
      assert Row(m, bin[m]) in run;
      forall r | r in run ensures InFolder(r, bucket, f) {
        assert Together(bin[m], bin[r.id]) && Uniform(bin[m], bin[r.id]);
      }
      FolderIsOneItem(run, bucket, f);
      RowOfMarker(run, Directory(bucket, f));
    }
  }

  lemma {:induction false} WholeGroupsSingle(g: seq<Row> -> bool, rows: seq<Row>, bin: map<nat, BinRow>, next: nat)
    requires IsSingle(g) && BinOk(bin, next) && ProperBin(bin) && Sorted(rows) && Contiguous(rows) && WholeGroups(rows, bin)
    ensures g(rows)
    decreases |rows|
  {
    assert At(rows);
    if rows != [] {
      var n := RunLength(rows);
      RunIs(rows);
      FirstGroup(rows, bin, n);
      GroupIsOneItem(rows[..n], bin, next);
      ContiguousTail(rows, n);
      WholeGroupsSingle(g, rows[n..], bin, next);
      assert At(rows[n..]);
    }
  }

  lemma FirstGroup(rows: seq<Row>, bin: map<nat, BinRow>, n: nat)
    requires Sorted(rows) && WholeGroups(rows, bin) && 0 < n <= |rows|
    requires forall i :: 0 <= i < n ==> GroupAt(rows[i]) == GroupAt(rows[0])
    requires forall i :: n <= i < |rows| ==> GroupAt(rows[i]) != GroupAt(rows[0])
    ensures Sorted(rows[..n]) && Sorted(rows[n..]) && WholeGroups(rows[..n], bin) && WholeGroups(rows[n..], bin)
    ensures forall r :: r in rows[..n] ==> GroupAt(r) == GroupAt(rows[..n][0])
  {
    var run, rest := rows[..n], rows[n..];
    assert rows == run + rest;
    forall i, j ensures InOrder(run, i, j) { assert InOrder(rows, i, j); }
    forall i, j ensures InOrder(rest, i, j) { assert InOrder(rows, n + i, n + j); }
    forall r, i | r in run && i in bin && Together(r.bin, bin[i]) ensures Row(i, bin[i]) in run {
      assert r in rows && Row(i, bin[i]) in rows && GroupAt(Row(i, bin[i])) == GroupAt(rows[0]);
      assert Row(i, bin[i]) !in rest;
    }
    forall r, i | r in rest && i in bin && Together(r.bin, bin[i]) ensures Row(i, bin[i]) in rest {
      assert r in rows && Row(i, bin[i]) in rows && GroupAt(Row(i, bin[i])) != GroupAt(rows[0]);
      assert Row(i, bin[i]) !in run;
    }
  }

  /** Paging through a bin that keeps its delete groups shows every group of the bucket
      exactly once, newest first, whatever the page size. */
  lemma PagingShowsEveryGroupOnce(bin: map<nat, BinRow>, next: nat, table: seq<Row>, bucket: string, limit: nat)
    requires BinOk(bin, next) && ProperBin(bin) && ListingOf(table, bin) && limit > 0
    ensures var rows := Matching(table, bucket, None);
      && Orderly(rows) && Single(rows)
      && AllPages(table, bucket, None, limit) == Items(Logical(rows))
      && OncePerGroup(Logical(rows), rows)
  {
    var rows := Matching(table, bucket, None);
    MatchingSorted(table, bucket, None);
    MatchingIn(table, bucket, None);
    GroupsTogether(rows, bin, next);
    forall r, i | r in rows && i in bin && Together(r.bin, bin[i]) ensures Row(i, bin[i]) in rows {
      assert Uniform(bin[r.id], bin[i]);
      MatchingAll(table, bucket, Row(i, bin[i]));
    }
    var g := rows => Single(rows);
    WholeGroupsSingle(g, rows, bin, next);
    PagesAreTheList(table, bucket, None, limit);
    EachGroupOnce(rows);
  }
}
