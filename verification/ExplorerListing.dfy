/** Listing a folder: collecting its entries, sorting them, and paging by cursor. */
module ExplorerListing {
  import opened Common
  import opened FolderPaths
  import opened ExplorerOrder

  // ------------------------------------------------------- collecting entries

  function UntilSlash(s: string): string { if s == "" || s[0] == '/' then "" else [s[0]] + UntilSlash(s[1..]) }

  function AfterSlash(s: string): string { if s == "" then "" else if s[0] == '/' then s[1..] else AfterSlash(s[1..]) }

  /** Where an object lies, seen from the folder: nowhere (the folder itself or its marker),
      directly in it, or in a subfolder, perhaps as the marker of that subfolder. */
  datatype Place = Nowhere | InFolder(name: string) | InSubfolder(name: string, marker: bool)

  function PlaceOf(key: string, prefix: string): Place
    requires prefix <= key
  {
    var relative := key[|prefix|..];
    if relative == "" then Nowhere
    else if '/' !in relative then (if IsMarker(key) then Nowhere else InFolder(relative))
    else InSubfolder(UntilSlash(relative), AfterSlash(relative) == MARKER)
  }

  datatype Located = Located(stored: Object, place: Place)

  function Locate(objects: seq<Object>, prefix: string): seq<Located>
    requires forall o :: o in objects ==> prefix <= o.key
  {
    seq(|objects|, i requires 0 <= i < |objects| =>
      assert objects[i] in objects; Located(objects[i], PlaceOf(objects[i].key, prefix)))
  }

  predicate IsIn(l: Located, name: string) { l.place.InSubfolder? && l.place.name == name }

  ghost predicate Occupied(ls: seq<Located>, name: string) { exists l :: l in ls && IsIn(l, name) }

  /** A subfolder is shown as empty when nothing but its marker lies in it. */
  ghost predicate OnlyMarker(ls: seq<Located>, name: string) {
    forall l :: l in ls && IsIn(l, name) ==> l.place.marker
  }

  function DirectoryEntry(prefix: string, name: string, isEmpty: bool): Entry {
    Entry(Directory, prefix + name + "/", name, isEmpty, None)
  }

  function FileEntry(l: Located): Entry
    requires l.place.InFolder?
  {
    Entry(File, l.stored.key, l.place.name, false, Some(l.stored))
  }

  ghost predicate DirectoryOk(dirs: map<string, Entry>, ls: seq<Located>, prefix: string, name: string)
    requires name in dirs
  {
    dirs[name] == DirectoryEntry(prefix, name, dirs[name].isEmpty) && (dirs[name].isEmpty <==> OnlyMarker(ls, name))
  }

  ghost predicate DirectoriesOk(dirs: map<string, Entry>, ls: seq<Located>, prefix: string) {
    && (forall name {:trigger Occupied(ls, name)} :: name in dirs <==> Occupied(ls, name))
    && (forall name {:trigger DirectoryOk(dirs, ls, prefix, name)} :: name in dirs ==> DirectoryOk(dirs, ls, prefix, name))
  }

  ghost predicate FileOk(files: map<string, Entry>, ls: seq<Located>, name: string)
    requires name in files
  {
    exists l :: l in ls && l.place == InFolder(name) && files[name] == FileEntry(l)
  }

  ghost predicate FilesOk(files: map<string, Entry>, ls: seq<Located>) {
    && (forall l :: l in ls && l.place.InFolder? ==> l.place.name in files)
    && (forall name {:trigger FileOk(files, ls, name)} :: name in files ==> FileOk(files, ls, name))
  }

  method AddDirectory(dirs: map<string, Entry>, l: Located, prefix: string, ghost ls: seq<Located>) returns (n: map<string, Entry>)
    requires DirectoriesOk(dirs, ls, prefix)
    ensures DirectoriesOk(n, ls + [l], prefix)
  {
    var all := ls + [l];
    forall name ensures Occupied(all, name) <==> Occupied(ls, name) || IsIn(l, name) {
      assert IsIn(l, name) ==> l in all;
    }
    forall name ensures OnlyMarker(all, name) <==> OnlyMarker(ls, name) && (IsIn(l, name) ==> l.place.marker) {
      assert l in all;
    }
    forall name | name in dirs ensures DirectoryOk(dirs, ls, prefix, name) {}
    if !l.place.InSubfolder? { return dirs; }
    var name := l.place.name;
    var isEmpty := if name in dirs then dirs[name].isEmpty else false;
    if l.place.marker {
      if name !in dirs { isEmpty := true; }
    } else {
      isEmpty := false;
    }
    assert name !in dirs ==> !Occupied(ls, name);
    return dirs[name := Entry(Directory, prefix + name + "/", name, isEmpty, None)];
  }

  method AddFile(files: map<string, Entry>, l: Located, ghost ls: seq<Located>) returns (n: map<string, Entry>)
    requires FilesOk(files, ls)
    ensures FilesOk(n, ls + [l])
  {
    var all := ls + [l];
    assert l in all;
    n := if l.place.InFolder? then files[l.place.name := Entry(File, l.stored.key, l.place.name, false, Some(l.stored))] else files;
    forall name | name in n ensures FileOk(n, all, name) {
      if !(l.place.InFolder? && l.place.name == name) { assert FileOk(files, ls, name); }
    }
  }

  /** The loop over the objects under the prefix. */
  method Collect(ls: seq<Located>, prefix: string) returns (dirs: map<string, Entry>, files: map<string, Entry>)
    ensures DirectoriesOk(dirs, ls, prefix) && FilesOk(files, ls)
  {
    dirs, files := map[], map[];
    for i := 0 to |ls|
      invariant DirectoriesOk(dirs, ls[..i], prefix) && FilesOk(files, ls[..i])
    {
      assert ls[..i + 1] == ls[..i] + [ls[i]];
      dirs := AddDirectory(dirs, ls[i], prefix, ls[..i]);
      files := AddFile(files, ls[i], ls[..i]);
    }
    assert ls[..|ls|] == ls;
  }

  // ------------------------------------------------------------- the entries

  /** Names and keys of the listed objects tell entries apart. */
  ghost predicate IsEntry(e: Entry, ls: seq<Located>, prefix: string, matches: string -> bool) {
    matches(e.name) &&
    match e.kind
    case Directory => Occupied(ls, e.name) && e == DirectoryEntry(prefix, e.name, e.isEmpty) && (e.isEmpty <==> OnlyMarker(ls, e.name))
    case File => exists l :: l in ls && l.place == InFolder(e.name) && e == FileEntry(l)
  }

  predicate Apart(entries: seq<Entry>, i: int, j: int) { 0 <= i < j < |entries| ==> !SameEntry(entries[i], entries[j]) }

  ghost predicate AllApart(entries: seq<Entry>) { forall i, j {:trigger Apart(entries, i, j)} :: Apart(entries, i, j) }

  /** Two objects never share a name in the folder. */
  predicate OneFilePerName(ls: seq<Located>) {
    forall i, j :: 0 <= i < j < |ls| && ls[i].place.InFolder? && ls[j].place.InFolder? ==> ls[i].place.name != ls[j].place.name
  }

  predicate DistinctKeys(objects: seq<Object>) { forall i, j :: 0 <= i < j < |objects| ==> objects[i].key != objects[j].key }

  lemma NamesDiffer(objects: seq<Object>, prefix: string)
    requires (forall o :: o in objects ==> prefix <= o.key) && DistinctKeys(objects)
    ensures OneFilePerName(Locate(objects, prefix))
  {
    forall i | 0 <= i < |objects| ensures objects[i].key == prefix + objects[i].key[|prefix|..] { assert objects[i] in objects; }
  }

  ghost predicate Chosen(entries: seq<Entry>, from: map<string, Entry>, left: set<string>, kind: Kind, matches: string -> bool) {
    forall e :: e in entries && e.kind == kind <==> e.name in from && e.name !in left && matches(e.name) && e == from[e.name]
  }

  /** One of the two loops that copy a map into the list, in whatever order the map yields. */
  method AppendMatching(entries: seq<Entry>, from: map<string, Entry>, kind: Kind, matches: string -> bool) returns (all: seq<Entry>)
    requires AllApart(entries) && forall e :: e in entries ==> e.kind != kind
    requires forall name :: name in from ==> from[name].kind == kind && from[name].name == name
    ensures AllApart(all) && Chosen(all, from, {}, kind, matches)
    ensures forall e :: e in all && e.kind != kind <==> e in entries
  {
    all := entries;
    var left := from.Keys;
    while left != {}
      invariant left <= from.Keys && AllApart(all) && Chosen(all, from, left, kind, matches)
      invariant forall e :: e in all && e.kind != kind <==> e in entries
      decreases |left|
    {
      var name :| name in left;
      if matches(name) {
        forall i, j ensures Apart(all + [from[name]], i, j) {
          assert Apart(all, i, j);
          assert 0 <= i < |all| ==> all[i] in all;
        }
        all := all + [from[name]];
      }
      left := left - {name};
    }
  }

  method CollectEntries(objects: seq<Object>, prefix: string, matches: string -> bool) returns (entries: seq<Entry>)
    requires (forall o :: o in objects ==> prefix <= o.key) && DistinctKeys(objects)
    ensures AllApart(entries) && forall e :: e in entries <==> IsEntry(e, Locate(objects, prefix), prefix, matches)
  {
    var ls := Locate(objects, prefix);
    NamesDiffer(objects, prefix);
    entries := EntriesOf(ls, prefix, matches);
  }

  method EntriesOf(ls: seq<Located>, prefix: string, matches: string -> bool) returns (entries: seq<Entry>)
    requires OneFilePerName(ls)
    ensures AllApart(entries) && forall e :: e in entries <==> IsEntry(e, ls, prefix, matches)
  {
    var dirs, files := Collect(ls, prefix);
    forall name | name in dirs ensures dirs[name].kind == Directory && dirs[name].name == name {
      assert DirectoryOk(dirs, ls, prefix, name);
    }
    forall name | name in files ensures files[name].kind == File && files[name].name == name {
      assert FileOk(files, ls, name);
    }
    var some := AppendMatching([], dirs, Directory, matches);
    entries := AppendMatching(some, files, File, matches);
    forall e ensures e in entries <==> IsEntry(e, ls, prefix, matches) {
      if e.kind == Directory { DirectoryEntries(dirs, ls, prefix, e); } else { FileEntries(files, ls, e); }
    }
  }

  lemma DirectoryEntries(dirs: map<string, Entry>, ls: seq<Located>, prefix: string, e: Entry)
    requires DirectoriesOk(dirs, ls, prefix) && e.kind == Directory
    ensures e.name in dirs && e == dirs[e.name] <==>
      Occupied(ls, e.name) && e == DirectoryEntry(prefix, e.name, e.isEmpty) && (e.isEmpty <==> OnlyMarker(ls, e.name))
  {
    if e.name in dirs { assert DirectoryOk(dirs, ls, prefix, e.name); }
  }

  lemma FileEntries(files: map<string, Entry>, ls: seq<Located>, e: Entry)
    requires FilesOk(files, ls) && OneFilePerName(ls) && e.kind == File
    ensures e.name in files && e == files[e.name] <==> exists l :: l in ls && l.place == InFolder(e.name) && e == FileEntry(l)
  {
    if e.name in files { assert FileOk(files, ls, e.name); }
    forall l | l in ls && l.place == InFolder(e.name) ensures files[e.name] == FileEntry(l) {
      assert FileOk(files, ls, e.name);
      var x :| x in ls && x.place == InFolder(e.name) && files[e.name] == FileEntry(x);
      var i :| 0 <= i < |ls| && ls[i] == l;
      var j :| 0 <= j < |ls| && ls[j] == x;
      assert i == j;
    }
  }

  // ----------------------------------------------------------------- sorting

  /** How a request wants its listing. */
  datatype View = View(lower: Lower, sortBy: SortBy, order: SortOrder)

  predicate Before(v: View, a: Entry, b: Entry) { Compare(v.lower, a, b, v.sortBy, v.order) < 0 }

  predicate InOrder(v: View, entries: seq<Entry>, i: int, j: int) { 0 <= i < j < |entries| ==> Before(v, entries[i], entries[j]) }

  ghost predicate Sorted(v: View, entries: seq<Entry>) { forall i, j {:trigger InOrder(v, entries, i, j)} :: InOrder(v, entries, i, j) }

  ghost predicate SameEntries(a: seq<Entry>, b: seq<Entry>) { forall e :: e in a <==> e in b }

  /** The order is total on the entries of one listing, so that whatever sorts them gives
      the same list. */
  lemma {:induction false} SortedIsUnique(v: View, a: seq<Entry>, b: seq<Entry>)
    requires Sorted(v, a) && Sorted(v, b) && SameEntries(a, b)
    ensures a == b
    decreases |a|
  {
    assert a != [] ==> a[0] in b;
    assert b != [] ==> b[0] in a;
    if a != [] {
      FirstIsLeast(v, a);
      FirstIsLeast(v, b);
      CompareSwaps(v.lower, a[0], b[0], v.sortBy, v.order);
      assert a[0] == b[0];
      SortedIsUnique(v, a[1..], b[1..]);
    }
  }

  /** The first entry comes before all others, and the rest is sorted too. */
  lemma FirstIsLeast(v: View, entries: seq<Entry>)
    requires Sorted(v, entries) && entries != []
    ensures Sorted(v, entries[1..]) && entries[0] !in entries[1..]
    ensures forall e :: e in entries[1..] ==> Before(v, entries[0], e)
    ensures forall e :: e in entries[1..] <==> e in entries && e != entries[0]
  {
    forall i, j ensures InOrder(v, entries[1..], i, j) { assert InOrder(v, entries, i + 1, j + 1); }
    forall e | e in entries[1..] ensures Before(v, entries[0], e) && e != entries[0] {
      var i :| 0 <= i < |entries[1..]| && entries[1..][i] == e;
      assert InOrder(v, entries, 0, i + 1);
      CompareSwaps(v.lower, e, e, v.sortBy, v.order);
    }
    assert entries == [entries[0]] + entries[1..];
  }

  /** Sorting, by insertion. */
  method Sort(v: View, entries: seq<Entry>) returns (sorted: seq<Entry>)
    requires AllApart(entries)
    ensures Sorted(v, sorted) && SameEntries(sorted, entries) && |sorted| == |entries|
  {
    sorted := [];
    for i := 0 to |entries|
      invariant Sorted(v, sorted) && SameEntries(sorted, entries[..i]) && |sorted| == i
    {
      assert entries[..i + 1] == entries[..i] + [entries[i]];
      forall e | e in sorted ensures !SameEntry(e, entries[i]) {
        assert e in entries[..i];
        var j :| 0 <= j < i && entries[j] == e;
        assert Apart(entries, j, i);
      }
      sorted := Insert(v, sorted, entries[i]);
    }
    assert entries[..|entries|] == entries;
  }

  method Insert(v: View, sorted: seq<Entry>, e: Entry) returns (n: seq<Entry>)
    requires Sorted(v, sorted) && forall x :: x in sorted ==> !SameEntry(x, e)
    ensures Sorted(v, n) && |n| == |sorted| + 1 && forall x :: x in n <==> x in sorted || x == e
  {
    var at := 0;
    while at < |sorted| && Before(v, sorted[at], e)
      invariant 0 <= at <= |sorted| && forall j :: 0 <= j < at ==> Before(v, sorted[j], e)
    {
      at := at + 1;
    }
    n := sorted[..at] + [e] + sorted[at..];
    Inserted(v, sorted, e, at);
    assert sorted == sorted[..at] + sorted[at..];
  }

  lemma Inserted(v: View, sorted: seq<Entry>, e: Entry, at: nat)
    requires Sorted(v, sorted) && at <= |sorted| && forall x :: x in sorted ==> !SameEntry(x, e)
    requires forall j :: 0 <= j < at ==> Before(v, sorted[j], e)
    requires at < |sorted| ==> !Before(v, sorted[at], e)
    ensures Sorted(v, sorted[..at] + [e] + sorted[at..])
  {
    var n := sorted[..at] + [e] + sorted[at..];
    forall j | at <= j < |sorted| ensures Before(v, e, sorted[j]) {
      assert sorted[at] in sorted;
      CompareSwaps(v.lower, e, sorted[at], v.sortBy, v.order);
      if at < j {
        assert InOrder(v, sorted, at, j);
        CompareTrans(v.lower, e, sorted[at], sorted[j], v.sortBy, v.order);
      }
    }
    forall i, j ensures InOrder(v, n, i, j) {
      if 0 <= i < j < |n| {
        assert InOrder(v, sorted, if i < at then i else i - 1, if j < at then j else j - 1);
      }
    }
  }

  // ------------------------------------------------------------------ paging

  datatype Page = Page(items: seq<Entry>, next: Option<Cursor>)

  /** The first `limit` entries, and a cursor unless they are all there are. */
  function PageOf(v: View, entries: seq<Entry>, limit: nat): Page
    requires limit > 0
  {
    if |entries| <= limit then Page(entries, None)
    else Page(entries[..limit], Some(CursorOf(entries[limit - 1], v.sortBy, v.order)))
  }

  /** The entries of a sorted listing that come after the cursor. */
  function Rest(v: View, entries: seq<Entry>, cursor: Option<Cursor>): seq<Entry> {
    if cursor.None? || entries == [] then entries
    else if Before(v, EntryOf(cursor.value), entries[0]) then entries
    else Rest(v, entries[1..], cursor)
  }

  /** The scan for the first entry after the cursor, and the cut of the page. */
  method CutPage(v: View, sorted: seq<Entry>, cursor: Option<Cursor>, limit: nat) returns (page: Page)
    requires limit > 0
    ensures page == PageOf(v, Rest(v, sorted, cursor), limit)
  {
    var start := 0;
    if cursor.Some? {
      var cursorEntry := EntryFromCursor(cursor.value);
      var index := 0;
      while index < |sorted|
        invariant 0 <= index <= |sorted| && start == index
        invariant Rest(v, sorted, cursor) == Rest(v, sorted[index..], cursor)
      {
        assert sorted[index..][0] == sorted[index] && sorted[index..][1..] == sorted[index + 1..];
        CompareSwaps(v.lower, sorted[index], cursorEntry, v.sortBy, v.order);
        if Compare(v.lower, sorted[index], cursorEntry, v.sortBy, v.order) > 0 {
          start := index;
          break;
        }
        start := index + 1;
        index := index + 1;
      }
    }
    var rest := sorted[start..];
    assert rest == Rest(v, sorted, cursor);
    if |rest| > limit {
      var next := CursorFromEntry(rest[limit - 1], v.sortBy, v.order);
      return Page(rest[..limit], Some(next));
    }
    return Page(rest, None);
  }

  const DEFAULT_LIMIT: nat := 100
  const MAX_LIMIT: nat := 200

  predicate RequestOk(v: View, limit: int, cursor: Option<Cursor>) {
    && 0 <= limit <= MAX_LIMIT
    && (cursor.Some? ==> Decodes(cursor.value) && cursor.value.sortBy == v.sortBy && cursor.value.order == v.order)
  }

  function EffectiveLimit(limit: int): nat
    requires 0 <= limit
  {
    if limit == 0 then DEFAULT_LIMIT else limit
  }

  /** The listing a folder has under a view. */
  ghost predicate IsListing(v: View, sorted: seq<Entry>, objects: seq<Object>, prefix: string, matches: string -> bool)
    requires forall o :: o in objects ==> prefix <= o.key
  {
    Sorted(v, sorted) && forall e :: e in sorted <==> IsEntry(e, Locate(objects, prefix), prefix, matches)
  }

  /** What a reader finds in a listing, object by object: a file for every object directly in
      the folder that is no marker, and a directory for every name that some object lies
      under, shown as empty when only its marker does. */
  ghost predicate ShownFile(e: Entry, objects: seq<Object>, prefix: string) {
    && e.name != "" && '/' !in e.name && !IsMarker(prefix + e.name)
    && exists o :: o in objects && o.key == prefix + e.name && e == Entry(File, o.key, e.name, false, Some(o))
  }

  predicate Under(key: string, folder: string) { folder <= key }

  ghost predicate ShownDirectory(e: Entry, objects: seq<Object>, prefix: string) {
    var folder := prefix + e.name + "/";
    && '/' !in e.name && e == Entry(Directory, folder, e.name, e.isEmpty, None)
    && (exists o :: o in objects && Under(o.key, folder))
    && (e.isEmpty <==> forall o :: o in objects && Under(o.key, folder) ==> o.key == folder + MARKER)
  }

  lemma {:induction false} CutAtSlash(s: string)
    ensures '/' !in UntilSlash(s)
    ensures '/' in s ==> s == UntilSlash(s) + "/" + AfterSlash(s)
  {
    if s != "" {
      var rest := s[1..];
      assert s == [s[0]] + rest;
      if s[0] != '/' {
        CutAtSlash(rest);
        if '/' in rest { assert s == ([s[0]] + UntilSlash(rest)) + "/" + AfterSlash(rest); }
      }
    }
  }

  lemma {:induction false} CutIsUnique(a: string, b: string)
    requires '/' !in a
    ensures UntilSlash(a + "/" + b) == a && AfterSlash(a + "/" + b) == b
  {
    if a == "" {
      assert (a + "/" + b)[1..] == b;
    } else {
      assert (a + "/" + b)[1..] == a[1..] + "/" + b;
      CutIsUnique(a[1..], b);
    }
  }

  /** Where an object lies, by its key alone. */
  lemma PlaceIs(key: string, prefix: string, name: string)
    requires prefix <= key
    ensures PlaceOf(key, prefix) == InFolder(name) <==> name != "" && '/' !in name && key == prefix + name && !IsMarker(key)
    ensures PlaceOf(key, prefix).InSubfolder? && PlaceOf(key, prefix).name == name <==>
      '/' !in name && Under(key, prefix + name + "/")
    ensures '/' !in name && Under(key, prefix + name + "/") ==>
      (PlaceOf(key, prefix).marker <==> key == prefix + name + "/" + MARKER)
  {
    var relative := key[|prefix|..];
    assert key == prefix + relative;
    CutAtSlash(relative);
    if '/' in relative {
      var cut, rest := UntilSlash(relative), AfterSlash(relative);
      assert key == prefix + cut + "/" + rest;
      if cut == name { assert Under(key, prefix + name + "/"); }
    }
    if '/' !in name && Under(key, prefix + name + "/") {
      var rest := key[|prefix + name + "/"|..];
      assert relative == name + "/" + rest;
      assert '/' in relative by { assert relative[|name|] == '/'; }
      CutIsUnique(name, rest);
      if key == prefix + name + "/" + MARKER { assert rest == MARKER; }
    }
    if key == prefix + name { assert relative == name; }
  }

  /** The entries of a listing are exactly those a reader should find, and each that stands
      above another belongs there. */
  lemma ListingMeans(v: View, sorted: seq<Entry>, objects: seq<Object>, prefix: string, matches: string -> bool)
    requires (forall o :: o in objects ==> prefix <= o.key) && IsListing(v, sorted, objects, prefix, matches)
    ensures forall e :: e in sorted <==>
      matches(e.name) && if e.kind == File then ShownFile(e, objects, prefix) else ShownDirectory(e, objects, prefix)
    ensures forall i, j :: 0 <= i < j < |sorted| ==> Above(v.lower, sorted[i], sorted[j], v.sortBy, v.order)
  {
    forall e ensures e in sorted <==>
      matches(e.name) && if e.kind == File then ShownFile(e, objects, prefix) else ShownDirectory(e, objects, prefix)
    {
      EntryMeans(e, objects, prefix, matches);
    }
    forall i, j | 0 <= i < j < |sorted| ensures Above(v.lower, sorted[i], sorted[j], v.sortBy, v.order) {
      assert InOrder(v, sorted, i, j) && sorted[i] in sorted && sorted[j] in sorted;
      CompareMeans(v.lower, sorted[i], sorted[j], v.sortBy, v.order);
    }
  }

  lemma EntryMeans(e: Entry, objects: seq<Object>, prefix: string, matches: string -> bool)
    requires forall o :: o in objects ==> prefix <= o.key
    ensures IsEntry(e, Locate(objects, prefix), prefix, matches) <==>
      matches(e.name) && if e.kind == File then ShownFile(e, objects, prefix) else ShownDirectory(e, objects, prefix)
  {
    if e.kind == File { FileMeans(e, objects, prefix); } else { DirectoryMeans(e, objects, prefix); }
  }

  lemma FileMeans(e: Entry, objects: seq<Object>, prefix: string)
    requires (forall o :: o in objects ==> prefix <= o.key) && e.kind == File
    ensures (exists l :: l in Locate(objects, prefix) && l.place == InFolder(e.name) && e == FileEntry(l)) <==> ShownFile(e, objects, prefix)
  {
    var ls := Locate(objects, prefix);
    if l :| l in ls && l.place == InFolder(e.name) && e == FileEntry(l) {
      var i :| 0 <= i < |ls| && ls[i] == l;
      assert objects[i] in objects;
      PlaceIs(objects[i].key, prefix, e.name);
    }
    if ShownFile(e, objects, prefix) {
      var o :| o in objects && o.key == prefix + e.name && e == Entry(File, o.key, e.name, false, Some(o));
      var i :| 0 <= i < |objects| && objects[i] == o;
      PlaceIs(o.key, prefix, e.name);
      assert ls[i] in ls && e == FileEntry(ls[i]);
    }
  }

  lemma DirectoryMeans(e: Entry, objects: seq<Object>, prefix: string)
    requires (forall o :: o in objects ==> prefix <= o.key) && e.kind == Directory
    ensures var ls := Locate(objects, prefix);
      (Occupied(ls, e.name) && e == DirectoryEntry(prefix, e.name, e.isEmpty) && (e.isEmpty <==> OnlyMarker(ls, e.name)))
      <==> ShownDirectory(e, objects, prefix)
  {
    var ls, folder := Locate(objects, prefix), prefix + e.name + "/";
    forall i | 0 <= i < |objects|
      ensures IsIn(ls[i], e.name) <==> '/' !in e.name && Under(objects[i].key, folder)
      ensures IsIn(ls[i], e.name) ==> (ls[i].place.marker <==> objects[i].key == folder + MARKER)
    {
      assert objects[i] in objects;
      PlaceIs(objects[i].key, prefix, e.name);
    }
    forall o | o in objects ensures exists i :: 0 <= i < |ls| && ls[i].stored == o {
      var i :| 0 <= i < |objects| && objects[i] == o;
      assert ls[i].stored == o;
    }
    forall i | 0 <= i < |ls| ensures ls[i] in ls && objects[i] in objects {}
  }

  /** ListExplorerEntries, on the objects under the prefix. */
  method ListExplorerEntries(objects: seq<Object>, prefix: string, matches: string -> bool, v: View, limit: int, cursor: Option<Cursor>)
    returns (page: Option<Page>, ghost sorted: seq<Entry>)
    requires (forall o :: o in objects ==> prefix <= o.key) && DistinctKeys(objects)
    ensures page.Some? <==> RequestOk(v, limit, cursor)
    ensures page.Some? ==> IsListing(v, sorted, objects, prefix, matches)
    ensures page.Some? ==> page.value == PageOf(v, Rest(v, sorted, cursor), EffectiveLimit(limit))
  {
    sorted := [];
    var effective := if limit == 0 then DEFAULT_LIMIT else limit;
    if effective < 1 || effective > MAX_LIMIT { return None, sorted; }
    if cursor.Some? && !Decodes(cursor.value) { return None, sorted; }
    if cursor.Some? && (cursor.value.sortBy != v.sortBy || cursor.value.order != v.order) { return None, sorted; }
    var entries := CollectEntries(objects, prefix, matches);
    var list := Sort(v, entries);
    sorted := list;
    var cut := CutPage(v, list, cursor, effective);
    return Some(cut), sorted;
  }

  // ------------------------------------------------------------- every page

  /** The entries of all pages, following `NextCursor` from `cursor` on. */
  function AllPages(v: View, sorted: seq<Entry>, cursor: Option<Cursor>, limit: nat): seq<Entry>
    requires limit > 0
    decreases |Rest(v, sorted, cursor)|
  {
    var page := PageOf(v, Rest(v, sorted, cursor), limit);
    if page.next.Some? && |Rest(v, sorted, page.next)| < |Rest(v, sorted, cursor)|
    then page.items + AllPages(v, sorted, page.next, limit)
    else page.items
  }

  /** Asking again with the cursor of an entry gives the entries after it. */
  lemma {:induction false} RestAfter(v: View, sorted: seq<Entry>, i: nat)
    requires Sorted(v, sorted) && (forall e :: e in sorted ==> Listed(e)) && i < |sorted|
    ensures Rest(v, sorted, Some(CursorOf(sorted[i], v.sortBy, v.order))) == sorted[i + 1..]
    decreases |sorted|
  {
    var c := CursorOf(sorted[i], v.sortBy, v.order);
    assert sorted[i] in sorted && sorted[0] in sorted;
    FirstIsLeast(v, sorted);
    ReducedEntryCompares(v.lower, sorted[0], sorted[i], v.sortBy, v.order);
    CompareSwaps(v.lower, EntryOf(c), sorted[0], v.sortBy, v.order);
    assert !Before(v, EntryOf(c), sorted[0]) by {
      if i > 0 { assert InOrder(v, sorted, 0, i); }
      CompareSwaps(v.lower, sorted[0], sorted[i], v.sortBy, v.order);
    }
    if i > 0 {
      RestAfter(v, sorted[1..], i - 1);
      assert sorted[1..][i..] == sorted[i + 1..];
    } else {
      AllAfter(v, sorted[1..], sorted[0]);
    }
  }

  /** Every entry is after the cursor. */
  lemma AllAfter(v: View, rest: seq<Entry>, e: Entry)
    requires Listed(e) && forall x :: x in rest ==> Before(v, e, x)
    ensures Rest(v, rest, Some(CursorOf(e, v.sortBy, v.order))) == rest
  {
    if rest != [] {
      assert rest[0] in rest;
      ReducedEntryCompares(v.lower, rest[0], e, v.sortBy, v.order);
      CompareSwaps(v.lower, rest[0], e, v.sortBy, v.order);
      CompareSwaps(v.lower, EntryOf(CursorOf(e, v.sortBy, v.order)), rest[0], v.sortBy, v.order);
    }
  }

  lemma {:induction false} PagesFrom(v: View, sorted: seq<Entry>, cursor: Option<Cursor>, i: nat, limit: nat)
    requires Sorted(v, sorted) && (forall e :: e in sorted ==> Listed(e)) && limit > 0
    requires i <= |sorted| && Rest(v, sorted, cursor) == sorted[i..]
    ensures AllPages(v, sorted, cursor, limit) == sorted[i..]
    decreases |sorted| - i
  {
    if |sorted| - i > limit {
      assert sorted[i..][limit - 1] == sorted[i + limit - 1];
      RestAfter(v, sorted, i + limit - 1);
      var next := Some(CursorOf(sorted[i + limit - 1], v.sortBy, v.order));
      PagesFrom(v, sorted, next, i + limit, limit);
      assert sorted[i..][..limit] + sorted[i + limit..] == sorted[i..];
    }
  }

  /** Following the cursors from the start, the pages put together are the sorted listing:
      no entry is skipped and none is shown twice, for every sort field, direction and page
      size. */
  lemma PagesAreTheListing(v: View, sorted: seq<Entry>, limit: nat)
    requires Sorted(v, sorted) && (forall e :: e in sorted ==> Listed(e)) && limit > 0
    ensures AllPages(v, sorted, None, limit) == sorted
  {
    assert sorted[0..] == sorted;
    PagesFrom(v, sorted, None, 0, limit);
  }

  /** The listing of a folder meets what paging asks of it. */
  lemma ListingIsPaged(v: View, sorted: seq<Entry>, objects: seq<Object>, prefix: string, matches: string -> bool, limit: nat)
    requires (forall o :: o in objects ==> prefix <= o.key) && IsListing(v, sorted, objects, prefix, matches) && limit > 0
    ensures AllPages(v, sorted, None, limit) == sorted
    ensures forall other :: IsListing(v, other, objects, prefix, matches) ==> other == sorted
  {
    forall e | e in sorted ensures Listed(e) { assert IsEntry(e, Locate(objects, prefix), prefix, matches); }
    PagesAreTheListing(v, sorted, limit);
    forall other | IsListing(v, other, objects, prefix, matches) ensures other == sorted {
      SortedIsUnique(v, other, sorted);
    }
  }

  /** Keys have no empty segments. */
  predicate NoEmptySegment(o: Object, prefix: string) { prefix <= o.key && (|o.key| > |prefix| ==> o.key[|prefix|] != '/') }

  /** Every cursor a page hands out is accepted with the next request. */
  lemma CursorsAccepted(v: View, sorted: seq<Entry>, objects: seq<Object>, prefix: string, matches: string -> bool, limit: int, i: nat)
    requires (forall o :: o in objects ==> prefix <= o.key && NoEmptySegment(o, prefix))
    requires IsListing(v, sorted, objects, prefix, matches) && i < |sorted| && 0 <= limit <= MAX_LIMIT
    ensures RequestOk(v, limit, Some(CursorOf(sorted[i], v.sortBy, v.order)))
  {
    var e, ls := sorted[i], Locate(objects, prefix);
    assert e in sorted && IsEntry(e, ls, prefix, matches);
    var l :| l in ls && (if e.kind == Directory then IsIn(l, e.name) else l.place == InFolder(e.name));
    var j :| 0 <= j < |ls| && ls[j] == l;
    assert objects[j] in objects && l.place == PlaceOf(objects[j].key, prefix);
  }
}
