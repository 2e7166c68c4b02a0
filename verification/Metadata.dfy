/**
  The metadata tables (buckets, objects, recycle bin) beside the ledger, and the service
  transactions that move rows between them. A transaction never invents or loses a
  reference: what the tables hold afterwards, plus what it releases, is what they held
  before, plus what it publishes.
 */
module Metadata {
  import opened Common
  import opened LedgerTransactions
  import opened LedgerInvariant
  import opened BooksKept
  import opened FolderPaths

  datatype Attrs = Attrs(
    filename: string, contentType: string, etag: string, fingerprint: Option<string>,
    visibility: string, createdAt: Time)

  datatype File = File(storagePath: Path, size: int, attrs: Attrs)

  datatype Key = Key(bucket: string, key: string)

  datatype BinRow = BinRow(group: Id, key: Key, file: File, deletedAt: Time)

  datatype Db = Db(
    ledger: Ledger,
    buckets: set<string>,
    objects: map<Key, File>,
    bin: map<nat, BinRow>,
    nextBinId: nat)

  datatype DbResult = Done(db: Db) | Failed(error: Error)

  // ------------------------------------------------ references of the tables

  function RefOf(f: File): multiset<Ref> {
    if f.storagePath == Empty then multiset{} else multiset{Ref(f.storagePath, f.size)}
  }

  ghost function RefsIn<K, V>(rows: map<K, V>, file: V -> File): multiset<Ref>
    decreases |rows|
  {
    if rows == map[] then multiset{}
    else var k :| k in rows;
      assert |rows - {k}| < |rows| by { assert (rows - {k}).Keys == rows.Keys - {k}; }
      RefOf(file(rows[k])) + RefsIn(rows - {k}, file)
  }

  lemma {:induction false} RefsRemove<K, V>(rows: map<K, V>, file: V -> File, k: K)
    requires k in rows
    ensures RefsIn(rows, file) == RefOf(file(rows[k])) + RefsIn(rows - {k}, file)
    decreases |rows|
  {
    var c :| c in rows && RefsIn(rows, file) == RefOf(file(rows[c])) + RefsIn(rows - {c}, file);
    if c != k {
      assert (rows - {c}).Keys == rows.Keys - {c};
      assert (rows - {k}).Keys == rows.Keys - {k};
      assert rows - {c} - {k} == rows - {k} - {c};
      RefsRemove(rows - {c}, file, k);
      RefsRemove(rows - {k}, file, c);
    }
  }

  lemma RefsPut<K, V>(rows: map<K, V>, file: V -> File, k: K, v: V)
    ensures RefsIn(rows[k := v], file) == RefOf(file(v)) + RefsIn(rows - {k}, file)
  {
    assert rows[k := v] - {k} == rows - {k};
    RefsRemove(rows[k := v], file, k);
  }

  lemma RefsAdd<K, V>(rows: map<K, V>, file: V -> File, k: K, v: V)
    requires k !in rows
    ensures RefsIn(rows[k := v], file) == RefOf(file(v)) + RefsIn(rows, file)
  {
    assert rows[k := v] - {k} == rows;
    RefsRemove(rows[k := v], file, k);
  }

  function Itself(f: File): File { f }
  function FileOf(r: BinRow): File { r.file }

  /** Every reference the two metadata tables hold. */
  ghost function Refs(db: Db): multiset<Ref> {
    RefsIn(db.objects, Itself) + RefsIn(db.bin, FileOf)
  }

  /** The database passes the audit: the ledger invariant against the metadata tables. */
  ghost predicate Audited(db: Db) { Books(db.ledger, Refs(db)) }

  function RefsOf(files: seq<File>): multiset<Ref> {
    if files == [] then multiset{} else RefOf(files[0]) + RefsOf(files[1..])
  }

  /** countStoragePaths: the nonempty paths, with multiplicity. */
  function CountPaths(files: seq<File>): multiset<Path> {
    if files == [] then multiset{}
    else (if files[0].storagePath == Empty then multiset{} else multiset{files[0].storagePath}) + CountPaths(files[1..])
  }

  lemma {:induction false} CountsMatch(files: seq<File>, path: Path, size: int)
    requires path != Empty
    requires forall f :: f in files && f.storagePath == path ==> f.size == size
    ensures CountPaths(files)[path] == RefsOf(files)[Ref(path, size)]
  {
    if files != [] {
      assert files[0] in files;
      CountsMatch(files[1..], path, size);
    }
  }

  lemma {:induction false} RefsOfMember(files: seq<File>, f: File)
    requires f in files && f.storagePath != Empty
    ensures Ref(f.storagePath, f.size) in RefsOf(files)
  {
    if files[0] != f { RefsOfMember(files[1..], f); }
  }

  lemma {:induction false} CountedPathNamed(files: seq<File>, p: Path)
    requires p in CountPaths(files)
    ensures Names(RefsOf(files), p)
  {
    if files[0].storagePath == p && p != Empty {
      RefsOfMember(files, files[0]);
    } else {
      CountedPathNamed(files[1..], p);
      var r :| r in RefsOf(files[1..]) && r.path == p;
      assert RefsOf(files) == RefOf(files[0]) + RefsOf(files[1..]);
      assert r in RefsOf(files);
    }
  }

  /** Releasing the paths of some rows takes away exactly the references of those rows. */
  lemma RowsBack(l: Ledger, refs: multiset<Ref>, files: seq<File>)
    requires PathsOk(l) && RefsOk(l, refs) && RefsOf(files) <= refs
    ensures Backs(l, refs, RefsOf(files), CountPaths(files))
  {
    forall b | b in l.blobs && l.blobs[b].status == Active
      ensures Counted(l.blobs[b], RefsOf(files), CountPaths(files))
    {
      var blob := l.blobs[b];
      assert NamedOnce(blob);
      forall f | f in files && f.storagePath == blob.storagePath ensures f.size == blob.size {
        RefsOfMember(files, f);
        assert ActiveAt(l, Ref(f.storagePath, f.size));
        var a :| a in l.blobs && l.blobs[a].storagePath == f.storagePath && l.blobs[a].size == f.size;
        OneHolder(l, a, b);
      }
      CountsMatch(files, blob.storagePath, blob.size);
    }
    forall p | p in CountPaths(files) ensures Names(RefsOf(files), p) { CountedPathNamed(files, p); }
  }

  /** Releasing the paths of rows that have been taken out of the tables. */
  lemma ReleaseRowsKeeps(l: Ledger, refs: multiset<Ref>, left: multiset<Ref>, files: seq<File>, now: Time)
    requires Books(l, refs) && left + RefsOf(files) == refs
    ensures ReleaseRefs(l, CountPaths(files), now) == Ok(AfterRelease(l, CountPaths(files), now))
    ensures Keeps(l, Ok(AfterRelease(l, CountPaths(files), now)), left, NOTHING)
  {
    forall x ensures RefsOf(files)[x] <= refs[x] { assert refs[x] == left[x] + RefsOf(files)[x]; }
    RowsBack(l, refs, files);
    ReleaseRefsKeeps(l, refs, RefsOf(files), CountPaths(files), now);
    assert refs - RefsOf(files) == left;
  }

  // --------------------------------------------------------- moving the rows

  function FilesAt(objects: map<Key, File>, keys: seq<Key>): seq<File>
    requires forall k :: k in keys ==> k in objects
  {
    if keys == [] then [] else [objects[keys[0]]] + FilesAt(objects, keys[1..])
  }

  function BinFiles(bin: map<nat, BinRow>, ids: seq<nat>): seq<File>
    requires forall i :: i in ids ==> i in bin
  {
    if ids == [] then [] else [bin[ids[0]].file] + BinFiles(bin, ids[1..])
  }

  predicate Distinct<T(==)>(s: seq<T>) { forall i, j :: 0 <= i < j < |s| ==> s[i] != s[j] }

  /** DELETE ... WHERE id IN (...). */
  function Drop<K(==,!new), V>(rows: map<K, V>, keys: seq<K>): (r: map<K, V>)
    ensures forall k :: k in r <==> k in rows && k !in keys
    ensures forall k :: k in r ==> r[k] == rows[k]
    decreases |keys|
  {
    if keys == [] then rows else Drop(rows - {keys[0]}, keys[1..])
  }

  lemma {:induction false} DropObjectsRefs(objects: map<Key, File>, keys: seq<Key>)
    requires Distinct(keys) && forall k :: k in keys ==> k in objects
    ensures RefsIn(objects, Itself) == RefsIn(Drop(objects, keys), Itself) + RefsOf(FilesAt(objects, keys))
    decreases |keys|
  {
    if keys != [] {
      var rest := objects - {keys[0]};
      RefsRemove(objects, Itself, keys[0]);
      forall j | j in keys[1..] ensures j in rest && rest[j] == objects[j] {}
      DropObjectsRefs(rest, keys[1..]);
      SameFilesAt(objects, rest, keys[1..]);
    }
  }

  lemma {:induction false} SameFilesAt(a: map<Key, File>, b: map<Key, File>, keys: seq<Key>)
    requires forall k :: k in keys ==> k in a && k in b && a[k] == b[k]
    ensures FilesAt(a, keys) == FilesAt(b, keys)
  {
    if keys != [] { SameFilesAt(a, b, keys[1..]); }
  }

  lemma {:induction false} DropBinRefs(bin: map<nat, BinRow>, ids: seq<nat>)
    requires Distinct(ids) && forall i :: i in ids ==> i in bin
    ensures RefsIn(bin, FileOf) == RefsIn(Drop(bin, ids), FileOf) + RefsOf(BinFiles(bin, ids))
    decreases |ids|
  {
    if ids != [] {
      var rest := bin - {ids[0]};
      RefsRemove(bin, FileOf, ids[0]);
      forall j | j in ids[1..] ensures j in rest && rest[j] == bin[j] {}
      DropBinRefs(rest, ids[1..]);
      SameBinFiles(bin, rest, ids[1..]);
    }
  }

  lemma {:induction false} SameBinFiles(a: map<nat, BinRow>, b: map<nat, BinRow>, ids: seq<nat>)
    requires forall i :: i in ids ==> i in a && i in b && a[i] == b[i]
    ensures BinFiles(a, ids) == BinFiles(b, ids)
  {
    if ids != [] { SameBinFiles(a, b, ids[1..]); }
  }

  // ----------------------------------------------------- deleting into the bin

  /** One batch insert: consecutive fresh ids, one group, one timestamp. */
  function BinInsert(bin: map<nat, BinRow>, first: nat, rows: seq<BinRow>): map<nat, BinRow>
    decreases |rows|
  {
    if rows == [] then bin else BinInsert(bin[first := rows[0]], first + 1, rows[1..])
  }

  function BinRows(objects: map<Key, File>, keys: seq<Key>, group: Id, at: Time): seq<BinRow>
    requires forall k :: k in keys ==> k in objects
  {
    if keys == [] then []
    else [BinRow(group, keys[0], objects[keys[0]], at)] + BinRows(objects, keys[1..], group, at)
  }

  /** Move objects into the bin as one delete group, followed by `extra` rows that hold no
      storage (the synthetic marker of a folder). */
  function Recycle(db: Db, keys: seq<Key>, group: Id, at: Time, extra: seq<BinRow>): Db
    requires forall k :: k in keys ==> k in db.objects
  {
    var rows := BinRows(db.objects, keys, group, at) + extra;
    db.(objects := Drop(db.objects, keys),
        bin := BinInsert(db.bin, db.nextBinId, rows),
        nextBinId := db.nextBinId + |rows|)
  }

  function Files(rows: seq<BinRow>): seq<File> {
    if rows == [] then [] else [rows[0].file] + Files(rows[1..])
  }

  lemma {:induction false} BinInsertRefs(bin: map<nat, BinRow>, first: nat, rows: seq<BinRow>)
    requires forall i :: i in bin ==> i < first
    ensures RefsIn(BinInsert(bin, first, rows), FileOf) == RefsIn(bin, FileOf) + RefsOf(Files(rows))
    ensures forall i :: i in BinInsert(bin, first, rows) ==> i < first + |rows|
    decreases |rows|
  {
    if rows != [] {
      RefsAdd(bin, FileOf, first, rows[0]);
      BinInsertRefs(bin[first := rows[0]], first + 1, rows[1..]);
    }
  }

  lemma {:induction false} FilesOfBinRows(objects: map<Key, File>, keys: seq<Key>, group: Id, at: Time)
    requires forall k :: k in keys ==> k in objects
    ensures Files(BinRows(objects, keys, group, at)) == FilesAt(objects, keys)
  {
    if keys != [] { FilesOfBinRows(objects, keys[1..], group, at); }
  }

  lemma {:induction false} FilesConcat(a: seq<BinRow>, b: seq<BinRow>)
    ensures Files(a + b) == Files(a) + Files(b)
  {
    if a == [] { assert a + b == b; }
    else {
      assert (a + b)[1..] == a[1..] + b;
      FilesConcat(a[1..], b);
    }
  }

  lemma {:induction false} RefsOfConcat(a: seq<File>, b: seq<File>)
    ensures RefsOf(a + b) == RefsOf(a) + RefsOf(b)
  {
    if a == [] { assert a + b == b; }
    else {
      assert (a + b)[1..] == a[1..] + b;
      RefsOfConcat(a[1..], b);
    }
  }

  lemma FilesOfRecycled(objects: map<Key, File>, keys: seq<Key>, group: Id, at: Time, extra: seq<BinRow>)
    requires forall k :: k in keys ==> k in objects
    requires forall r :: r in extra ==> r.file.storagePath == Empty
    ensures RefsOf(Files(BinRows(objects, keys, group, at) + extra)) == RefsOf(FilesAt(objects, keys))
  {
    FilesConcat(BinRows(objects, keys, group, at), extra);
    FilesOfBinRows(objects, keys, group, at);
    RefsOfConcat(FilesAt(objects, keys), Files(extra));
    NoStorage(extra);
  }

  lemma {:induction false} NoStorage(rows: seq<BinRow>)
    requires forall r :: r in rows ==> r.file.storagePath == Empty
    ensures RefsOf(Files(rows)) == multiset{}
  {
    if rows != [] { NoStorage(rows[1..]); }
  }

  /** Deleting into the bin leaves every reference, and the whole ledger, as they were. */
  lemma RecycleConserves(db: Db, keys: seq<Key>, group: Id, at: Time, extra: seq<BinRow>)
    requires Distinct(keys) && forall k :: k in keys ==> k in db.objects
    requires forall i :: i in db.bin ==> i < db.nextBinId
    requires forall r :: r in extra ==> r.file.storagePath == Empty
    ensures Refs(Recycle(db, keys, group, at, extra)) == Refs(db)
    ensures Audited(db) ==> Audited(Recycle(db, keys, group, at, extra))
  {
    DropObjectsRefs(db.objects, keys);
    BinInsertRefs(db.bin, db.nextBinId, BinRows(db.objects, keys, group, at) + extra);
    FilesOfRecycled(db.objects, keys, group, at, extra);
  }

  // ------------------------------------------------------- acting on the bin

  predicate AllIn(db: Db, ids: seq<nat>) { forall i :: i in ids ==> i in db.bin }

  /** A synthetic marker is not restored: it holds no storage. */
  predicate Skipped(r: BinRow) { IsMarker(r.key.key) && r.file.storagePath == Empty }

  function RestoreRows(objects: map<Key, File>, rows: seq<BinRow>): map<Key, File>
    decreases |rows|
  {
    if rows == [] then objects
    else if Skipped(rows[0]) then RestoreRows(objects, rows[1..])
    else RestoreRows(objects[rows[0].key := rows[0].file], rows[1..])
  }

  predicate Clashes(objects: map<Key, File>, rows: seq<BinRow>) {
    || (exists r :: r in rows && !Skipped(r) && r.key in objects)
    || (exists i, j :: 0 <= i < j < |rows| && !Skipped(rows[i]) && !Skipped(rows[j]) && rows[i].key == rows[j].key)
  }

  function RowsAt(bin: map<nat, BinRow>, ids: seq<nat>): seq<BinRow>
    requires forall i :: i in ids ==> i in bin
  {
    seq(|ids|, i requires 0 <= i < |ids| => bin[ids[i]])
  }

  /** The commit of a restore whose reads returned `ids` and `rows`: inserts fail on a
      taken key or a missing bucket, and the delete must still affect every row. */
  function Restore(db: Db, ids: seq<nat>, rows: seq<BinRow>): DbResult {
    if exists r :: r in rows && r.key.bucket !in db.buckets then Failed(NotFound)
    else if Clashes(db.objects, rows) then Failed(Duplicate)
    else if !AllIn(db, ids) then Failed(Changed)
    else Done(db.(objects := RestoreRows(db.objects, rows), bin := Drop(db.bin, ids)))
  }

  lemma {:induction false} RestoreRowsRefs(objects: map<Key, File>, rows: seq<BinRow>)
    requires !Clashes(objects, rows)
    ensures RefsIn(RestoreRows(objects, rows), Itself) == RefsIn(objects, Itself) + RefsOf(Files(rows))
    decreases |rows|
  {
    if rows != [] {
      var next := if Skipped(rows[0]) then objects else objects[rows[0].key := rows[0].file];
      assert !Clashes(next, rows[1..]) by {
        forall r | r in rows[1..] && !Skipped(r) ensures r.key !in next {
          assert r in rows;
          var j :| 0 <= j < |rows[1..]| && rows[1..][j] == r;
          assert rows[j + 1] == r && rows[0] in rows;
        }
        forall i, j | 0 <= i < j < |rows[1..]| && !Skipped(rows[1..][i]) && !Skipped(rows[1..][j])
          ensures rows[1..][i].key != rows[1..][j].key
        {
          assert rows[i + 1] == rows[1..][i] && rows[j + 1] == rows[1..][j];
        }
      }
      RestoreRowsRefs(next, rows[1..]);
      if !Skipped(rows[0]) {
        assert rows[0] in rows;
        RefsAdd(objects, Itself, rows[0].key, rows[0].file);
      }
    }
  }

  lemma {:induction false} FilesOfRows(bin: map<nat, BinRow>, ids: seq<nat>)
    requires forall i :: i in ids ==> i in bin
    ensures Files(RowsAt(bin, ids)) == BinFiles(bin, ids)
  {
    if ids != [] {
      FilesOfRows(bin, ids[1..]);
      assert RowsAt(bin, ids)[1..] == RowsAt(bin, ids[1..]);
    }
  }

  lemma RestoreConserves(db: Db, ids: seq<nat>, rows: seq<BinRow>)
    requires Distinct(ids) && (AllIn(db, ids) ==> rows == RowsAt(db.bin, ids))
    requires Restore(db, ids, rows).Done?
    ensures Refs(Restore(db, ids, rows).db) == Refs(db)
    ensures Audited(db) ==> Audited(Restore(db, ids, rows).db)
  {
    RestoreRowsRefs(db.objects, rows);
    DropBinRefs(db.bin, ids);
    FilesOfRows(db.bin, ids);
  }

  /** The commit of a permanent delete whose reads returned `ids` and `rows`. */
  function Purge(db: Db, ids: seq<nat>, rows: seq<BinRow>, now: Time): DbResult {
    if !AllIn(db, ids) then Failed(Changed)
    else match ReleaseRefs(db.ledger, CountPaths(Files(rows)), now)
      case Err(e) => Failed(e)
      case Ok(l) => Done(db.(ledger := l, bin := Drop(db.bin, ids)))
  }

  lemma PurgeKeeps(db: Db, ids: seq<nat>, rows: seq<BinRow>, now: Time)
    requires Audited(db) && Distinct(ids) && (AllIn(db, ids) ==> rows == RowsAt(db.bin, ids))
    ensures Purge(db, ids, rows, now).Done? <==> AllIn(db, ids)
    ensures AllIn(db, ids) ==>
      var n := Purge(db, ids, rows, now).db;
      Audited(n) && Refs(n) + RefsOf(Files(rows)) == Refs(db)
      && Moves(db.ledger, n.ledger, NOTHING) && n.ledger.quota.max == db.ledger.quota.max
      && (WithinMax(db.ledger) ==> WithinMax(n.ledger))
  {
    if AllIn(db, ids) {
      DropBinRefs(db.bin, ids);
      FilesOfRows(db.bin, ids);
      var left := RefsIn(db.objects, Itself) + RefsIn(Drop(db.bin, ids), FileOf);
      ReleaseRowsKeeps(db.ledger, Refs(db), left, Files(rows), now);
    }
  }

  // ------------------------------------------------------------------ buckets

  /** Delete a bucket, given the listing of its rows in both tables. */
  function DropBucket(db: Db, bucket: string, keys: seq<Key>, ids: seq<nat>, now: Time): DbResult
    requires forall k :: k in keys ==> k in db.objects
    requires forall i :: i in ids ==> i in db.bin
  {
    if bucket !in db.buckets then Failed(NotFound)
    else match ReleaseRefs(db.ledger, CountPaths(FilesAt(db.objects, keys) + BinFiles(db.bin, ids)), now)
      case Err(e) => Failed(e)
      case Ok(l) => Done(Db(l, db.buckets - {bucket}, Drop(db.objects, keys),
                            Drop(db.bin, ids), db.nextBinId))
  }

  lemma DropBucketRefs(db: Db, n: Db, keys: seq<Key>, ids: seq<nat>)
    requires Distinct(keys) && Distinct(ids)
    requires forall k :: k in keys ==> k in db.objects
    requires forall i :: i in ids ==> i in db.bin
    requires n.objects == Drop(db.objects, keys) && n.bin == Drop(db.bin, ids)
    ensures Refs(db) == Refs(n) + RefsOf(FilesAt(db.objects, keys) + BinFiles(db.bin, ids))
  {
    DropObjectsRefs(db.objects, keys);
    DropBinRefs(db.bin, ids);
    RefsOfConcat(FilesAt(db.objects, keys), BinFiles(db.bin, ids));
  }

  lemma DropBucketKeeps(db: Db, bucket: string, keys: seq<Key>, ids: seq<nat>, now: Time)
    requires Audited(db) && Distinct(keys) && Distinct(ids)
    requires forall k :: k in keys ==> k in db.objects
    requires forall i :: i in ids ==> i in db.bin
    ensures DropBucket(db, bucket, keys, ids, now).Done? <==> bucket in db.buckets
    ensures bucket in db.buckets ==>
      var n := DropBucket(db, bucket, keys, ids, now).db;
      Audited(n) && Refs(n) + RefsOf(FilesAt(db.objects, keys) + BinFiles(db.bin, ids)) == Refs(db)
      && Moves(db.ledger, n.ledger, NOTHING) && n.ledger.quota.max == db.ledger.quota.max
      && (WithinMax(db.ledger) ==> WithinMax(n.ledger))
  {
    if bucket in db.buckets {
      var files := FilesAt(db.objects, keys) + BinFiles(db.bin, ids);
      var after := AfterRelease(db.ledger, CountPaths(files), now);
      var n := Db(after, db.buckets - {bucket}, Drop(db.objects, keys), Drop(db.bin, ids), db.nextBinId);
      DropBucketRefs(db, n, keys, ids);
      ReleaseRowsKeeps(db.ledger, Refs(db), Refs(n), files, now);
    }
  }

  // --------------------------------------------------------------- publishing

  /** One uploaded object: the blob to activate and the row that will name it. */
  datatype Item = Item(key: Key, act: Activation, file: File)

  function Acts(items: seq<Item>): seq<Activation> {
    if items == [] then [] else [items[0].act] + Acts(items[1..])
  }

  function ItemFiles(items: seq<Item>): seq<File> {
    if items == [] then [] else [items[0].file] + ItemFiles(items[1..])
  }

  function PutItems(objects: map<Key, File>, items: seq<Item>): map<Key, File>
    decreases |items|
  {
    if items == [] then objects else PutItems(objects[items[0].key := items[0].file], items[1..])
  }

  /** The rows, read before the write, that the upload will overwrite. */
  function Overwritten(objects: map<Key, File>, items: seq<Item>): seq<File> {
    if items == [] then []
    else (if items[0].key in objects then [objects[items[0].key]] else []) + Overwritten(objects, items[1..])
  }

  predicate DistinctKeys(items: seq<Item>) {
    forall i, j :: 0 <= i < j < |items| ==> items[i].key != items[j].key
  }

  /** The publish transaction of an upload: activate, write the object rows, release what
      they replaced. */
  function Publish(db: Db, items: seq<Item>, overwrite: bool, now: Time): DbResult {
    match ActivateAll(db.ledger, Acts(items))
    case Err(e) => Failed(e)
    case Ok(l1) =>
      if exists t :: t in items && t.key.bucket !in db.buckets then Failed(NotFound)
      else if !overwrite && Overwritten(db.objects, items) != [] then Failed(Duplicate)
      else match ReleaseRefs(l1, CountPaths(Overwritten(db.objects, items)), now)
        case Err(e) => Failed(e)
        case Ok(l2) => Done(db.(ledger := l2, objects := PutItems(db.objects, items)))
  }

  /** What a table held at a key. */
  function RefAt(objects: map<Key, File>, k: Key): multiset<Ref> { if k in objects then RefOf(objects[k]) else multiset{} }

  lemma PutOne(objects: map<Key, File>, k: Key, f: File)
    ensures RefsIn(objects[k := f], Itself) + RefAt(objects, k) == RefsIn(objects, Itself) + RefOf(f)
  {
    if k in objects {
      RefsPut(objects, Itself, k, f);
      RefsRemove(objects, Itself, k);
    } else {
      RefsAdd(objects, Itself, k, f);
    }
  }

  lemma FirstOverwritten(objects: map<Key, File>, items: seq<Item>)
    requires items != [] && DistinctKeys(items)
    ensures DistinctKeys(items[1..])
    ensures RefsOf(Overwritten(objects, items)) ==
      RefAt(objects, items[0].key) + RefsOf(Overwritten(objects[items[0].key := items[0].file], items[1..]))
  {
    var k, rest := items[0].key, items[1..];
    forall i, j | 0 <= i < j < |rest| ensures rest[i].key != rest[j].key { assert items[i + 1].key != items[j + 1].key; }
    forall i | 0 <= i < |rest| ensures rest[i].key != k { assert items[i + 1].key != items[0].key; }
    SameOverwritten(objects, objects[k := items[0].file], rest);
    var later := Overwritten(objects, rest);
    if k in objects {
      assert Overwritten(objects, items) == [objects[k]] + later;
      RefsOfConcat([objects[k]], later);
      assert RefsOf([objects[k]]) == RefOf(objects[k]) by { assert [objects[k]][1..] == []; }
    } else {
      assert Overwritten(objects, items) == later;
    }
  }

  lemma {:induction false} PutItemsRefs(objects: map<Key, File>, items: seq<Item>)
    requires DistinctKeys(items)
    ensures RefsIn(PutItems(objects, items), Itself) + RefsOf(Overwritten(objects, items))
         == RefsIn(objects, Itself) + RefsOf(ItemFiles(items))
    decreases |items|
  {
    if items != [] {
      PutOne(objects, items[0].key, items[0].file);
      FirstOverwritten(objects, items);
      PutItemsRefs(objects[items[0].key := items[0].file], items[1..]);
    }
  }

  lemma {:induction false} SameOverwritten(a: map<Key, File>, b: map<Key, File>, items: seq<Item>)
    requires forall t :: t in items ==> (t.key in a <==> t.key in b) && (t.key in a ==> a[t.key] == b[t.key])
    ensures Overwritten(a, items) == Overwritten(b, items)
  {
    if items != [] {
      assert items[0] in items;
      SameOverwritten(a, b, items[1..]);
    }
  }

  predicate HasKey(items: seq<Item>, k: Key) { exists t :: t in items && t.key == k }

  /** An upload writes exactly the rows of its keys. */
  lemma {:induction false} PutItemsAre(objects: map<Key, File>, items: seq<Item>)
    requires DistinctKeys(items)
    ensures forall k :: k in PutItems(objects, items) <==> k in objects || HasKey(items, k)
    ensures forall t :: t in items ==> t.key in PutItems(objects, items) && PutItems(objects, items)[t.key] == t.file
    ensures forall k :: k in objects && !HasKey(items, k) ==> PutItems(objects, items)[k] == objects[k]
    decreases |items|
  {
    if items != [] {
      var next, rest := objects[items[0].key := items[0].file], items[1..];
      forall i | 0 <= i < |rest| ensures rest[i].key != items[0].key { assert items[i + 1].key != items[0].key; }
      forall i, j | 0 <= i < j < |rest| ensures rest[i].key != rest[j].key { assert items[i + 1].key != items[j + 1].key; }
      PutItemsAre(next, rest);
      assert items == [items[0]] + rest;
      forall k ensures HasKey(items, k) <==> items[0].key == k || HasKey(rest, k) {
        assert items[0] in items;
      }
    }
  }

  predicate ItemOk(l: Ledger, t: Item) {
    t.act.id in l.blobs && l.blobs[t.act.id].status == Staging ==>
      t.act.id !in l.jobs && t.file.size == t.act.actual
      && t.file.storagePath == l.blobs[t.act.id].storagePath
  }

  function ItemIds(items: seq<Item>): set<Id> { set t | t in items :: t.act.id }

  /** The blob of an item was staging, with room for the upload, and is now published with
      one reference. */
  predicate Published(l: Ledger, n: Ledger, t: Item) {
    && t.act.id in l.blobs && l.blobs[t.act.id].status == Staging && t.act.actual <= l.blobs[t.act.id].size
    && t.act.id in n.blobs && n.blobs[t.act.id].size == t.act.actual && n.blobs[t.act.id].status == Active
    && n.blobs[t.act.id].refCount == 1 && n.blobs[t.act.id].stagingPath.None?
    && n.blobs[t.act.id].storagePath == l.blobs[t.act.id].storagePath
  }

  lemma {:induction false} ActivateAllKeeps(l: Ledger, refs: multiset<Ref>, items: seq<Item>)
    requires Books(l, refs) && forall t :: t in items ==> ItemOk(l, t)
    ensures Keeps(l, ActivateAll(l, Acts(items)), refs + RefsOf(ItemFiles(items)), NOTHING.(activated := ItemIds(items)))
    ensures ActivateAll(l, Acts(items)).Ok? ==>
      var n := ActivateAll(l, Acts(items)).ledger;
      n.jobs == l.jobs && n.blobs.Keys == l.blobs.Keys
      && (forall t :: t in items ==> Published(l, n, t))
      && (forall b :: b in l.blobs && b !in ItemIds(items) ==> n.blobs[b] == l.blobs[b])
    decreases |items|
  {
    if items == [] {
      assert refs + RefsOf(ItemFiles(items)) == refs;
      assert Moves(l, l, NOTHING.(activated := ItemIds(items)));
    } else {
      ActivatedFirst(l, refs, items);
      var r := ActivateOne(l, items[0].act);
      if r.Ok? {
        var m := r.ledger;
        var refs1 := refs + RefOf(items[0].file);
        assert refs + RefsOf(ItemFiles(items)) == refs1 + RefsOf(ItemFiles(items[1..]));
        ActivateAllKeeps(m, refs1, items[1..]);
        var rest := ActivateAll(m, Acts(items[1..]));
        if rest.Ok? { ActivatedThen(l, m, rest.ledger, items); }
      }
    }
  }

  lemma ActivatedFirst(l: Ledger, refs: multiset<Ref>, items: seq<Item>)
    requires Books(l, refs) && items != [] && forall t :: t in items ==> ItemOk(l, t)
    ensures Keeps(l, ActivateOne(l, items[0].act), refs + RefOf(items[0].file), NOTHING.(activated := {items[0].act.id}))
    ensures ActivateOne(l, items[0].act).Ok? ==>
      forall u :: u in items[1..] ==> ItemOk(ActivateOne(l, items[0].act).ledger, u)
  {
    var t := items[0];
    assert t in items && ItemOk(l, t);
    if t.act.id in l.blobs {
      ActivateOneKeeps(l, refs, t.act);
      assert NamedOnce(l.blobs[t.act.id]);
    }
    if ActivateOne(l, t.act).Ok? {
      forall u | u in items[1..] ensures ItemOk(ActivateOne(l, t.act).ledger, u) { assert u in items && ItemOk(l, u); }
    }
  }

  /** The step of the induction above: one activation, then the rest of the batch. */
  lemma ActivatedThen(l: Ledger, m: Ledger, n: Ledger, items: seq<Item>)
    requires items != [] && ActivateOne(l, items[0].act) == Ok(m)
    requires Moves(l, m, NOTHING.(activated := {items[0].act.id}))
    requires Moves(m, n, NOTHING.(activated := ItemIds(items[1..])))
    requires JobsOk(l) && JobsOk(m) && JobsOk(n)
    requires n.jobs == m.jobs && n.blobs.Keys == m.blobs.Keys
    requires forall t :: t in items[1..] ==> Published(m, n, t)
    requires forall b :: b in m.blobs && b !in ItemIds(items[1..]) ==> n.blobs[b] == m.blobs[b]
    ensures Moves(l, n, NOTHING.(activated := ItemIds(items)))
    ensures forall t :: t in items ==> Published(l, n, t)
    ensures forall b :: b in l.blobs && b !in ItemIds(items) ==> n.blobs[b] == l.blobs[b]
  {
    var first := items[0].act.id;
    assert ItemIds(items) == {first} + ItemIds(items[1..]) by {
      forall t | t in items ensures t.act.id in {first} + ItemIds(items[1..]) { assert t == items[0] || t in items[1..]; }
    }
    assert first !in ItemIds(items[1..]) by {
      assert m.blobs[first].status == Active;
      assert forall t :: t in items[1..] && t.act.id == first ==> Published(m, n, t);
    }
    MovesCompose(l, m, n, NOTHING.(activated := {first}), NOTHING.(activated := ItemIds(items[1..])));
    assert Join(NOTHING.(activated := {first}), NOTHING.(activated := ItemIds(items[1..]))) == NOTHING.(activated := ItemIds(items));
    forall t | t in items ensures Published(l, n, t) {
      if t == items[0] {
        assert n.blobs[first] == m.blobs[first];
      } else {
        assert Published(m, n, t);
      }
    }
  }

  lemma {:induction false} OverwrittenAreObjects(objects: map<Key, File>, items: seq<Item>, f: File)
    requires f in Overwritten(objects, items)
    ensures exists k :: k in objects && objects[k] == f
  {
    if !(items[0].key in objects && objects[items[0].key] == f) { OverwrittenAreObjects(objects, items[1..], f); }
  }

  lemma {:induction false} CountedIsFile(files: seq<File>, p: Path)
    requires p in CountPaths(files)
    ensures p != Empty && exists f :: f in files && f.storagePath == p
  {
    if !(files[0].storagePath == p && p != Empty) { CountedIsFile(files[1..], p); }
  }

  /** What an upload replaces never holds a blob that is still staging. */
  lemma NotReplaced(db: Db, items: seq<Item>, b: Id)
    requires Audited(db) && b in db.ledger.blobs && db.ledger.blobs[b].status == Staging
    ensures CountPaths(Overwritten(db.objects, items))[db.ledger.blobs[b].storagePath] == 0
  {
    var p := db.ledger.blobs[b].storagePath;
    if p in CountPaths(Overwritten(db.objects, items)) {
      CountedIsFile(Overwritten(db.objects, items), p);
      var f :| f in Overwritten(db.objects, items) && f.storagePath == p;
      OverwrittenAreObjects(db.objects, items, f);
      var k :| k in db.objects && db.objects[k] == f;
      RefsRemove(db.objects, Itself, k);
      assert Ref(p, f.size) in Refs(db) && ActiveAt(db.ledger, Ref(p, f.size));
      var a :| a in db.ledger.blobs && db.ledger.blobs[a].status == Active && db.ledger.blobs[a].storagePath == p;
      OneHolder(db.ledger, a, b);
    }
  }

  /** Reference conservation for every publishing upload: what the tables hold afterwards,
      plus what the upload replaced, is what they held before plus what it published. */
  lemma PublishKeeps(db: Db, items: seq<Item>, overwrite: bool, now: Time)
    requires Audited(db) && DistinctKeys(items)
    requires forall t :: t in items ==> ItemOk(db.ledger, t)
    ensures match Publish(db, items, overwrite, now)
      case Failed(e) => e != Inconsistent
      case Done(n) =>
        && Audited(n) && Moves(db.ledger, n.ledger, NOTHING.(activated := ItemIds(items)))
        && Refs(n) + RefsOf(Overwritten(db.objects, items)) == Refs(db) + RefsOf(ItemFiles(items))
        && n.bin == db.bin && n.buckets == db.buckets && n.nextBinId == db.nextBinId
        && (forall t :: t in items ==> Published(db.ledger, n.ledger, t))
        && n.ledger.quota.max == db.ledger.quota.max
        && (WithinMax(db.ledger) ==> WithinMax(n.ledger))
  {
    var r := ActivateAll(db.ledger, Acts(items));
    ActivateAllKeeps(db.ledger, Refs(db), items);
    if r.Ok? {
      PutItemsRefs(db.objects, items);
      var was := Overwritten(db.objects, items);
      var left := RefsIn(PutItems(db.objects, items), Itself) + RefsIn(db.bin, FileOf);
      ReleaseRowsKeeps(r.ledger, Refs(db) + RefsOf(ItemFiles(items)), left, was, now);
      forall t | t in items ensures CountPaths(was)[db.ledger.blobs[t.act.id].storagePath] == 0 {
        assert Published(db.ledger, r.ledger, t);
        NotReplaced(db, items, t.act.id);
      }
      ThenReleased(db.ledger, r.ledger, items, CountPaths(was), now);
    }
  }

  /** The step above from the activated ledger to the one with the replaced rows released. */
  lemma ThenReleased(l: Ledger, m: Ledger, items: seq<Item>, counts: multiset<Path>, now: Time)
    requires Moves(l, m, NOTHING.(activated := ItemIds(items)))
    requires Moves(m, AfterRelease(m, counts, now), NOTHING)
    requires JobsOk(l) && JobsOk(m) && JobsOk(AfterRelease(m, counts, now))
    requires forall t :: t in items ==> Published(l, m, t) && counts[l.blobs[t.act.id].storagePath] == 0
    ensures Moves(l, AfterRelease(m, counts, now), NOTHING.(activated := ItemIds(items)))
    ensures forall t :: t in items ==> Published(l, AfterRelease(m, counts, now), t)
  {
    var n := AfterRelease(m, counts, now);
    MovesCompose(l, m, n, NOTHING.(activated := ItemIds(items)), NOTHING);
    assert Join(NOTHING.(activated := ItemIds(items)), NOTHING) == NOTHING.(activated := ItemIds(items));
    forall t | t in items ensures Published(l, n, t) { assert Published(l, m, t); }
  }
}
