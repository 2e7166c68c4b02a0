/** Reference counts are counts of rows, and folder deletes can be undone. */
module References {
  import opened Common
  import opened LedgerTransactions
  import opened LedgerInvariant
  import opened BooksKept
  import opened FolderPaths
  import opened Metadata
  import opened BinGroups

  // ------------------------------------------------------------ counting rows

  ghost function RowsAtPath<K, V>(rows: map<K, V>, file: V -> File, path: Path): set<K> {
    set k | k in rows && file(rows[k]).storagePath == path
  }

  ghost predicate SizedAs(refs: multiset<Ref>, path: Path, size: int) {
    forall x {:trigger Ref(path, x)} :: Ref(path, x) in refs ==> x == size
  }

  lemma RowsAtPathLess<K, V>(rows: map<K, V>, file: V -> File, path: Path, k: K)
    requires k in rows
    ensures |RowsAtPath(rows, file, path)| ==
      |RowsAtPath(rows - {k}, file, path)| + (if file(rows[k]).storagePath == path then 1 else 0)
  {
    assert RowsAtPath(rows - {k}, file, path) == RowsAtPath(rows, file, path) - {k};
  }

  lemma {:induction false} CountRows<K, V>(rows: map<K, V>, file: V -> File, path: Path, size: int)
    requires path != Empty
    requires forall k :: k in rows && file(rows[k]).storagePath == path ==> file(rows[k]).size == size
    ensures RefsIn(rows, file)[Ref(path, size)] == |RowsAtPath(rows, file, path)|
    decreases |rows|
  {
    if rows == map[] {
      assert RowsAtPath(rows, file, path) == {};
    } else {
      var k :| k in rows;
      assert (rows - {k}).Keys == rows.Keys - {k};
      CountRows(rows - {k}, file, path, size);
      RefsRemove(rows, file, k);
      RowsAtPathLess(rows, file, path, k);
    }
  }

  lemma RowRef<K, V>(rows: map<K, V>, file: V -> File, k: K)
    requires k in rows && file(rows[k]).storagePath != Empty
    ensures Ref(file(rows[k]).storagePath, file(rows[k]).size) in RefsIn(rows, file)
  {
    RefsRemove(rows, file, k);
  }

  lemma OneSize(l: Ledger, refs: multiset<Ref>, b: Id)
    requires Books(l, refs) && b in l.blobs
    ensures SizedAs(refs, l.blobs[b].storagePath, l.blobs[b].size)
  {
    forall x | Ref(l.blobs[b].storagePath, x) in refs ensures x == l.blobs[b].size {
      assert ActiveAt(l, Ref(l.blobs[b].storagePath, x));
      var a :| a in l.blobs && l.blobs[a].storagePath == l.blobs[b].storagePath && l.blobs[a].size == x;
      OneHolder(l, a, b);
    }
  }

  /** In an audited database an active blob's `ref_count` is the number of object rows plus
      the number of recycle rows that name its path, and no row names any other blob. */
  lemma RefCountIsRowCount(db: Db, b: Id)
    requires Audited(db) && b in db.ledger.blobs
    ensures var blob := db.ledger.blobs[b];
      var rows := |RowsAtPath(db.objects, Itself, blob.storagePath)| + |RowsAtPath(db.bin, FileOf, blob.storagePath)|;
      (blob.status == Active ==> blob.refCount == rows > 0) && (blob.status != Active ==> rows == 0)
  {
    var blob := db.ledger.blobs[b];
    assert NamedOnce(blob) && RowOk(db.ledger, Refs(db), b);
    OneSize(db.ledger, Refs(db), b);
    forall k | k in db.objects && db.objects[k].storagePath == blob.storagePath ensures db.objects[k].size == blob.size {
      RowRef(db.objects, Itself, k);
      assert Ref(blob.storagePath, db.objects[k].size) in Refs(db);
    }
    forall i | i in db.bin && db.bin[i].file.storagePath == blob.storagePath ensures db.bin[i].file.size == blob.size {
      RowRef(db.bin, FileOf, i);
      assert Ref(blob.storagePath, db.bin[i].file.size) in Refs(db);
    }
    CountRows(db.objects, Itself, blob.storagePath, blob.size);
    CountRows(db.bin, FileOf, blob.storagePath, blob.size);
    if blob.status != Active { NoRefYet(db.ledger, Refs(db), b, blob.size); }
  }

  // --------------------------------------------------------- delete, restore

  /** Object rows always hold storage. */
  predicate Stored(objects: map<Key, File>) { forall k :: k in objects ==> objects[k].storagePath != Empty }

  ghost predicate Brings(rows: seq<BinRow>, k: Key) { exists r :: r in rows && !Skipped(r) && r.key == k }

  predicate KeysApart(rows: seq<BinRow>) {
    forall i, j :: 0 <= i < j < |rows| && !Skipped(rows[i]) && !Skipped(rows[j]) ==> rows[i].key != rows[j].key
  }

  lemma FirstIsAlone(rows: seq<BinRow>)
    requires rows != [] && KeysApart(rows)
    ensures KeysApart(rows[1..])
    ensures !Skipped(rows[0]) ==> !Brings(rows[1..], rows[0].key)
    ensures forall k :: Brings(rows, k) <==> (!Skipped(rows[0]) && rows[0].key == k) || Brings(rows[1..], k)
  {
    forall r | r in rows[1..] && !Skipped(r) && !Skipped(rows[0]) ensures r.key != rows[0].key {
      var i :| 0 <= i < |rows[1..]| && rows[1..][i] == r;
      assert rows[i + 1] == r;
    }
    forall i, j | 0 <= i < j < |rows[1..]| && !Skipped(rows[1..][i]) && !Skipped(rows[1..][j])
      ensures rows[1..][i].key != rows[1..][j].key
    {
      assert rows[i + 1] == rows[1..][i] && rows[j + 1] == rows[1..][j];
    }
    assert rows == [rows[0]] + rows[1..];
  }

  lemma {:induction false} RestoreRowsAre(objects: map<Key, File>, rows: seq<BinRow>)
    requires KeysApart(rows)
    ensures forall k :: k in RestoreRows(objects, rows) <==> k in objects || Brings(rows, k)
    ensures forall r :: r in rows && !Skipped(r) ==> r.key in RestoreRows(objects, rows) && RestoreRows(objects, rows)[r.key] == r.file
    ensures forall k :: k in objects && !Brings(rows, k) ==> k in RestoreRows(objects, rows) && RestoreRows(objects, rows)[k] == objects[k]
    decreases |rows|
  {
    if rows != [] {
      var next := if Skipped(rows[0]) then objects else objects[rows[0].key := rows[0].file];
      FirstIsAlone(rows);
      RestoreRowsAre(next, rows[1..]);
    }
  }

  /** These rows bring back exactly the objects of `keys`, each once. */
  ghost predicate BringsBack(objects: map<Key, File>, keys: seq<Key>, rows: seq<BinRow>) {
    && KeysApart(rows)
    && (forall k :: k in keys ==> k in objects)
    && (forall k :: Brings(rows, k) <==> k in keys)
    && (forall r :: r in rows && !Skipped(r) ==> r.key in keys && r.file == objects[r.key])
  }

  lemma RestoredObjects(objects: map<Key, File>, left: map<Key, File>, keys: seq<Key>, rows: seq<BinRow>)
    requires BringsBack(objects, keys, rows) && left == Drop(objects, keys)
    ensures !Clashes(left, rows) && RestoreRows(left, rows) == objects
  {
    RestoreRowsAre(left, rows);
    forall k | k in keys ensures k in RestoreRows(left, rows) && RestoreRows(left, rows)[k] == objects[k] {
      assert Brings(rows, k);
    }
  }

  /** Row i of those a delete wrote. */
  predicate WroteAt(objects: map<Key, File>, keys: seq<Key>, written: seq<BinRow>, i: nat)
    requires i < |written|
  {
    if i < |keys| then keys[i] in objects && written[i].key == keys[i] && written[i].file == objects[keys[i]]
    else Skipped(written[i])
  }

  /** The rows a delete wrote, in the order it wrote them. */
  predicate Wrote(objects: map<Key, File>, keys: seq<Key>, written: seq<BinRow>) {
    && |keys| <= |written|
    && (forall i {:trigger WroteAt(objects, keys, written, i)} :: 0 <= i < |written| ==> WroteAt(objects, keys, written, i))
  }

  /** Row x of a list that reads those rows back is row `ids[x]` of them. */
  predicate ReadsAt(written: seq<BinRow>, first: nat, ids: seq<nat>, rows: seq<BinRow>, x: nat) {
    x < |ids| && x < |rows| && first <= ids[x] < first + |written| && rows[x] == written[ids[x] - first]
  }

  /** Read back in any order, each once. */
  ghost predicate Shuffled(written: seq<BinRow>, first: nat, ids: seq<nat>, rows: seq<BinRow>) {
    && Distinct(ids) && |rows| == |ids|
    && (forall i :: first <= i < first + |written| ==> i in ids)
    && (forall x {:trigger ReadsAt(written, first, ids, rows, x)} :: 0 <= x < |ids| ==> ReadsAt(written, first, ids, rows, x))
  }

  predicate FromKey(objects: map<Key, File>, keys: seq<Key>, i: nat, r: BinRow) {
    i < |keys| && keys[i] in objects && r.key == keys[i] && r.file == objects[keys[i]]
  }

  lemma ReadBack(objects: map<Key, File>, keys: seq<Key>, written: seq<BinRow>, first: nat, ids: seq<nat>, rows: seq<BinRow>, x: nat)
    requires Stored(objects) && Wrote(objects, keys, written) && Shuffled(written, first, ids, rows) && x < |rows|
    ensures first <= ids[x]
    ensures !Skipped(rows[x]) <==> ids[x] - first < |keys|
    ensures ids[x] - first < |keys| ==> FromKey(objects, keys, ids[x] - first, rows[x])
  {
    assert ReadsAt(written, first, ids, rows, x);
    assert WroteAt(objects, keys, written, ids[x] - first);
  }

  lemma ShuffledApart(objects: map<Key, File>, keys: seq<Key>, written: seq<BinRow>, first: nat, ids: seq<nat>, rows: seq<BinRow>)
    requires Stored(objects) && Distinct(keys) && Wrote(objects, keys, written) && Shuffled(written, first, ids, rows)
    ensures KeysApart(rows)
  {
    forall x, y | 0 <= x < y < |rows| && !Skipped(rows[x]) && !Skipped(rows[y]) ensures rows[x].key != rows[y].key {
      ReadBack(objects, keys, written, first, ids, rows, x);
      ReadBack(objects, keys, written, first, ids, rows, y);
      assert ids[x] != ids[y];
    }
  }

  lemma ShuffledBringsBack(objects: map<Key, File>, keys: seq<Key>, written: seq<BinRow>, first: nat, ids: seq<nat>, rows: seq<BinRow>)
    requires Stored(objects) && Distinct(keys) && (forall k :: k in keys ==> k in objects)
    requires Wrote(objects, keys, written) && Shuffled(written, first, ids, rows)
    ensures BringsBack(objects, keys, rows)
  {
    assert KeysApart(rows) by { ShuffledApart(objects, keys, written, first, ids, rows); }
    forall r | r in rows && !Skipped(r) ensures r.key in keys && r.file == objects[r.key] {
      var x :| 0 <= x < |rows| && rows[x] == r;
      ReadBack(objects, keys, written, first, ids, rows, x);
    }
    forall k | k in keys ensures Brings(rows, k) {
      var i :| 0 <= i < |keys| && keys[i] == k;
      assert first + i in ids;
      var x :| 0 <= x < |ids| && ids[x] == first + i;
      ReadBack(objects, keys, written, first, ids, rows, x);
      assert rows[x] in rows;
    }
  }

  /** The ids of one new group, however the group was listed. */
  ghost predicate ListsGroup(bin: map<nat, BinRow>, group: Id, ids: seq<nat>) {
    Distinct(ids) && forall i :: i in ids <==> i in bin && bin[i].group == group
  }

  lemma GroupIds(bin: map<nat, BinRow>, first: nat, written: seq<BinRow>, group: Id, ids: seq<nat>)
    requires forall i :: i in bin ==> i < first && bin[i].group != group
    requires forall r :: r in written ==> r.group == group
    requires ListsGroup(BinInsert(bin, first, written), group, ids)
    ensures var n := BinInsert(bin, first, written);
      && (forall i :: i in ids ==> i in n)
      && Drop(n, ids) == bin
      && Shuffled(written, first, ids, RowsAt(n, ids))
  {
    var n := BinInsert(bin, first, written);
    BinInsertAt(bin, first, written);
    forall i | first <= i < first + |written| ensures i in ids { assert n[i] == written[i - first] && n[i] in written; }
    forall i | i in bin ensures i !in ids {}
    forall x | 0 <= x < |ids| ensures ReadsAt(written, first, ids, RowsAt(n, ids), x) { assert ids[x] in ids; }
  }

  lemma RecycledRows(db: Db, keys: seq<Key>, group: Id, at: Time, extra: seq<BinRow>, ids: seq<nat>)
    requires (forall i :: i in db.bin ==> i < db.nextBinId && db.bin[i].group != group)
    requires forall k :: k in keys ==> k in db.objects
    requires forall r :: r in extra ==> Skipped(r) && r.group == group
    requires ListsGroup(Recycle(db, keys, group, at, extra).bin, group, ids)
    ensures var n := Recycle(db, keys, group, at, extra);
      var written := BinRows(db.objects, keys, group, at) + extra;
      AllIn(n, ids) && Drop(n.bin, ids) == db.bin
      && Wrote(db.objects, keys, written) && Shuffled(written, db.nextBinId, ids, RowsAt(n.bin, ids))
  {
    WrittenRows(db, keys, group, at, extra);
    GroupIds(db.bin, db.nextBinId, BinRows(db.objects, keys, group, at) + extra, group, ids);
  }

  lemma WrittenRows(db: Db, keys: seq<Key>, group: Id, at: Time, extra: seq<BinRow>)
    requires forall k :: k in keys ==> k in db.objects
    requires forall r :: r in extra ==> Skipped(r) && r.group == group
    ensures var written := BinRows(db.objects, keys, group, at) + extra;
      Wrote(db.objects, keys, written) && forall r :: r in written ==> r.group == group
  {
    BinRowsAre(db.objects, keys, group, at);
    var written := BinRows(db.objects, keys, group, at) + extra;
    forall i | 0 <= i < |written| ensures WroteAt(db.objects, keys, written, i) {
      assert if i < |keys| then keys[i] in keys else written[i] in extra;
    }
  }

  lemma BucketsThere(db: Db, keys: seq<Key>, group: Id, at: Time, extra: seq<BinRow>, ids: seq<nat>, rows: seq<BinRow>)
    requires forall k :: k in keys ==> k in db.objects && k.bucket in db.buckets
    requires forall r :: r in extra ==> r.key.bucket in db.buckets
    requires Shuffled(BinRows(db.objects, keys, group, at) + extra, db.nextBinId, ids, rows)
    ensures forall r :: r in rows ==> r.key.bucket in db.buckets
  {
    var written := BinRows(db.objects, keys, group, at) + extra;
    BinRowsAre(db.objects, keys, group, at);
    forall r | r in rows ensures r.key.bucket in db.buckets {
      var x :| 0 <= x < |rows| && rows[x] == r;
      assert ReadsAt(written, db.nextBinId, ids, rows, x);
      var i := ids[x] - db.nextBinId;
      assert if i < |keys| then written[i].key == keys[i] && keys[i] in keys else written[i] in extra;
    }
  }

  /** Deleting objects into the bin and restoring that delete gives back the same object
      table and the same bin; only rows that hold no storage are dropped. */
  lemma RecycleThenRestore(db: Db, keys: seq<Key>, group: Id, at: Time, extra: seq<BinRow>, ids: seq<nat>)
    requires (forall i :: i in db.bin ==> i < db.nextBinId && db.bin[i].group != group) && Stored(db.objects)
    requires Distinct(keys) && forall k :: k in keys ==> k in db.objects && k.bucket in db.buckets
    requires forall r :: r in extra ==> Skipped(r) && r.group == group && r.key.bucket in db.buckets
    requires ListsGroup(Recycle(db, keys, group, at, extra).bin, group, ids)
    ensures var n := Recycle(db, keys, group, at, extra);
      AllIn(n, ids) && Restore(n, ids, RowsAt(n.bin, ids)) == Done(db.(nextBinId := n.nextBinId))
  {
    var n := Recycle(db, keys, group, at, extra);
    var written := BinRows(db.objects, keys, group, at) + extra;
    RecycledRows(db, keys, group, at, extra, ids);
    var rows := RowsAt(n.bin, ids);
    assert forall r :: r in rows ==> r.key.bucket in n.buckets by { BucketsThere(db, keys, group, at, extra, ids, rows); }
    assert !Clashes(n.objects, rows) && RestoreRows(n.objects, rows) == db.objects by {
      ShuffledBringsBack(db.objects, keys, written, db.nextBinId, ids, rows);
      RestoredObjects(db.objects, n.objects, keys, rows);
    }
  }

  /** A recursive folder delete followed by the restore of its whole group gives back the
      same objects, dropping only a synthetic marker. */
  lemma FolderDeleteThenRestore(db: Db, bucket: string, folder: string, keys: seq<Key>, group: Id, at: Time, ids: seq<nat>)
    requires BinOk(db.bin, db.nextBinId) && Stored(db.objects) && bucket in db.buckets
    requires forall i :: i in db.bin ==> db.bin[i].group != group
    requires IsFolder(folder) && ListsFolder(db.objects, keys, bucket, folder) && keys != []
    requires ListsGroup(DeleteFolder(db, bucket, folder, keys, group, at).db.bin, group, ids)
    ensures var n := DeleteFolder(db, bucket, folder, keys, group, at).db;
      AllIn(n, ids) && Restore(n, ids, RowsAt(n.bin, ids)) == Done(db.(nextBinId := n.nextBinId))
  {
    var marker := Key(bucket, folder + MARKER);
    MarkerLastIs(keys, marker);
    MarkerOfFolder(folder);
    RecycleThenRestore(db, MarkerLast(keys, marker), group, at, ExtraMarker(keys, bucket, folder, group, at), ids);
  }

  lemma ObjectDeleteThenRestore(db: Db, key: Key, group: Id, at: Time, ids: seq<nat>)
    requires BinOk(db.bin, db.nextBinId) && Stored(db.objects) && key in db.objects && key.bucket in db.buckets
    requires forall i :: i in db.bin ==> db.bin[i].group != group
    requires ListsGroup(DeleteObject(db, key, group, at).db.bin, group, ids)
    ensures var n := DeleteObject(db, key, group, at).db;
      AllIn(n, ids) && Restore(n, ids, RowsAt(n.bin, ids)) == Done(db.(nextBinId := n.nextBinId))
  {
    RecycleThenRestore(db, [key], group, at, [], ids);
  }
}
