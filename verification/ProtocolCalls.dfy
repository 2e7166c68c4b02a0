/**
  The metadata calls over reachable states: when each of them takes effect, and what it then
  does to the tables. In every other case it leaves the database as it was.
 */
module ProtocolCalls {
  import opened Common
  import opened LedgerTransactions
  import opened LedgerInvariant
  import opened BooksKept
  import opened FolderPaths
  import opened Metadata
  import opened BinGroups
  import opened References
  import opened Protocol
  import opened ProtocolInvariant
  import opened ProtocolSteps
  import opened ProtocolRuns
  import opened ProtocolGuarantees
  import opened ProtocolTables

  // ------------------------------------------------------- settings and buckets

  /** The maximum can be set to whatever covers what is used and reserved. */
  lemma MaximumIff(s: State, max: nat)
    requires Reachable(s)
    ensures SetMax(s, max) ==
      if s.db.ledger.quota.used + s.db.ledger.quota.reserved <= max <= MAX_U64
      then WithLedger(s, s.db.ledger.(quota := s.db.ledger.quota.(max := max))) else s
  {
  }

  ghost predicate Left<K(!new), V>(rows: map<K, V>, n: map<K, V>, gone: iset<K>) {
    (forall k :: k in n <==> k in rows && k !in gone) && forall k :: k in n ==> n[k] == rows[k]
  }

  ghost predicate WithoutBucket(d: Db, n: Db, bucket: string) {
    && n.buckets == d.buckets - {bucket}
    && Left(d.objects, n.objects, iset k: Key | k.bucket == bucket)
    && Left(d.bin, n.bin, iset i | i in d.bin && d.bin[i].key.bucket == bucket)
  }

  lemma DropBucketIff(db: Db, bucket: string, keys: seq<Key>, ids: seq<nat>, now: Time)
    requires Audited(db) && ListsBucket(db, bucket, keys, ids)
    ensures DropBucket(db, bucket, keys, ids, now).Done? <==> bucket in db.buckets
    ensures bucket in db.buckets ==> WithoutBucket(db, DropBucket(db, bucket, keys, ids, now).db, bucket)
  {
    assert DropBucket(db, bucket, keys, ids, now).Done? <==> bucket in db.buckets by { DropBucketKeeps(db, bucket, keys, ids, now); }
    if bucket in db.buckets { BucketRowsGone(db, DropBucket(db, bucket, keys, ids, now).db, bucket, keys, ids, now); }
  }

  lemma BucketRowsGone(db: Db, n: Db, bucket: string, keys: seq<Key>, ids: seq<nat>, now: Time)
    requires ListsBucket(db, bucket, keys, ids) && DropBucket(db, bucket, keys, ids, now) == Done(n)
    ensures WithoutBucket(db, n, bucket)
  {
    BucketGone(db, n, bucket, keys, ids, now);
  }

  lemma DeleteBucketDb(s: State, bucket: string, keys: seq<Key>, ids: seq<nat>, now: Time)
    requires ListsBucket(s.db, bucket, keys, ids)
    ensures var r := DropBucket(s.db, bucket, keys, ids, now);
      DeleteBucket(s, bucket, keys, ids, now).db == if r.Done? then r.db else s.db
  {
  }

  /** A bucket goes with all of its rows in both tables and no others. */
  lemma DeleteBucketIff(s: State, bucket: string, keys: seq<Key>, ids: seq<nat>, now: Time)
    requires Reachable(s) && ListsBucket(s.db, bucket, keys, ids)
    ensures var n := DeleteBucket(s, bucket, keys, ids, now).db;
      if bucket in s.db.buckets then WithoutBucket(s.db, n, bucket) else n == s.db
  {
    DeleteBucketDb(s, bucket, keys, ids, now);
    assert Audited(s.db) by { EveryStateAudited(s); }
    DropBucketIff(s.db, bucket, keys, ids, now);
  }

  // -------------------------------------------------------------- into the bin

  /** An object that is deleted moves into the bin under its key, with its file and the time of
      the delete, as a group of its own. */
  lemma RecycleObjectIff(s: State, key: Key, group: Id, at: Time)
    requires FreshName(s, group)
    ensures var n := RecycleObject(s, key, group, at).db;
      if key in s.db.objects then
        n == s.db.(objects := s.db.objects - {key}, nextBinId := s.db.nextBinId + 1,
                   bin := s.db.bin[s.db.nextBinId := BinRow(group, key, s.db.objects[key], at)])
      else n == s.db
  {
    if key in s.db.objects { RecyclesOne(s.db, key, group, at); }
  }

  lemma RecyclesOne(db: Db, key: Key, group: Id, at: Time)
    requires key in db.objects
    ensures Recycle(db, [key], group, at, []) ==
      db.(objects := db.objects - {key}, nextBinId := db.nextBinId + 1,
          bin := db.bin[db.nextBinId := BinRow(group, key, db.objects[key], at)])
  {
    var row := BinRow(group, key, db.objects[key], at);
    assert [key][1..] == [];
    assert BinRows(db.objects, [key], group, at) == [row];
    assert [row] + [] == [row];
    assert [row][1..] == [];
    assert BinInsert(db.bin, db.nextBinId, [row]) == db.bin[db.nextBinId := row];
  }

  /** The row of a recycled object, or the marker of its folder. */
  predicate MovedFrom(objects: map<Key, File>, r: BinRow, bucket: string, folder: string, group: Id, at: Time) {
    && r.group == group && r.deletedAt == at && r.key.bucket == bucket && folder <= r.key.key
    && if r.key in objects then r.file == objects[r.key] else r == SyntheticMarker(bucket, folder, group, at)
  }

  lemma MovedRows(db: Db, bucket: string, folder: string, keys: seq<Key>, group: Id, at: Time)
    requires ListsFolder(db.objects, keys, bucket, folder)
    ensures forall k :: k in MarkerLast(keys, Key(bucket, folder + MARKER)) ==> k in db.objects
    ensures var rows := BinRows(db.objects, MarkerLast(keys, Key(bucket, folder + MARKER)), group, at)
        + ExtraMarker(keys, bucket, folder, group, at);
      forall r :: r in rows ==> MovedFrom(db.objects, r, bucket, folder, group, at)
  {
    var moved := MarkerLast(keys, Key(bucket, folder + MARKER));
    MarkerLastIs(keys, Key(bucket, folder + MARKER));
    BinRowsAre(db.objects, moved, group, at);
    var front, extra := BinRows(db.objects, moved, group, at), ExtraMarker(keys, bucket, folder, group, at);
    forall r | r in front + extra ensures MovedFrom(db.objects, r, bucket, folder, group, at) {
      if r in front {
        var i :| 0 <= i < |front| && front[i] == r;
        assert moved[i] in moved;
      }
    }
  }

  ghost predicate FolderMoved(d: Db, n: Db, bucket: string, folder: string, group: Id, at: Time) {
    && Left(d.objects, n.objects, iset k: Key | k.bucket == bucket && folder <= k.key)
    && (forall i :: i in d.bin ==> i in n.bin && n.bin[i] == d.bin[i])
    && (forall i :: i in n.bin && i !in d.bin ==> MovedFrom(d.objects, n.bin[i], bucket, folder, group, at))
  }

  lemma DeleteFolderMoves(db: Db, bucket: string, folder: string, keys: seq<Key>, group: Id, at: Time)
    requires BinOk(db.bin, db.nextBinId) && ListsFolder(db.objects, keys, bucket, folder) && keys != []
    ensures FolderMoved(db, DeleteFolder(db, bucket, folder, keys, group, at).db, bucket, folder, group, at)
  {
    var moved := MarkerLast(keys, Key(bucket, folder + MARKER));
    MarkerLastIs(keys, Key(bucket, folder + MARKER));
    MovedRows(db, bucket, folder, keys, group, at);
    BinInsertAt(db.bin, db.nextBinId, BinRows(db.objects, moved, group, at) + ExtraMarker(keys, bucket, folder, group, at));
  }

  /** A folder that is deleted moves all of its objects into the bin, with their files and the
      time of the delete, in one group with the folder's marker. */
  lemma RecycleFolderIff(s: State, bucket: string, folder: string, keys: seq<Key>, group: Id, at: Time)
    requires Reachable(s) && FreshName(s, group) && IsFolder(folder) && ListsFolder(s.db.objects, keys, bucket, folder)
    ensures var n := RecycleFolder(s, bucket, folder, keys, group, at).db;
      if keys != [] then FolderMoved(s.db, n, bucket, folder, group, at) else n == s.db
  {
    assert BinOk(s.db.bin, s.db.nextBinId) by { EveryStateAudited(s); }
    if keys != [] { DeleteFolderMoves(s.db, bucket, folder, keys, group, at); }
    RecycleFolderDb(s, bucket, folder, keys, group, at);
  }

  lemma RecycleFolderDb(s: State, bucket: string, folder: string, keys: seq<Key>, group: Id, at: Time)
    requires FreshName(s, group) && IsFolder(folder) && ListsFolder(s.db.objects, keys, bucket, folder)
    ensures RecycleFolder(s, bucket, folder, keys, group, at).db
         == if keys != [] then DeleteFolder(s.db, bucket, folder, keys, group, at).db else s.db
  {
  }

  // ------------------------------------------------------------ out of the bin

  /** What a restore or permanent delete acts on: the item, and with a marker all rows of its
      delete group. */
  ghost predicate Chosen(bin: map<nat, BinRow>, item: nat, i: nat) {
    item in bin && i in bin && (i == item || (IsMarker(bin[item].key.key) && bin[i].group == bin[item].group))
  }

  /** The reads of a call take exactly those rows, as they are in the bin. */
  lemma ReadBinIff(s: State, call: Id, item: nat, ids: seq<nat>)
    requires call !in s.calls
    ensures var n := ReadBin(s, call, item, ids);
      if item in s.db.bin && Distinct(ids) && (forall i :: i in ids <==> Chosen(s.db.bin, item, i))
      then AllIn(s.db, ids) && n == s.(calls := s.calls[call := BinCall(ids, RowsAt(s.db.bin, ids), false)])
      else n == s
  {
    ActionItemsIff(s.db.bin, item, ids);
  }

  lemma OnlyOne(ids: seq<nat>, item: nat)
    requires Distinct(ids)
    ensures ids == [item] <==> forall i :: i in ids <==> i == item
  {
    if forall i :: i in ids <==> i == item {
      assert item in ids;
      if |ids| >= 2 { TwoDiffer(ids); }
    }
  }

  lemma TwoDiffer(ids: seq<nat>)
    requires Distinct(ids) && |ids| >= 2
    ensures exists i, j :: i in ids && j in ids && i != j
  {
    assert ids[0] in ids && ids[1] in ids;
  }

  lemma ActionItemsIff(bin: map<nat, BinRow>, item: nat, ids: seq<nat>)
    ensures ActionItems(bin, item, ids) <==> item in bin && Distinct(ids) && forall i :: i in ids <==> Chosen(bin, item, i)
  {
    if item in bin && Distinct(ids) && !IsMarkerRow(bin[item]) {
      OnlyOne(ids, item);
      assert forall i :: Chosen(bin, item, i) <==> i == item;
    }
  }

  /** The rows of a call bring back their own files, and nothing else changes. */
  ghost predicate Restored(objects: map<Key, File>, n: map<Key, File>, rows: seq<BinRow>) {
    && (forall k :: k in n <==> k in objects || Brings(rows, k))
    && (forall r :: r in rows && !Skipped(r) ==> r.key in n && n[r.key] == r.file)
    && (forall k :: k in objects && k in n && !Brings(rows, k) ==> n[k] == objects[k])
  }

  /** A restore takes effect if and only if all of its rows are still in the bin and none of
      their keys is taken, by an object or by another of them; the buckets are always there.
      Then exactly those rows leave the bin and bring their files back, and the call is over. */
  lemma RestoreIff(s: State, c: Id)
    requires Reachable(s) && CallOpen(s, c)
    ensures var n, k := CommitRestore(s, c), s.calls[c];
      && !CallOpen(n, c)
      && if AllIn(s.db, k.ids) && !Clashes(s.db.objects, k.rows)
         then Left(s.db.bin, n.db.bin, iset i | i in k.ids) && Restored(s.db.objects, n.db.objects, k.rows)
         else n.db == s.db
  {
    var k := s.calls[c];
    RestoresCall(s, c);
    if AllIn(s.db, k.ids) {
      assert forall r :: r in k.rows ==> r.key.bucket in s.db.buckets by {
        ReachableOk(s);
        CallWhole(s, c);
        RowsHeld(s, k.ids);
      }
      RestoreDb(s.db, k.ids, k.rows);
    }
  }

  lemma RestoresCall(s: State, c: Id)
    requires CallOpen(s, c)
    ensures var n, r := CommitRestore(s, c), Restore(s.db, s.calls[c].ids, s.calls[c].rows);
      !CallOpen(n, c) && n.db == if r.Done? then r.db else s.db
  {
  }

  lemma RestoreDb(db: Db, ids: seq<nat>, rows: seq<BinRow>)
    requires AllIn(db, ids) && forall r :: r in rows ==> r.key.bucket in db.buckets
    ensures var r := Restore(db, ids, rows);
      if Clashes(db.objects, rows) then r.Failed?
      else r.Done? && Left(db.bin, r.db.bin, iset i | i in ids) && Restored(db.objects, r.db.objects, rows)
  {
    if !Clashes(db.objects, rows) { RestoreRowsAre(db.objects, rows); }
  }

  lemma RowsHeld(s: State, ids: seq<nat>)
    requires Reachable(s) && AllIn(s.db, ids)
    ensures forall r :: r in RowsAt(s.db.bin, ids) ==> r.key.bucket in s.db.buckets
  {
    ReachableHeld(s);
    forall r | r in RowsAt(s.db.bin, ids) ensures r.key.bucket in s.db.buckets {
      var i :| 0 <= i < |ids| && RowsAt(s.db.bin, ids)[i] == r;
      assert ids[i] in ids && RowHeld(s.db.bin[ids[i]], s.db.buckets);
    }
  }

  lemma PurgeDb(db: Db, ids: seq<nat>, rows: seq<BinRow>, now: Time)
    requires Audited(db) && Distinct(ids) && AllIn(db, ids) && rows == RowsAt(db.bin, ids)
    ensures var r := Purge(db, ids, rows, now);
      r.Done? && Left(db.bin, r.db.bin, iset i | i in ids) && r.db.objects == db.objects
  {
    assert Purge(db, ids, rows, now).Done? by { PurgeKeeps(db, ids, rows, now); }
  }

  lemma PurgeCall(s: State, c: Id, now: Time)
    requires CallOpen(s, c)
    ensures var n, r := CommitPurge(s, c, now), Purge(s.db, s.calls[c].ids, s.calls[c].rows, now);
      !CallOpen(n, c) && n.db == if r.Done? then r.db else s.db
  {
  }

  /** A permanent delete takes effect if and only if all of its rows are still in the bin; then
      exactly those leave it, no object changes, and the call is over. */
  lemma PurgeIff(s: State, c: Id, now: Time)
    requires Reachable(s) && CallOpen(s, c)
    ensures var n, k := CommitPurge(s, c, now), s.calls[c];
      && !CallOpen(n, c)
      && if AllIn(s.db, k.ids)
         then Left(s.db.bin, n.db.bin, iset i | i in k.ids) && n.db.objects == s.db.objects
         else n.db == s.db
  {
    PurgeCall(s, c, now);
    if AllIn(s.db, s.calls[c].ids) {
      ReachableOk(s);
      CallWhole(s, c);
      PurgeDb(s.db, s.calls[c].ids, s.calls[c].rows, now);
    }
  }

  // -------------------------------------------------------------- a round trip

  /** The reads of a restore find the row alone: its group is new. */
  lemma ObjectRead(s: State, key: Key, group: Id, at: Time, call: Id)
    requires Inv(s) && FreshName(s, group) && key in s.db.objects && call !in s.calls
    ensures var m := RecycleObject(s, key, group, at);
      ReadBin(m, call, s.db.nextBinId, [s.db.nextBinId])
      == m.(calls := m.calls[call := BinCall([s.db.nextBinId], [BinRow(group, key, s.db.objects[key], at)], false)])
  {
    var m := RecycleObject(s, key, group, at);
    RecycleObjectIff(s, key, group, at);
    assert ActionItems(m.db.bin, s.db.nextBinId, [s.db.nextBinId]);
    assert RowsAt(m.db.bin, [s.db.nextBinId]) == [BinRow(group, key, s.db.objects[key], at)];
  }

  lemma RestoresOne(db: Db, key: Key, row: BinRow)
    requires key in db.objects && key.bucket in db.buckets && db.objects[key].storagePath != Empty
    requires db.nextBinId !in db.bin && row.key == key && row.file == db.objects[key]
    ensures var m := db.(objects := db.objects - {key}, nextBinId := db.nextBinId + 1, bin := db.bin[db.nextBinId := row]);
      Restore(m, [db.nextBinId], [row]) == Done(db.(nextBinId := db.nextBinId + 1))
  {
    var id := db.nextBinId;
    assert [row][1..] == [] && [id][1..] == [];
    assert RestoreRows(db.objects - {key}, [row]) == db.objects;
    assert Drop(db.bin[id := row], [id]) == db.bin;
  }

  lemma RestoresRecycled(s: State, key: Key, group: Id, at: Time)
    requires Reachable(s) && FreshName(s, group) && key in s.db.objects
    ensures Restore(RecycleObject(s, key, group, at).db, [s.db.nextBinId], [BinRow(group, key, s.db.objects[key], at)])
         == Done(s.db.(nextBinId := s.db.nextBinId + 1))
  {
    assert key.bucket in s.db.buckets && s.db.objects[key].storagePath != Empty by { ReachableHeld(s); }
    assert s.db.nextBinId !in s.db.bin by { ReachableOk(s); }
    RecycleObjectIff(s, key, group, at);
    RestoresOne(s.db, key, BinRow(group, key, s.db.objects[key], at));
  }

  /** An object that is deleted, read back and restored is where it was, and the bin is as it
      was. */
  lemma ObjectDeleteUndone(s: State, key: Key, group: Id, at: Time, call: Id)
    requires Reachable(s) && FreshName(s, group) && key in s.db.objects && call !in s.calls
    ensures var m := ReadBin(RecycleObject(s, key, group, at), call, s.db.nextBinId, [s.db.nextBinId]);
      CommitRestore(m, call).db == s.db.(nextBinId := s.db.nextBinId + 1)
  {
    var m := ReadBin(RecycleObject(s, key, group, at), call, s.db.nextBinId, [s.db.nextBinId]);
    var row := BinRow(group, key, s.db.objects[key], at);
    assert m.db == RecycleObject(s, key, group, at).db && CallOpen(m, call)
        && m.calls[call] == BinCall([s.db.nextBinId], [row], false) by {
      ReachableOk(s);
      ObjectRead(s, key, group, at, call);
    }
    RestoresRecycled(s, key, group, at);
    RestoresCall(m, call);
  }
}
