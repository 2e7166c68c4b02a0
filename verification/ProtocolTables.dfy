/** Every row of the tables lies in a bucket and object rows hold storage, so in every reachable state
    a delete can be undone. */
module ProtocolTables {
  import opened Common
  import opened LedgerTransactions
  import opened LedgerInvariant
  import opened BooksKept
  import opened FolderPaths
  import opened Metadata
  import opened BinGroups
  import opened References
  import opened RecycleBinGrouping
  import opened RecycleBinPaging
  import opened RecycleBinFolders
  import opened RecycleBinReading
  import opened Protocol
  import opened ProtocolInvariant
  import opened ProtocolSteps
  import opened ProtocolPublish
  import opened ProtocolRuns
  import opened ProtocolGuarantees

  /** A row without storage is the synthetic marker of a folder in the bin. */
  predicate KeyHeld(k: Key, buckets: set<string>) { ProperKey(k.key) && k.bucket in buckets }

  predicate RowHeld(r: BinRow, buckets: set<string>) {
    (r.file.storagePath == Empty ==> IsMarkerRow(r)) && KeyHeld(r.key, buckets)
  }

  predicate ObjectsHeld(objects: map<Key, File>, buckets: set<string>) {
    Stored(objects) && forall k :: k in objects ==> KeyHeld(k, buckets)
  }

  /** Every row of both tables lies in an existing bucket under a proper key, and only a
      marker in the bin is without storage. */
  predicate Held(db: Db) {
    ObjectsHeld(db.objects, db.buckets) && forall i :: i in db.bin ==> RowHeld(db.bin[i], db.buckets)
  }

  lemma {:induction false} PutItemsStored(objects: map<Key, File>, buckets: set<string>, items: seq<Item>)
    requires ObjectsHeld(objects, buckets) && forall t :: t in items ==> t.file.storagePath != Empty && KeyHeld(t.key, buckets)
    ensures ObjectsHeld(PutItems(objects, items), buckets)
    decreases |items|
  {
    if items != [] {
      assert items[0] in items;
      PutItemsStored(objects[items[0].key := items[0].file], buckets, items[1..]);
    }
  }

  lemma {:induction false} RestoreRowsStored(objects: map<Key, File>, buckets: set<string>, rows: seq<BinRow>)
    requires ObjectsHeld(objects, buckets) && forall r :: r in rows ==> RowHeld(r, buckets)
    ensures ObjectsHeld(RestoreRows(objects, rows), buckets)
    decreases |rows|
  {
    if rows != [] {
      assert rows[0] in rows;
      RestoreRowsStored(if Skipped(rows[0]) then objects else objects[rows[0].key := rows[0].file], buckets, rows[1..]);
    }
  }

  lemma RecycleHeld(db: Db, keys: seq<Key>, group: Id, at: Time, extra: seq<BinRow>)
    requires Held(db) && (forall i :: i in db.bin ==> i < db.nextBinId)
    requires (forall k :: k in keys ==> k in db.objects) && forall r :: r in extra ==> RowHeld(r, db.buckets)
    ensures Held(Recycle(db, keys, group, at, extra))
  {
    BinRowsAre(db.objects, keys, group, at);
    var rows := BinRows(db.objects, keys, group, at) + extra;
    BinInsertAt(db.bin, db.nextBinId, rows);
    forall r | r in rows ensures RowHeld(r, db.buckets) {
      var i :| 0 <= i < |rows| && rows[i] == r;
      assert if i < |keys| then keys[i] in keys else rows[i] in extra;
    }
  }

  predicate InBuckets(items: seq<Item>, buckets: set<string>) { forall t :: t in items ==> t.key.bucket in buckets }

  lemma PublishItemsHeld(s: State, q: Id, keys: seq<Key>, attrs: seq<Attrs>)
    requires AllStagers(s) && ObjectsHeld(s.db.objects, s.db.buckets) && q in s.requests && ProperKeys(keys)
    requires |keys| == |attrs| == |s.requests[q].entries| && forall b :: b in s.requests[q].entries ==> b in s.stagers
    requires InBuckets(UploadItems(s, s.requests[q].entries, keys, attrs), s.db.buckets)
    ensures ObjectsHeld(PutItems(s.db.objects, UploadItems(s, s.requests[q].entries, keys, attrs)), s.db.buckets)
  {
    var entries := s.requests[q].entries;
    var items := UploadItems(s, entries, keys, attrs);
    UploadItemsAre(s, entries, keys, attrs);
    forall t | t in items ensures t.file.storagePath != Empty && KeyHeld(t.key, s.db.buckets) {
      var i :| 0 <= i < |items| && items[i] == t;
      assert entries[i] in entries && StagerOk(s, entries[i]) && keys[i] in keys;
    }
    PutItemsStored(s.db.objects, s.db.buckets, items);
  }

  lemma PublishDb(db: Db, items: seq<Item>, overwrite: bool, now: Time)
    requires Publish(db, items, overwrite, now).Done?
    ensures var n := Publish(db, items, overwrite, now).db;
      n.bin == db.bin && n.buckets == db.buckets && n.objects == PutItems(db.objects, items) && InBuckets(items, db.buckets)
  {
  }

  lemma PublishWrites(s: State, q: Id, keys: seq<Key>, attrs: seq<Attrs>, overwrite: bool, now: Time, heard: bool)
    requires PublishUpload(s, q, keys, attrs, overwrite, now, heard).db != s.db
    ensures CanPublish(s, q, keys, attrs)
    ensures var n := PublishUpload(s, q, keys, attrs, overwrite, now, heard).db;
      var items := UploadItems(s, s.requests[q].entries, keys, attrs);
      n.bin == s.db.bin && n.buckets == s.db.buckets && n.objects == PutItems(s.db.objects, items) && InBuckets(items, s.db.buckets)
  {
    PublishDb(s.db, UploadItems(s, s.requests[q].entries, keys, attrs), overwrite, now);
  }

  lemma PublishHeld(s: State, q: Id, keys: seq<Key>, attrs: seq<Attrs>, overwrite: bool, now: Time, heard: bool)
    requires AllStagers(s) && Held(s.db)
    ensures Held(PublishUpload(s, q, keys, attrs, overwrite, now, heard).db)
  {
    if PublishUpload(s, q, keys, attrs, overwrite, now, heard).db != s.db {
      PublishWrites(s, q, keys, attrs, overwrite, now, heard);
      PublishItemsHeld(s, q, keys, attrs);
    }
  }

  lemma FolderHeld(db: Db, bucket: string, folder: string, keys: seq<Key>, group: Id, at: Time)
    requires Held(db) && (forall i :: i in db.bin ==> i < db.nextBinId) && IsFolder(folder)
    requires forall k :: k in keys ==> k in db.objects && k.bucket == bucket
    ensures DeleteFolder(db, bucket, folder, keys, group, at).Done? ==> Held(DeleteFolder(db, bucket, folder, keys, group, at).db)
  {
    var marker := Key(bucket, folder + MARKER);
    MarkerLastIs(keys, marker);
    MarkerOfFolder(folder);
    if keys != [] {
      assert keys[0] in keys;
      RecycleHeld(db, MarkerLast(keys, marker), group, at, ExtraMarker(keys, bucket, folder, group, at));
    }
  }

  lemma RestoreHeld(s: State, c: Id)
    requires Inv(s) && Held(s.db)
    ensures Held(CommitRestore(s, c).db)
  {
    if CallOpen(s, c) && AllIn(s.db, s.calls[c].ids) {
      CallWhole(s, c);
      RestoreRowsStored(s.db.objects, s.db.buckets, s.calls[c].rows);
    }
  }

  lemma ObjectHeld(s: State, key: Key, group: Id, at: Time)
    requires DbOk(s) && Held(s.db)
    ensures Held(RecycleObject(s, key, group, at).db)
  {
    if key in s.db.objects { RecycleHeld(s.db, [key], group, at, []); }
  }

  lemma FolderGoneHeld(s: State, bucket: string, folder: string, keys: seq<Key>, group: Id, at: Time)
    requires DbOk(s) && Held(s.db)
    ensures Held(RecycleFolder(s, bucket, folder, keys, group, at).db)
  {
    if IsFolder(folder) && ListsFolder(s.db.objects, keys, bucket, folder) { FolderHeld(s.db, bucket, folder, keys, group, at); }
  }

  lemma FewerHeld(d: Db, n: Db)
    requires Held(d) && d.buckets <= n.buckets
    requires forall k :: k in n.objects ==> k in d.objects && n.objects[k] == d.objects[k]
    requires forall i :: i in n.bin ==> i in d.bin && n.bin[i] == d.bin[i]
    ensures Held(n)
  {
  }

  /** A deleted bucket takes all of its rows with it. */
  lemma BucketHeld(s: State, bucket: string, keys: seq<Key>, ids: seq<nat>, now: Time)
    requires Held(s.db)
    ensures Held(DeleteBucket(s, bucket, keys, ids, now).db)
  {
    var n := DeleteBucket(s, bucket, keys, ids, now).db;
    if n != s.db { BucketGone(s.db, n, bucket, keys, ids, now); }
  }

  lemma PurgeHeld(s: State, c: Id, now: Time)
    requires Held(s.db)
    ensures Held(CommitPurge(s, c, now).db)
  {
    FewerHeld(s.db, CommitPurge(s, c, now).db);
  }

  lemma CreatedHeld(s: State, bucket: string, c: Id, item: nat, ids: seq<nat>)
    requires Held(s.db)
    ensures Held(CreateBucket(s, bucket).db) && Held(ReadBin(s, c, item, ids).db)
  {
    FewerHeld(s.db, CreateBucket(s, bucket).db);
    FewerHeld(s.db, ReadBin(s, c, item, ids).db);
  }

  lemma MetadataHeld(s: State, a: MetadataAction)
    requires Inv(s) && Held(s.db)
    ensures Held(NextMetadata(s, a).db)
  {
    match a
    case CreateBucketA(bucket) => CreatedHeld(s, bucket, Empty, 0, []);
    case ReadBinA(call, item, ids) => CreatedHeld(s, "", call, item, ids);
    case RecycleObjectA(key, group, at) => ObjectHeld(s, key, group, at);
    case RecycleFolderA(bucket, folder, keys, group, at) => FolderGoneHeld(s, bucket, folder, keys, group, at);
    case DeleteBucketA(bucket, keys, ids, now) => BucketHeld(s, bucket, keys, ids, now);
    case RestoreA(call) => RestoreHeld(s, call);
    case PurgeA(call, now) => PurgeHeld(s, call, now);
  }

  lemma SameHeld(d: Db, n: Db)
    requires Held(d) && SameTables(d, n)
    ensures Held(n)
  {
  }

  lemma StageTables(s: State, a: StageAction)
    ensures SameTables(s.db, NextStage(s, a).db)
  {
  }

  lemma PublishTables(s: State, a: PublishAction)
    requires !a.PublishA?
    ensures SameTables(s.db, NextPublish(s, a).db)
  {
  }

  lemma WorkerTables(s: State, a: WorkerAction)
    ensures SameTables(s.db, NextWorker(s, a).db)
  {
  }

  lemma ReconcileTables(s: State, a: ReconcileAction)
    ensures SameTables(s.db, NextReconcile(s, a).db)
  {
  }

  lemma PublishingHeld(s: State, a: PublishAction)
    requires AllStagers(s) && Held(s.db)
    ensures Held(NextPublish(s, a).db)
  {
    match a
    case PublishA(q, keys, attrs, overwrite, now, heard) => PublishHeld(s, q, keys, attrs, overwrite, now, heard);
    case _ =>
      PublishTables(s, a);
      SameHeld(s.db, NextPublish(s, a).db);
  }

  lemma NextHeld(s: State, a: Action)
    requires Inv(s) && Held(s.db)
    ensures Held(Next(s, a).db)
  {
    match a
    case Uploading(x) => StageTables(s, x); SameHeld(s.db, Next(s, a).db);
    case Publishing(x) => PublishingHeld(s, x);
    case Working(x) => WorkerTables(s, x); SameHeld(s.db, Next(s, a).db);
    case Reconciling(x) => ReconcileTables(s, x); SameHeld(s.db, Next(s, a).db);
    case Serving(x) => MetadataHeld(s, x);
  }

  lemma {:induction false} RunHeld(s: State, actions: seq<Action>)
    requires Inv(s) && Held(s.db)
    ensures Held(Run(s, actions).db)
    decreases |actions|
  {
    if actions != [] {
      NextHeld(s, actions[0]);
      NextOk(s, actions[0]);
      RunHeld(Next(s, actions[0]), actions[1..]);
    }
  }

  lemma ReachableHeld(s: State)
    requires Reachable(s)
    ensures Held(s.db)
  {
    var first: State, actions: seq<Action> :| Init(first) && s == Run(first, actions);
    InitOk(first);
    RunHeld(first, actions);
  }

  /** In every reachable state, deleting a folder and restoring its group gives back the same
      object table and the same bin; the only row dropped is a synthetic marker. */
  lemma FolderDeleteUndone(s: State, bucket: string, folder: string, keys: seq<Key>, group: Id, at: Time, ids: seq<nat>)
    requires Reachable(s) && FreshName(s, group)
    requires IsFolder(folder) && ListsFolder(s.db.objects, keys, bucket, folder) && keys != []
    requires ListsGroup(RecycleFolder(s, bucket, folder, keys, group, at).db.bin, group, ids)
    ensures var n := RecycleFolder(s, bucket, folder, keys, group, at).db;
      AllIn(n, ids) && Restore(n, ids, RowsAt(n.bin, ids)) == Done(s.db.(nextBinId := n.nextBinId))
  {
    ReachableOk(s);
    ReachableHeld(s);
    assert keys[0] in keys;
    FolderDeleteThenRestore(s.db, bucket, folder, keys, group, at, ids);
  }

  /** In every reachable state, paging through the recycle bin shows every delete group of
      the bucket exactly once, newest first, each under the row that stands for it and with
      the size of all of it, whatever the page size. */
  lemma ReachableBinPages(s: State, table: seq<Row>, bucket: string, limit: nat)
    requires Reachable(s) && ListingOf(table, s.db.bin) && limit > 0
    ensures Pictures(AllPages(table, bucket, None, limit), s.db.bin, table, bucket)
  {
    ReachableOk(s);
    ReachableHeld(s);
    PagesPicture(s.db.bin, s.db.nextBinId, table, bucket, limit);
  }
}
