/** What each step leaves as it was in the row of a blob, its lease and its cleanup job. */
module ProtocolRows {
  import opened Common
  import opened LedgerTransactions
  import opened LedgerInvariant
  import opened BooksKept
  import opened FolderPaths
  import opened Metadata
  import opened BinGroups
  import opened Protocol
  import opened ProtocolInvariant
  import opened ProtocolSteps
  import opened ProtocolPublish
  import opened ProtocolGuarantees

  /** The staging lease of a blob was left as it was, unless the blob stopped staging. */
  predicate LeaseKept(l: Ledger, n: Ledger, k: Id) {
    k in n.blobs && n.blobs[k].status == Staging ==>
      k in l.blobs && l.blobs[k].status == Staging && n.blobs[k].lease == l.blobs[k].lease
  }

  /** The cleanup job of a blob was left as it was, unless the blob has gone. */
  predicate JobKept(l: Ledger, n: Ledger, k: Id) {
    k in n.blobs ==> k in l.blobs && (k in l.jobs ==> k in n.jobs && n.jobs[k] == l.jobs[k])
  }

  /** The paths and the age of a row never change, nor does it become active, or change its
      size while active, other than by a publish. */
  predicate RowKept(l: Ledger, n: Ledger, k: Id) {
    k in n.blobs ==>
      && k in l.blobs && n.blobs[k].storagePath == l.blobs[k].storagePath
      && n.blobs[k].stagingPath == l.blobs[k].stagingPath && n.blobs[k].createdAt == l.blobs[k].createdAt
      && (n.blobs[k].status == Active ==> l.blobs[k].status == Active && n.blobs[k].size == l.blobs[k].size)
  }

  predicate Kept(l: Ledger, n: Ledger, k: Id) { LeaseKept(l, n, k) && JobKept(l, n, k) }

  // ------------------------------------------------------- ledger transactions

  lemma {:induction false} CreateAllKept(l: Ledger, rows: seq<NewBlob>, now: Time, until: Time, k: Id)
    requires CreateAll(l, rows, now, until).Ok? && forall r :: r in rows ==> r.id != k
    ensures Kept(l, CreateAll(l, rows, now, until).ledger, k)
    ensures RowKept(l, CreateAll(l, rows, now, until).ledger, k)
    decreases |rows|
  {
    if rows != [] {
      assert rows[0] in rows;
      CreateAllKept(CreateOne(l, rows[0], now, until).ledger, rows[1..], now, until, k);
    }
  }

  lemma {:induction false} ReleaseStagingAllKept(l: Ledger, ids: seq<Id>, k: Id)
    requires ReleaseStagingAll(l, ids).Ok?
    ensures Kept(l, ReleaseStagingAll(l, ids).ledger, k)
    ensures RowKept(l, ReleaseStagingAll(l, ids).ledger, k)
    decreases |ids|
  {
    if ids != [] {
      var first := if ids[0] == Empty then Ok(l) else ReleaseStagingOne(l, ids[0]);
      ReleaseStagingAllKept(first.ledger, ids[1..], k);
    }
  }

  lemma {:induction false} ActivateAllKept(l: Ledger, acts: seq<Activation>, k: Id)
    requires ActivateAll(l, acts).Ok?
    ensures Kept(l, ActivateAll(l, acts).ledger, k)
    decreases |acts|
  {
    if acts != [] { ActivateAllKept(ActivateOne(l, acts[0]).ledger, acts[1..], k); }
  }

  /** A release reopens the jobs of active blobs only, and those have none. */
  lemma ReleaseKept(l: Ledger, refs: multiset<Ref>, counts: multiset<Path>, now: Time, k: Id)
    requires Books(l, refs)
    ensures Kept(l, AfterRelease(l, counts, now), k)
    ensures RowKept(l, AfterRelease(l, counts, now), k)
  {
    if k in l.blobs { assert RowOk(l, refs, k); }
  }

  lemma SealKept(l: Ledger, ids: set<Id>, before: Time, now: Time, k: Id)
    ensures SealWithJobs(l, ids, now).Ok? ==> Kept(l, SealWithJobs(l, ids, now).ledger, k)
    ensures SealWithJobs(l, ids, now).Ok? ==> RowKept(l, SealWithJobs(l, ids, now).ledger, k)
    ensures Expire(l, ids, before, now).Ok? ==> Kept(l, Expire(l, ids, before, now).ledger, k)
    ensures Expire(l, ids, before, now).Ok? ==> RowKept(l, Expire(l, ids, before, now).ledger, k)
  {
  }

  lemma RenewLeaseKept(l: Ledger, ids: set<Id>, until: Time, k: Id)
    requires RenewLease(l, ids, until).Ok?
    ensures JobKept(l, RenewLease(l, ids, until).ledger, k)
    ensures RowKept(l, RenewLease(l, ids, until).ledger, k)
    ensures k !in ids ==> LeaseKept(l, RenewLease(l, ids, until).ledger, k)
  {
  }

  lemma EnqueueKept(l: Ledger, paths: map<Id, Path>, now: Time, k: Id)
    requires Enqueue(l, paths, now).Ok?
    ensures Kept(l, Enqueue(l, paths, now).ledger, k)
    ensures RowKept(l, Enqueue(l, paths, now).ledger, k)
  {
  }

  lemma CompleteJobKept(l: Ledger, job: Id, t: Id, k: Id)
    requires CompleteJob(l, job, t).Ok?
    ensures Kept(l, CompleteJob(l, job, t).ledger, k)
    ensures RowKept(l, CompleteJob(l, job, t).ledger, k)
  {
  }

  lemma RegisterOrphanKept(l: Ledger, id: Id, path: Path, size: nat, now: Time, k: Id)
    requires RegisterOrphan(l, id, path, size, now).Ok? && id != k
    ensures Kept(l, RegisterOrphan(l, id, path, size, now).ledger, k)
    ensures RowKept(l, RegisterOrphan(l, id, path, size, now).ledger, k)
  {
  }

  lemma ScheduleOrphanKept(l: Ledger, id: Id, now: Time, k: Id)
    requires ScheduleOrphan(l, id, now).Ok?
    ensures LeaseKept(l, ScheduleOrphan(l, id, now).ledger, k)
    ensures RowKept(l, ScheduleOrphan(l, id, now).ledger, k)
    ensures id != k ==> JobKept(l, ScheduleOrphan(l, id, now).ledger, k)
  {
  }

  // ------------------------------------------------------------ client actions

  lemma {:induction false} NewRowIds(ds: seq<Draft>, k: Id)
    requires forall d :: d in ds ==> d.id != k
    ensures forall r :: r in NewRows(ds) ==> r.id != k
  {
    if ds != [] {
      assert ds[0] in ds;
      NewRowIds(ds[1..], k);
    }
  }

  lemma StageRowsKept(s: State, q: Id, ds: seq<Draft>, now: Time, until: Time, k: Id)
    requires k in s.issued
    ensures Kept(s.db.ledger, StageRows(s, q, ds, now, until).db.ledger, k)
    ensures RowKept(s.db.ledger, StageRows(s, q, ds, now, until).db.ledger, k)
  {
    if FreshDrafts(s, ds) && CreateAll(s.db.ledger, NewRows(ds), now, until).Ok? {
      NewRowIds(ds, k);
      CreateAllKept(s.db.ledger, NewRows(ds), now, until, k);
    }
  }

  lemma ReserveKept(s: State, b: Id, bytes: nat, heard: bool, k: Id)
    ensures Kept(s.db.ledger, ReserveMore(s, b, bytes, heard).db.ledger, k)
    ensures RowKept(s.db.ledger, ReserveMore(s, b, bytes, heard).db.ledger, k)
  {
  }

  lemma HeartbeatKept(s: State, ids: set<Id>, until: Time, k: Id)
    ensures JobKept(s.db.ledger, Heartbeat(s, ids, until).db.ledger, k)
    ensures RowKept(s.db.ledger, Heartbeat(s, ids, until).db.ledger, k)
    ensures k !in ids ==> LeaseKept(s.db.ledger, Heartbeat(s, ids, until).db.ledger, k)
  {
    if RenewLease(s.db.ledger, ids, until).Ok? { RenewLeaseKept(s.db.ledger, ids, until, k); }
  }

  lemma StageKept(s: State, a: StageAction, k: Id)
    requires k in s.issued
    ensures JobKept(s.db.ledger, NextStage(s, a).db.ledger, k)
    ensures RowKept(s.db.ledger, NextStage(s, a).db.ledger, k)
    ensures !(a.HeartbeatA? && k in a.ids) ==> LeaseKept(s.db.ledger, NextStage(s, a).db.ledger, k)
  {
    match a
    case StageRowsA(q, ds, now, until) => StageRowsKept(s, q, ds, now, until, k);
    case ReserveA(b, bytes, heard) => ReserveKept(s, b, bytes, heard, k);
    case HeartbeatA(ids, until) => HeartbeatKept(s, ids, until, k);
    case _ =>
  }

  lemma KeptThen(l: Ledger, m: Ledger, n: Ledger, k: Id)
    requires Kept(l, m, k) && Kept(m, n, k)
    ensures Kept(l, n, k)
  {
  }

  lemma PublishLedgerKept(db: Db, items: seq<Item>, overwrite: bool, now: Time, k: Id)
    requires Audited(db) && Publish(db, items, overwrite, now).Done? && forall t :: t in items ==> ItemOk(db.ledger, t)
    ensures Kept(db.ledger, Publish(db, items, overwrite, now).db.ledger, k)
  {
    var m := ActivateAll(db.ledger, Acts(items)).ledger;
    var counts := CountPaths(Overwritten(db.objects, items));
    assert Kept(db.ledger, m, k) by { ActivateAllKept(db.ledger, Acts(items), k); }
    assert Kept(m, AfterRelease(m, counts, now), k) by {
      ActivateAllKeeps(db.ledger, Refs(db), items);
      ReleaseKept(m, Refs(db) + RefsOf(ItemFiles(items)), counts, now, k);
    }
    KeptThen(db.ledger, m, AfterRelease(m, counts, now), k);
  }

  lemma PublishUploadKept(s: State, q: Id, keys: seq<Key>, attrs: seq<Attrs>, overwrite: bool, now: Time, heard: bool, k: Id)
    requires Inv(s)
    ensures Kept(s.db.ledger, PublishUpload(s, q, keys, attrs, overwrite, now, heard).db.ledger, k)
  {
    if PublishUpload(s, q, keys, attrs, overwrite, now, heard).db != s.db {
      UploadItemsOk(s, q, keys, attrs);
      PublishLedgerKept(s.db, UploadItems(s, s.requests[q].entries, keys, attrs), overwrite, now, k);
    }
  }

  lemma ConfirmKept(s: State, q: Id, now: Time, reply: Reply, k: Id)
    ensures Kept(s.db.ledger, Confirm(s, q, now, reply).db.ledger, k)
    ensures RowKept(s.db.ledger, Confirm(s, q, now, reply).db.ledger, k)
  {
    if InPhase(s, q, Unsure) {
      ConfirmCases(s, q, now, reply);
      SealKept(s.db.ledger, Entries(s, q), 0, now, k);
    }
  }

  lemma AbortReleaseKept(s: State, ids: seq<Id>, k: Id)
    ensures Kept(s.db.ledger, AbortRelease(s, ids).db.ledger, k)
    ensures RowKept(s.db.ledger, AbortRelease(s, ids).db.ledger, k)
  {
    if ReleaseStagingAll(s.db.ledger, ids).Ok? { ReleaseStagingAllKept(s.db.ledger, ids, k); }
  }

  lemma AbortEnqueueKept(s: State, ids: set<Id>, now: Time, k: Id)
    ensures Kept(s.db.ledger, AbortEnqueue(s, ids, now).db.ledger, k)
    ensures RowKept(s.db.ledger, AbortEnqueue(s, ids, now).db.ledger, k)
  {
    var paths := map b | b in ids && b in s.stagers :: s.stagers[b].storagePath;
    if Enqueue(s.db.ledger, paths, now).Ok? { EnqueueKept(s.db.ledger, paths, now, k); }
  }

  lemma ExpireKept(s: State, ids: set<Id>, before: Time, now: Time, k: Id)
    ensures Kept(s.db.ledger, ExpireStaging(s, ids, before, now).db.ledger, k)
    ensures RowKept(s.db.ledger, ExpireStaging(s, ids, before, now).db.ledger, k)
  {
    SealKept(s.db.ledger, ids, before, now, k);
  }

  lemma PublishingKept(s: State, a: PublishAction, k: Id)
    requires Inv(s)
    ensures Kept(s.db.ledger, NextPublish(s, a).db.ledger, k)
    ensures !a.PublishA? ==> RowKept(s.db.ledger, NextPublish(s, a).db.ledger, k)
  {
    match a
    case PublishA(q, keys, attrs, overwrite, now, heard) => PublishUploadKept(s, q, keys, attrs, overwrite, now, heard, k);
    case ConfirmA(q, now, reply) => ConfirmKept(s, q, now, reply, k);
    case AbortReleaseA(ids) => AbortReleaseKept(s, ids, k);
    case AbortEnqueueA(ids, now) => AbortEnqueueKept(s, ids, now, k);
    case ExpireA(ids, before, now) => ExpireKept(s, ids, before, now, k);
    case _ =>
  }

  lemma CompleteKept(s: State, t: Id, k: Id)
    ensures Kept(s.db.ledger, Complete(s, t).db.ledger, k)
    ensures RowKept(s.db.ledger, Complete(s, t).db.ledger, k)
  {
    if AtStep(s, t, AllGone) && CompleteJob(s.db.ledger, s.workers[t].job, t).Ok? {
      CompleteJobKept(s.db.ledger, s.workers[t].job, t, k);
    }
  }

  lemma RegisterKept(s: State, scan: Id, path: Path, id: Id, now: Time, k: Id)
    requires k in s.issued
    ensures Kept(s.db.ledger, Register(s, scan, path, id, now).db.ledger, k)
    ensures RowKept(s.db.ledger, Register(s, scan, path, id, now).db.ledger, k)
  {
    var n := Register(s, scan, path, id, now);
    if n != s { RegisterOrphanKept(s.db.ledger, id, path, s.scans[scan].found[path], now, k); }
  }

  lemma ScheduleKept(s: State, id: Id, now: Time, k: Id)
    ensures LeaseKept(s.db.ledger, Schedule(s, id, now).db.ledger, k)
    ensures RowKept(s.db.ledger, Schedule(s, id, now).db.ledger, k)
    ensures id != k ==> JobKept(s.db.ledger, Schedule(s, id, now).db.ledger, k)
  {
    if ScheduleOrphan(s.db.ledger, id, now).Ok? { ScheduleOrphanKept(s.db.ledger, id, now, k); }
  }

  lemma ReconcileKept(s: State, a: ReconcileAction, k: Id)
    requires k in s.issued
    ensures LeaseKept(s.db.ledger, NextReconcile(s, a).db.ledger, k)
    ensures RowKept(s.db.ledger, NextReconcile(s, a).db.ledger, k)
    ensures !(a.ScheduleA? && a.id == k) ==> JobKept(s.db.ledger, NextReconcile(s, a).db.ledger, k)
  {
    match a
    case RegisterA(scan, path, id, now) => RegisterKept(s, scan, path, id, now, k);
    case ScheduleA(id, now) => ScheduleKept(s, id, now, k);
    case _ =>
  }

  lemma BucketKept(s: State, bucket: string, keys: seq<Key>, ids: seq<nat>, now: Time, k: Id)
    requires Inv(s)
    ensures Kept(s.db.ledger, DeleteBucket(s, bucket, keys, ids, now).db.ledger, k)
    ensures RowKept(s.db.ledger, DeleteBucket(s, bucket, keys, ids, now).db.ledger, k)
  {
    if ListsBucket(s.db, bucket, keys, ids) && bucket in s.db.buckets { DropBucketKept(s.db, bucket, keys, ids, now, k); }
  }

  lemma DropBucketKept(db: Db, bucket: string, keys: seq<Key>, ids: seq<nat>, now: Time, k: Id)
    requires Audited(db) && ListsBucket(db, bucket, keys, ids)
    ensures var r := DropBucket(db, bucket, keys, ids, now);
      r.Done? ==> Kept(db.ledger, r.db.ledger, k) && RowKept(db.ledger, r.db.ledger, k)
  {
    ReleaseKept(db.ledger, Refs(db), CountPaths(FilesAt(db.objects, keys) + BinFiles(db.bin, ids)), now, k);
  }

  lemma PurgeDbKept(db: Db, ids: seq<nat>, rows: seq<BinRow>, now: Time, k: Id)
    requires Audited(db) && Purge(db, ids, rows, now).Done?
    ensures Kept(db.ledger, Purge(db, ids, rows, now).db.ledger, k)
    ensures RowKept(db.ledger, Purge(db, ids, rows, now).db.ledger, k)
  {
    ReleaseKept(db.ledger, Refs(db), CountPaths(Files(rows)), now, k);
  }

  lemma PurgeKept(s: State, c: Id, now: Time, k: Id)
    requires Audited(s.db)
    ensures Kept(s.db.ledger, CommitPurge(s, c, now).db.ledger, k)
    ensures RowKept(s.db.ledger, CommitPurge(s, c, now).db.ledger, k)
  {
    if CallOpen(s, c) && Purge(s.db, s.calls[c].ids, s.calls[c].rows, now).Done? {
      PurgeDbKept(s.db, s.calls[c].ids, s.calls[c].rows, now, k);
    }
  }

  lemma MetadataKept(s: State, a: MetadataAction, k: Id)
    requires Inv(s)
    ensures Kept(s.db.ledger, NextMetadata(s, a).db.ledger, k)
    ensures RowKept(s.db.ledger, NextMetadata(s, a).db.ledger, k)
  {
    match a
    case DeleteBucketA(bucket, keys, ids, now) => BucketKept(s, bucket, keys, ids, now, k);
    case PurgeA(call, now) => PurgeKept(s, call, now, k);
    case _ =>
  }

  lemma WorkerRowKept(s: State, a: WorkerAction, k: Id)
    ensures LeaseKept(s.db.ledger, NextWorker(s, a).db.ledger, k) && RowKept(s.db.ledger, NextWorker(s, a).db.ledger, k)
  {
    match a
    case CompleteA(t) => CompleteKept(s, t, k);
    case _ =>
  }
}
