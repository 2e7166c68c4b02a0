/**
  Files that no upload can write any more: once such a file is gone it stays so. Every path in
  a row, in what a worker has read and in what a walk has found is traced to the one upload
  that can still write there, if any can.
 */
module ProtocolFiles {
  import opened Common
  import opened LedgerTransactions
  import opened LedgerInvariant
  import opened BooksKept
  import opened FolderPaths
  import opened Metadata
  import opened BinGroups
  import opened Protocol
  import opened ProtocolInvariant
  import opened ProtocolLocal
  import opened ProtocolSteps
  import opened ProtocolStaging
  import opened ProtocolPublish
  import opened ProtocolRuns
  import opened ProtocolGuarantees
  import opened ProtocolRows

  // --------------------------------------------------------- who can write a file

  /** Upload b cannot bring the file at p into being: it is done staging, has begun that file
      and left it, or has nothing to place there. */
  predicate CannotWrite(s: State, b: Id, p: Path)
    requires b in s.stagers
  {
    var st := s.stagers[b];
    StillStaging(s, b) ==>
      && (st.stagingPath == p ==> st.written.Some?)
      && (st.storagePath == p ==> st.stage == Placed || (st.written.Some? && st.stagingPath !in s.files))
  }

  ghost predicate NoWriter(s: State, p: Path) { forall b {:trigger CannotWrite(s, b, p)} :: b in s.stagers ==> CannotWrite(s, b, p) }

  /** Nobody can write the file, and if it is gone it is still gone. */
  ghost predicate StaysQuiet(s: State, n: State, p: Path) { NoWriter(n, p) && (p !in s.files ==> p !in n.files) }

  /** Uploads keep their stagers, may stop staging, and lose files at most. */
  ghost predicate Calmer(s: State, n: State) {
    && n.stagers == s.stagers && n.files.Keys <= s.files.Keys
    && forall b :: b in s.stagers && StillStaging(n, b) ==> StillStaging(s, b)
  }

  lemma CalmerQuiet(s: State, n: State, p: Path)
    requires NoWriter(s, p) && Calmer(s, n)
    ensures StaysQuiet(s, n, p)
  {
    forall b | b in n.stagers ensures CannotWrite(n, b, p) { assert CannotWrite(s, b, p); }
  }

  lemma SameRequests(s: State, n: State)
    requires n.stagers == s.stagers && n.files.Keys <= s.files.Keys && n.requests == s.requests
    ensures Calmer(s, n)
  {
  }

  lemma OpenCalmer(s: State, q: Id)
    requires AllStagers(s) && AllRequests(s)
    ensures Calmer(s, Open(s, q))
  {
    forall b | b in s.stagers && StillStaging(Open(s, q), b) ensures StillStaging(s, b) {
      assert StagerOk(s, b) && RequestOk(s, s.stagers[b].request);
    }
  }

  lemma RequestCalmer(s: State, q: Id)
    ensures Calmer(s, Cancel(s, q)) && Calmer(s, Return(s, q)) && Calmer(s, StartAbort(s, q))
  {
  }

  lemma PublisherCalmer(s: State, q: Id)
    ensures Calmer(s, PublishLost(s, q)) && Calmer(s, LoseLease(s, q))
  {
  }

  lemma PublishCalmer(s: State, q: Id, keys: seq<Key>, attrs: seq<Attrs>, overwrite: bool, now: Time, heard: bool)
    ensures Calmer(s, PublishUpload(s, q, keys, attrs, overwrite, now, heard))
  {
  }

  lemma ConfirmCalmer(s: State, q: Id, now: Time, reply: Reply)
    ensures Calmer(s, Confirm(s, q, now, reply))
  {
    if InPhase(s, q, Unsure) { ConfirmCases(s, q, now, reply); }
  }

  // ------------------------------------------------------------- staging actions

  lemma StageRowsQuiet(s: State, q: Id, ds: seq<Draft>, now: Time, until: Time, p: Path)
    requires p in s.issued && NoWriter(s, p)
    ensures StaysQuiet(s, StageRows(s, q, ds, now, until), p)
  {
    var n := StageRows(s, q, ds, now, until);
    if n != s {
      AddStagersAre(s.stagers, q, ds);
      forall b | b in n.stagers ensures CannotWrite(n, b, p) { assert b in s.stagers ==> CannotWrite(s, b, p); }
    }
  }

  lemma ReserveQuiet(s: State, b: Id, bytes: nat, heard: bool, p: Path)
    requires NoWriter(s, p)
    ensures StaysQuiet(s, ReserveMore(s, b, bytes, heard), p)
  {
    var n := ReserveMore(s, b, bytes, heard);
    forall x | x in n.stagers ensures CannotWrite(n, x, p) { assert CannotWrite(s, x, p); }
  }

  lemma WriteQuiet(s: State, b: Id, total: nat, p: Path)
    requires AllApart(s) && NoWriter(s, p)
    ensures StaysQuiet(s, Write(s, b, total), p)
  {
    var n := Write(s, b, total);
    forall x | x in n.stagers ensures CannotWrite(n, x, p) {
      assert CannotWrite(s, x, p) && (b in s.stagers ==> CannotWrite(s, b, p));
      if x != b && b in s.stagers { assert StagersApart(s.stagers[x], s.stagers[b]); }
    }
    if b in s.stagers { assert CannotWrite(s, b, p); }
  }

  lemma EndWriteQuiet(s: State, b: Id, p: Path)
    requires NoWriter(s, p)
    ensures StaysQuiet(s, EndWrite(s, b), p)
  {
    var n := EndWrite(s, b);
    forall x | x in n.stagers ensures CannotWrite(n, x, p) { assert CannotWrite(s, x, p); }
  }

  lemma PlaceQuiet(s: State, b: Id, p: Path)
    requires AllApart(s) && NoWriter(s, p)
    ensures StaysQuiet(s, Place(s, b), p)
  {
    if Place(s, b) != s {
      PlaceIs(s, b);
      assert CannotWrite(s, b, p);
      PlacedQuiet(s, Place(s, b), b, p);
    }
  }

  /** The upload has its file in place: the file was there, or has been moved there. */
  predicate Places(s: State, n: State, b: Id) {
    && StillStaging(s, b) && s.stagers[b].stage == Written
    && n == s.(files := n.files, stagers := s.stagers[b := s.stagers[b].(stage := Placed)])
    && (s.stagers[b].storagePath in s.files || s.stagers[b].stagingPath in s.files)
    && n.files.Keys <= s.files.Keys + {s.stagers[b].storagePath}
  }

  lemma PlaceIs(s: State, b: Id)
    requires Place(s, b) != s
    ensures Places(s, Place(s, b), b)
  {
  }

  lemma PlacedQuiet(s: State, n: State, b: Id, p: Path)
    requires AllApart(s) && NoWriter(s, p) && Places(s, n, b) && CannotWrite(s, b, p)
    ensures StaysQuiet(s, n, p)
  {
    forall x | x in n.stagers ensures CannotWrite(n, x, p) {
      assert CannotWrite(s, x, p);
      if x != b { assert StagersApart(s.stagers[x], s.stagers[b]); }
    }
  }

  lemma StageQuiet(s: State, a: StageAction, p: Path)
    requires Inv(s) && p in s.issued && NoWriter(s, p)
    ensures StaysQuiet(s, NextStage(s, a), p)
  {
    match a
    case OpenA(q) => OpenCalmer(s, q); CalmerQuiet(s, Open(s, q), p);
    case CancelA(q) => RequestCalmer(s, q); CalmerQuiet(s, Cancel(s, q), p);
    case StageRowsA(q, ds, now, until) => StageRowsQuiet(s, q, ds, now, until, p);
    case HeartbeatA(ids, until) => SameRequests(s, Heartbeat(s, ids, until)); CalmerQuiet(s, Heartbeat(s, ids, until), p);
    case ReserveA(b, bytes, heard) => ReserveQuiet(s, b, bytes, heard, p);
    case WriteA(b, total) => WriteQuiet(s, b, total, p);
    case EndWriteA(b) => EndWriteQuiet(s, b, p);
    case PlaceA(b) => PlaceQuiet(s, b, p);
    case ReturnA(q) => RequestCalmer(s, q); CalmerQuiet(s, Return(s, q), p);
  }

  lemma PublishingCalmer(s: State, a: PublishAction)
    ensures Calmer(s, NextPublish(s, a))
  {
    match a
    case PublishA(q, keys, attrs, overwrite, now, heard) => PublishCalmer(s, q, keys, attrs, overwrite, now, heard);
    case ConfirmA(q, now, reply) => ConfirmCalmer(s, q, now, reply);
    case PublishLostA(q) => PublisherCalmer(s, q);
    case LoseLeaseA(q) => PublisherCalmer(s, q);
    case StartAbortA(q) => RequestCalmer(s, q);
    case AbortDeleteA(b, staging) => AbortDeleteCalmer(s, b, staging);
    case _ =>
  }

  lemma AbortDeleteCalmer(s: State, b: Id, staging: bool)
    ensures Calmer(s, AbortDelete(s, b, staging))
  {
  }

  lemma WorkerCalmer(s: State, a: WorkerAction)
    ensures Calmer(s, NextWorker(s, a))
  {
    match a
    case DeleteStagingA(t) => DeletesCalmer(s, t);
    case DeleteStorageA(t) => StorageCalmer(s, t);
    case _ =>
  }

  function WithoutStaging(files: map<Path, nat>, b: Blob): map<Path, nat> {
    if b.HasStaging() then files - {b.stagingPath.value} else files
  }

  /** What a worker's first delete does. */
  lemma DeletesStaging(s: State, t: Id, blob: Blob)
    requires AtStep(s, t, Loaded) && s.workers[t].seen == Some(blob)
    requires blob.HasStaging() ==> blob.stagingPath.value != blob.storagePath
    ensures DeleteStagingFile(s, t) == Advance(s.(files := WithoutStaging(s.files, blob)), t, StagingGone)
  {
  }

  lemma DeletesStagingWorkers(s: State, t: Id)
    ensures var n := DeleteStagingFile(s, t);
      n.workers == s.workers || (t in s.workers && n.workers == s.workers[t := s.workers[t].(step := StagingGone)])
  {
  }

  lemma DeletesCalmer(s: State, t: Id)
    ensures Calmer(s, DeleteStagingFile(s, t))
  {
  }

  lemma StorageCalmer(s: State, t: Id)
    ensures Calmer(s, DeleteStorageFile(s, t))
  {
  }

  lemma ReconcileCalmer(s: State, a: ReconcileAction)
    ensures Calmer(s, NextReconcile(s, a))
  {
    SameRequests(s, NextReconcile(s, a));
  }

  lemma MetadataCalmer(s: State, a: MetadataAction)
    ensures Calmer(s, NextMetadata(s, a))
  {
    SameRequests(s, NextMetadata(s, a));
  }

  lemma NextCalmer(s: State, a: Action)
    requires !a.Uploading?
    ensures Calmer(s, Next(s, a))
  {
    match a
    case Publishing(x) => PublishingCalmer(s, x);
    case Working(x) => WorkerCalmer(s, x);
    case Reconciling(x) => ReconcileCalmer(s, x);
    case Serving(x) => MetadataCalmer(s, x);
  }

  lemma QuietStep(s: State, a: Action, p: Path)
    requires Inv(s) && p in s.issued && NoWriter(s, p)
    ensures StaysQuiet(s, Next(s, a), p)
  {
    if a.Uploading? {
      StageQuiet(s, a.uploading, p);
    } else {
      NextCalmer(s, a);
      CalmerQuiet(s, Next(s, a), p);
    }
  }

  /** A file that no upload can write stays so, and once it is gone it is gone for good. */
  lemma {:induction false} QuietRun(s: State, actions: seq<Action>, p: Path)
    requires Inv(s) && p in s.issued && NoWriter(s, p)
    ensures StaysQuiet(s, Run(s, actions), p)
    decreases |actions|
  {
    if actions != [] {
      QuietStep(s, actions[0], p);
      NextOk(s, actions[0]);
      QuietRun(Next(s, actions[0]), actions[1..], p);
    }
  }

  // ----------------------------------------------------------- where paths come from

  /** A row with a staging path is that of an upload; no upload can still write the file of
      any other row. */
  ghost predicate BlobTraced(s: State, b: Id)
    requires b in s.db.ledger.blobs
  {
    if s.db.ledger.blobs[b].HasStaging() then b in s.stagers else NoWriter(s, s.db.ledger.blobs[b].storagePath)
  }

  /** What a worker has read is the row of its job's upload, or one nobody can write. */
  ghost predicate SeenTraced(s: State, w: Worker) {
    w.seen.Some? ==>
      if w.seen.value.HasStaging()
      then w.job in s.stagers && w.seen.value.stagingPath.value == s.stagers[w.job].stagingPath
        && w.seen.value.storagePath == s.stagers[w.job].storagePath
      else NoWriter(s, w.seen.value.storagePath)
  }

  ghost predicate ScanTraced(s: State, c: Id)
    requires c in s.scans
  {
    forall p :: p in s.scans[c].found ==> NoWriter(s, p)
  }

  ghost predicate Traced(s: State) {
    && (forall b {:trigger BlobTraced(s, b)} :: b in s.db.ledger.blobs ==> BlobTraced(s, b))
    && (forall t {:trigger SeenTraced(s, s.workers[t])} :: t in s.workers ==> SeenTraced(s, s.workers[t]))
    && (forall c {:trigger ScanTraced(s, c)} :: c in s.scans ==> ScanTraced(s, c))
  }

  predicate SamePlaces(a: Stager, b: Stager) { a.stagingPath == b.stagingPath && a.storagePath == b.storagePath }

  /** Stagers stay, under their paths. */
  ghost predicate SameNames(s: State, n: State) {
    forall b :: b in s.stagers ==> b in n.stagers && SamePlaces(s.stagers[b], n.stagers[b])
  }

  lemma StageRowsNames(s: State, q: Id, ds: seq<Draft>, now: Time, until: Time)
    requires AllStagers(s)
    ensures SameNames(s, StageRows(s, q, ds, now, until))
  {
    if StageRows(s, q, ds, now, until) != s {
      AddStagersAre(s.stagers, q, ds);
      forall b | b in s.stagers ensures b in s.issued { assert StagerOk(s, b); }
    }
  }

  lemma ReserveNames(s: State, b: Id, bytes: nat, heard: bool)
    ensures SameNames(s, ReserveMore(s, b, bytes, heard))
  {
  }

  lemma WritingNames(s: State, b: Id, total: nat)
    ensures SameNames(s, Write(s, b, total))
  {
  }

  lemma EndingNames(s: State, b: Id)
    ensures SameNames(s, EndWrite(s, b))
  {
  }

  lemma PlaceNames(s: State, b: Id)
    ensures SameNames(s, Place(s, b))
  {
  }

  lemma StageNames(s: State, a: StageAction)
    requires AllStagers(s)
    ensures SameNames(s, NextStage(s, a))
  {
    match a
    case StageRowsA(q, ds, now, until) => StageRowsNames(s, q, ds, now, until);
    case ReserveA(b, bytes, heard) => ReserveNames(s, b, bytes, heard);
    case WriteA(b, total) => WritingNames(s, b, total);
    case EndWriteA(b) => EndingNames(s, b);
    case PlaceA(b) => PlaceNames(s, b);
    case _ =>
  }

  lemma NamesStep(s: State, a: Action)
    requires Inv(s)
    ensures SameNames(s, Next(s, a))
  {
    if a.Uploading? { StageNames(s, a.uploading); } else { NextCalmer(s, a); }
  }

  /** A row that a step leaves alone stays traced. */
  lemma KeptTraced(s: State, a: Action, b: Id)
    requires Inv(s) && Traced(s) && b in Next(s, a).db.ledger.blobs && RowKept(s.db.ledger, Next(s, a).db.ledger, b)
    ensures BlobTraced(Next(s, a), b)
  {
    assert BlobTraced(s, b) && BlobOk(s, b);
    NamesStep(s, a);
    if !s.db.ledger.blobs[b].HasStaging() { QuietStep(s, a, s.db.ledger.blobs[b].storagePath); }
  }

  lemma SeenKept(s: State, a: Action, t: Id)
    requires Inv(s) && Traced(s) && t in s.workers
    ensures SeenTraced(Next(s, a), s.workers[t])
  {
    assert SeenTraced(s, s.workers[t]) && WorkerOk(s, t);
    NamesStep(s, a);
    var seen := s.workers[t].seen;
    if seen.Some? && !seen.value.HasStaging() { QuietStep(s, a, seen.value.storagePath); }
  }

  lemma FoundKept(s: State, a: Action, c: Id, p: Path)
    requires Inv(s) && Traced(s) && c in s.scans && p in s.scans[c].found
    ensures NoWriter(Next(s, a), p)
  {
    assert ScanTraced(s, c) && ScanOk(s, c);
    QuietStep(s, a, p);
  }

  /** A file that is there has been written: no upload has yet to begin or to place it. */
  lemma PresentIsQuiet(s: State, p: Path)
    requires Inv(s) && p in s.files
    ensures NoWriter(s, p)
  {
    forall b | b in s.stagers ensures CannotWrite(s, b, p) { assert StagerOk(s, b); }
  }

  /** The file of a placed upload has no writer left. */
  lemma PlacedIsQuiet(s: State, b: Id)
    requires Inv(s) && b in s.stagers && s.stagers[b].stage == Placed
    ensures NoWriter(s, s.stagers[b].storagePath)
  {
    var p := s.stagers[b].storagePath;
    forall x | x in s.stagers ensures CannotWrite(s, x, p) {
      assert StagerOk(s, x);
      if x != b { assert StagersApart(s.stagers[x], s.stagers[b]); }
    }
  }

  // ------------------------------------------------------------ tracing every step

  lemma CreatedStaging(s: State, x: StageAction, b: Id)
    requires Inv(s) && b in NextStage(s, x).db.ledger.blobs && b !in s.issued
    ensures NextStage(s, x).db.ledger.blobs[b].status == Staging
  {
    assert b in s.db.ledger.blobs ==> BlobOk(s, b);
    match x
    case StageRowsA(q, ds, now, until) => CreatedRow(s, q, ds, now, until, b);
    case _ =>
  }

  lemma CreatedRow(s: State, q: Id, ds: seq<Draft>, now: Time, until: Time, b: Id)
    requires Inv(s) && b in StageRows(s, q, ds, now, until).db.ledger.blobs && b !in s.db.ledger.blobs
    ensures StageRows(s, q, ds, now, until).db.ledger.blobs[b].status == Staging
  {
    var rows := NewRows(ds);
    CreatedFrom(s.db.ledger, rows, now, until, b);
  }

  lemma {:induction false} CreatedFrom(l: Ledger, rows: seq<NewBlob>, now: Time, until: Time, b: Id)
    requires CreateAll(l, rows, now, until).Ok? && b in CreateAll(l, rows, now, until).ledger.blobs && (b in l.blobs ==> l.blobs[b].status == Staging)
    ensures CreateAll(l, rows, now, until).ledger.blobs[b].status == Staging
    decreases |rows|
  {
    if rows != [] { CreatedFrom(CreateOne(l, rows[0], now, until).ledger, rows[1..], now, until, b); }
  }

  lemma StagedTraced(s: State, x: StageAction, b: Id)
    requires Inv(s) && Traced(s) && b in NextStage(s, x).db.ledger.blobs
    ensures BlobTraced(NextStage(s, x), b)
  {
    if b in s.issued {
      StageKept(s, x, b);
      KeptTraced(s, Uploading(x), b);
    } else {
      var n := NextStage(s, x);
      CreatedStaging(s, x, b);
      NextStageOk(s, x);
      assert BlobOk(n, b) && RowOk(n.db.ledger, Refs(n.db), b);
    }
  }

  lemma RegisteredTraced(s: State, x: ReconcileAction, b: Id)
    requires Inv(s) && Traced(s) && b in NextReconcile(s, x).db.ledger.blobs
    ensures BlobTraced(NextReconcile(s, x), b)
  {
    if b in s.issued {
      ReconcileKept(s, x, b);
      KeptTraced(s, Reconciling(x), b);
    } else {
      assert b in s.db.ledger.blobs ==> BlobOk(s, b);
      match x
      case RegisterA(scan, path, id, now) => RegisterTraced(s, scan, path, id, now, b);
      case _ =>
    }
  }

  lemma RegisterTraced(s: State, scan: Id, path: Path, id: Id, now: Time, b: Id)
    requires Inv(s) && Traced(s) && b in Register(s, scan, path, id, now).db.ledger.blobs && b !in s.db.ledger.blobs
    ensures BlobTraced(Register(s, scan, path, id, now), b)
  {
    FoundKept(s, Reconciling(RegisterA(scan, path, id, now)), scan, path);
  }

  /** A published row has lost its staging path, and its file has been placed. */
  lemma EntryTraced(s: State, q: Id, keys: seq<Key>, attrs: seq<Attrs>, overwrite: bool, now: Time, heard: bool, b: Id)
    requires Inv(s) && InPhase(s, q, Ready) && !s.requests[q].cancelled && b in s.requests[q].entries
    requires b in PublishUpload(s, q, keys, attrs, overwrite, now, heard).db.ledger.blobs
    requires StillPublished(PublishUpload(s, q, keys, attrs, overwrite, now, heard), b)
    ensures BlobTraced(PublishUpload(s, q, keys, attrs, overwrite, now, heard), b)
  {
    var a := Publishing(PublishA(q, keys, attrs, overwrite, now, heard));
    var n := PublishUpload(s, q, keys, attrs, overwrite, now, heard);
    assert b in s.stagers && s.stagers[b].stage == Placed && s.stagers[b].storagePath in s.issued by {
      assert RequestOk(s, q) && EntryOk(s, q, b) && StagerOk(s, b);
    }
    assert NoWriter(n, s.stagers[b].storagePath) by {
      PlacedIsQuiet(s, b);
      QuietStep(s, a, s.stagers[b].storagePath);
    }
    assert n.db.ledger.blobs[b].storagePath == s.stagers[b].storagePath by {
      PublishOk(s, q, keys, attrs, overwrite, now, heard);
      assert StagerOk(n, b);
    }
  }

  lemma OtherPublished(s: State, q: Id, keys: seq<Key>, attrs: seq<Attrs>, overwrite: bool, now: Time, heard: bool, b: Id)
    requires Inv(s) && InPhase(s, q, Ready) && b !in s.requests[q].entries
    requires b in PublishUpload(s, q, keys, attrs, overwrite, now, heard).db.ledger.blobs
    ensures RowKept(s.db.ledger, PublishUpload(s, q, keys, attrs, overwrite, now, heard).db.ledger, b)
  {
    if PublishUpload(s, q, keys, attrs, overwrite, now, heard).db != s.db {
      var items := UploadItems(s, s.requests[q].entries, keys, attrs);
      UploadItemsOk(s, q, keys, attrs);
      assert b in s.db.ledger.blobs by { PublishKeeps(s.db, items, overwrite, now); }
      PublishKeepsOthers(s.db, items, overwrite, now, b);
    }
  }

  lemma PublishedTraced(s: State, q: Id, keys: seq<Key>, attrs: seq<Attrs>, overwrite: bool, now: Time, heard: bool, b: Id)
    requires Inv(s) && Traced(s) && b in PublishUpload(s, q, keys, attrs, overwrite, now, heard).db.ledger.blobs
    ensures BlobTraced(PublishUpload(s, q, keys, attrs, overwrite, now, heard), b)
  {
    var n := PublishUpload(s, q, keys, attrs, overwrite, now, heard);
    if n.db != s.db && b in s.requests[q].entries {
      PublishLeaves(s, q, keys, attrs, overwrite, now, heard, b);
      EntryTraced(s, q, keys, attrs, overwrite, now, heard, b);
    } else {
      assert RowKept(s.db.ledger, n.db.ledger, b) by {
        if n.db != s.db { OtherPublished(s, q, keys, attrs, overwrite, now, heard, b); }
      }
      KeptTraced(s, Publishing(PublishA(q, keys, attrs, overwrite, now, heard)), b);
    }
  }

  /** The rows that an upload does not name keep their paths. */
  lemma PublishKeepsOthers(db: Db, items: seq<Item>, overwrite: bool, now: Time, b: Id)
    requires Audited(db) && (forall t :: t in items ==> ItemOk(db.ledger, t)) && b !in ItemIds(items)
    requires Publish(db, items, overwrite, now).Done? && b in db.ledger.blobs
    ensures RowKept(db.ledger, Publish(db, items, overwrite, now).db.ledger, b)
  {
    var m := ActivateAll(db.ledger, Acts(items)).ledger;
    var counts := CountPaths(Overwritten(db.objects, items));
    assert b in m.blobs && m.blobs[b] == db.ledger.blobs[b] by { ActivateAllKeeps(db.ledger, Refs(db), items); }
    assert RowKept(m, AfterRelease(m, counts, now), b) by {
      ActivateAllKeeps(db.ledger, Refs(db), items);
      ReleaseKept(m, Refs(db) + RefsOf(ItemFiles(items)), counts, now, b);
    }
  }

  lemma BlobsTraced(s: State, a: Action, b: Id)
    requires Inv(s) && Traced(s) && b in Next(s, a).db.ledger.blobs
    ensures BlobTraced(Next(s, a), b)
  {
    match a
    case Uploading(x) => StagedTraced(s, x, b);
    case Publishing(x) => PublishingTraced(s, x, b);
    case Working(x) => WorkerRowKept(s, x, b); KeptTraced(s, a, b);
    case Reconciling(x) => RegisteredTraced(s, x, b);
    case Serving(x) => MetadataKept(s, x, b); KeptTraced(s, a, b);
  }

  lemma PublishingTraced(s: State, x: PublishAction, b: Id)
    requires Inv(s) && Traced(s) && b in NextPublish(s, x).db.ledger.blobs
    ensures BlobTraced(NextPublish(s, x), b)
  {
    if x.PublishA? {
      PublishedTraced(s, x.q, x.keys, x.attrs, x.overwrite, x.now, x.heard, b);
    } else {
      PublishingKept(s, x, b);
      KeptTraced(s, Publishing(x), b);
    }
  }

  /** A worker's job and what it has read never change, but for the one read. */
  predicate SameView(w: Worker, n: Worker) { n.job == w.job && n.seen == w.seen }

  lemma RowSeen(s: State, b: Id)
    requires Inv(s) && Traced(s) && b in s.db.ledger.blobs
    ensures SeenTraced(s, Worker(b, Loaded, Some(s.db.ledger.blobs[b])))
  {
    assert BlobTraced(s, b);
    if b in s.stagers { assert StagerOk(s, b); }
  }

  predicate LoadsRow(s: State, t: Id)
    requires t in s.workers
  {
    var b, w := s.workers[t].job, LoadBlob(s, t).workers[t];
    SameView(s.workers[t], w) || (b in s.db.ledger.blobs && w == Worker(b, Loaded, Some(s.db.ledger.blobs[b])))
  }

  lemma LoadIs(s: State, t: Id)
    requires t in s.workers
    ensures t in LoadBlob(s, t).workers && LoadsRow(s, t)
  {
  }

  lemma LoadTraced(s: State, t: Id)
    requires Inv(s) && Traced(s) && t in s.workers
    ensures t in LoadBlob(s, t).workers && SeenTraced(s, LoadBlob(s, t).workers[t])
  {
    LoadIs(s, t);
    assert SeenTraced(s, s.workers[t]);
    if s.workers[t].job in s.db.ledger.blobs { RowSeen(s, s.workers[t].job); }
  }

  predicate OldOrEmpty(s: State, n: State, t: Id)
    requires t in n.workers
  {
    if t in s.workers then SameView(s.workers[t], n.workers[t]) else n.workers[t].seen.None?
  }

  lemma ClaimViews(s: State, b: Id, token: Id, now: Time, until: Time, t: Id)
    requires t in ClaimJob(s, b, token, now, until).workers && forall u :: u in s.workers ==> u in s.issued
    ensures OldOrEmpty(s, ClaimJob(s, b, token, now, until), t)
  {
  }

  lemma CheckViews(s: State, u: Id, t: Id)
    ensures t in CheckClaim(s, u).workers ==> OldOrEmpty(s, CheckClaim(s, u), t)
  {
  }

  lemma KeepViews(s: State, u: Id, t: Id)
    ensures t in KeepStagingFile(s, u).workers ==> OldOrEmpty(s, KeepStagingFile(s, u), t)
  {
  }

  lemma DeleteViews(s: State, u: Id, t: Id)
    ensures t in DeleteStagingFile(s, u).workers ==> OldOrEmpty(s, DeleteStagingFile(s, u), t)
  {
    DeletesStagingWorkers(s, u);
  }

  lemma StorageViews(s: State, u: Id, t: Id)
    ensures t in DeleteStorageFile(s, u).workers ==> OldOrEmpty(s, DeleteStorageFile(s, u), t)
  {
  }

  lemma OtherViews(s: State, x: WorkerAction, t: Id)
    requires !(x.LoadBlobA? && x.token == t && t in s.workers)
    requires t in NextWorker(s, x).workers && (forall u :: u in s.workers ==> u in s.issued)
    ensures OldOrEmpty(s, NextWorker(s, x), t)
  {
    match x
    case ClaimA(b, token, now, until) => ClaimViews(s, b, token, now, until, t);
    case CheckClaimA(u) => CheckViews(s, u, t);
    case KeepStagingA(u) => KeepViews(s, u, t);
    case DeleteStagingA(u) => DeleteViews(s, u, t);
    case DeleteStorageA(u) => StorageViews(s, u, t);
    case CompleteA(u) => CompleteViews(s, u, t);
    case FailA(u, retryAt) => FailViews(s, u, retryAt, t);
    case LoadBlobA(u) => LoadViews(s, u, t);
    case RenewClaimA(u, until) =>
  }

  lemma CompleteViews(s: State, u: Id, t: Id)
    ensures t in Complete(s, u).workers ==> OldOrEmpty(s, Complete(s, u), t)
  {
  }

  lemma FailViews(s: State, u: Id, retryAt: Time, t: Id)
    ensures t in Fail(s, u, retryAt).workers ==> OldOrEmpty(s, Fail(s, u, retryAt), t)
  {
  }

  lemma LoadViews(s: State, u: Id, t: Id)
    requires !(t == u && t in s.workers) && t in LoadBlob(s, u).workers
    ensures OldOrEmpty(s, LoadBlob(s, u), t)
  {
  }

  lemma SeenCarried(s: State, n: State, w: Worker)
    requires SeenTraced(s, w) && Calmer(s, n)
    ensures SeenTraced(n, w)
  {
    if w.seen.Some? && !w.seen.value.HasStaging() { CalmerQuiet(s, n, w.seen.value.storagePath); }
  }

  lemma LoadedTraced(s: State, t: Id)
    requires Inv(s) && Traced(s) && t in s.workers
    ensures t in LoadBlob(s, t).workers && SeenTraced(LoadBlob(s, t), LoadBlob(s, t).workers[t])
  {
    LoadTraced(s, t);
    SeenCarried(s, LoadBlob(s, t), LoadBlob(s, t).workers[t]);
  }

  lemma WorkerTraced(s: State, x: WorkerAction, t: Id)
    requires Inv(s) && Traced(s) && t in NextWorker(s, x).workers
    ensures SeenTraced(NextWorker(s, x), NextWorker(s, x).workers[t])
  {
    if x.LoadBlobA? && x.token == t && t in s.workers {
      LoadedTraced(s, t);
    } else {
      forall u | u in s.workers ensures u in s.issued { assert WorkerOk(s, u); }
      OtherViews(s, x, t);
      if t in s.workers { SeenKept(s, Working(x), t); }
    }
  }

  predicate SameClients(s: State, n: State) { n.workers == s.workers && n.scans == s.scans }

  lemma StageClients(s: State, x: StageAction)
    ensures SameClients(s, NextStage(s, x))
  {
  }

  lemma PublishClients(s: State, x: PublishAction)
    ensures SameClients(s, NextPublish(s, x))
  {
  }

  lemma MetadataClients(s: State, x: MetadataAction)
    ensures SameClients(s, NextMetadata(s, x))
  {
  }

  lemma ReconcileClients(s: State, x: ReconcileAction)
    ensures NextReconcile(s, x).workers == s.workers
  {
  }

  lemma WorkerClients(s: State, x: WorkerAction)
    ensures NextWorker(s, x).scans == s.scans
  {
  }

  lemma SameWorkers(s: State, a: Action)
    requires !a.Working?
    ensures Next(s, a).workers == s.workers
  {
    match a
    case Uploading(x) => StageClients(s, x);
    case Publishing(x) => PublishClients(s, x);
    case Reconciling(x) => ReconcileClients(s, x);
    case Serving(x) => MetadataClients(s, x);
  }

  lemma WorkersTraced(s: State, a: Action, t: Id)
    requires Inv(s) && Traced(s) && t in Next(s, a).workers
    ensures SeenTraced(Next(s, a), Next(s, a).workers[t])
  {
    if a.Working? {
      WorkerTraced(s, a.work, t);
    } else {
      SameWorkers(s, a);
      SeenKept(s, a, t);
    }
  }

  /** A walk meets only files that are there. */
  predicate FoundBefore(s: State, c: Id, p: Path) { p in s.files || (c in s.scans && p in s.scans[c].found) }

  lemma FoundFrom(s: State, x: ReconcileAction, c: Id, p: Path)
    requires c in NextReconcile(s, x).scans && p in NextReconcile(s, x).scans[c].found
    ensures FoundBefore(s, c, p)
  {
  }

  lemma SameScans(s: State, a: Action)
    requires !a.Reconciling?
    ensures Next(s, a).scans == s.scans
  {
    match a
    case Uploading(x) => StageClients(s, x);
    case Publishing(x) => PublishClients(s, x);
    case Working(x) => WorkerClients(s, x);
    case Serving(x) => MetadataClients(s, x);
  }

  lemma ScansTraced(s: State, a: Action, c: Id)
    requires Inv(s) && Traced(s) && c in Next(s, a).scans
    ensures ScanTraced(Next(s, a), c)
  {
    forall p | p in Next(s, a).scans[c].found ensures NoWriter(Next(s, a), p) {
      if a.Reconciling? { FoundFrom(s, a.reconciling, c, p); } else { SameScans(s, a); }
      if p in s.files {
        assert p in s.issued;
        PresentIsQuiet(s, p);
        QuietStep(s, a, p);
      } else {
        FoundKept(s, a, c, p);
      }
    }
  }

  lemma TracedStep(s: State, a: Action)
    requires Inv(s) && Traced(s)
    ensures Traced(Next(s, a))
  {
    var n := Next(s, a);
    forall b | b in n.db.ledger.blobs ensures BlobTraced(n, b) { BlobsTraced(s, a, b); }
    forall t | t in n.workers ensures SeenTraced(n, n.workers[t]) { WorkersTraced(s, a, t); }
    forall c | c in n.scans ensures ScanTraced(n, c) { ScansTraced(s, a, c); }
  }

  lemma {:induction false} TracedRun(s: State, actions: seq<Action>)
    requires Inv(s) && Traced(s)
    ensures Traced(Run(s, actions))
    decreases |actions|
  {
    if actions != [] {
      TracedStep(s, actions[0]);
      NextOk(s, actions[0]);
      TracedRun(Next(s, actions[0]), actions[1..]);
    }
  }

  lemma ReachableTraced(s: State)
    requires Reachable(s)
    ensures Traced(s)
  {
    var first: State, actions: seq<Action> :| Init(first) && s == Run(first, actions);
    InitOk(first);
    TracedRun(first, actions);
  }
}
