/** Each action of each client keeps the system invariant. */
module ProtocolSteps {
  import opened Common
  import opened LedgerTransactions
  import opened LedgerInvariant
  import opened BooksKept
  import opened FolderPaths
  import opened Metadata
  import opened BinGroups
  import opened Protocol
  import opened ProtocolInvariant
  import opened ProtocolDbSteps
  import opened ProtocolLocal

  lemma Stays(s: State)
    requires Inv(s)
    ensures StepOk(s, s)
  {
  }

  /** One ledger transaction by a client that is entitled to it. */
  lemma LedgerStep(s: State, l: Ledger, c: Change)
    requires Inv(s) && Keeps(s.db.ledger, Ok(l), Refs(s.db), c)
    requires c.activated == {} && c.newPaths == {} && c.claim.None? && c.created == {}
    requires forall b :: b in c.jobbed ==> GivenUp(s, b)
    ensures StepOk(s, WithLedger(s, l))
  {
    var n := WithLedger(s, l);
    assert Refs(n.db) == Refs(s.db);
    DbStepOk(s, n, c);
  }

  lemma HeartbeatOk(s: State, ids: set<Id>, until: Time)
    requires Inv(s)
    ensures StepOk(s, Heartbeat(s, ids, until))
  {
    RenewLeaseKeeps(s.db.ledger, Refs(s.db), ids, until);
    match RenewLease(s.db.ledger, ids, until) case Err(_) => case Ok(l) => LedgerStep(s, l, NOTHING);
  }

  lemma ExpireOk(s: State, ids: set<Id>, before: Time, now: Time)
    requires Inv(s)
    ensures StepOk(s, ExpireStaging(s, ids, before, now))
  {
    ExpireKeeps(s.db.ledger, Refs(s.db), ids, before, now);
    match Expire(s.db.ledger, ids, before, now) case Err(_) => case Ok(l) => LedgerStep(s, l, NOTHING);
  }

  lemma RenewClaimOk(s: State, t: Id, until: Time)
    requires Inv(s)
    ensures StepOk(s, RenewClaim(s, t, until))
  {
    if t in s.workers {
      RenewJobKeeps(s.db.ledger, Refs(s.db), s.workers[t].job, t, until);
      match RenewJob(s.db.ledger, s.workers[t].job, t, until) case Err(_) => case Ok(l) => LedgerStep(s, l, NOTHING);
    }
  }

  lemma ScheduleOk(s: State, id: Id, now: Time)
    requires Inv(s)
    ensures StepOk(s, Schedule(s, id, now))
  {
    ScheduleOrphanKeeps(s.db.ledger, Refs(s.db), id, now);
    match ScheduleOrphan(s.db.ledger, id, now) case Err(_) => case Ok(l) => LedgerStep(s, l, NOTHING);
  }

  lemma QuotaStep(s: State, l: Ledger)
    requires Inv(s) && l.blobs == s.db.ledger.blobs && l.jobs == s.db.ledger.jobs
    requires l.quota.used == s.db.ledger.quota.used && l.quota.reserved == s.db.ledger.quota.reserved
    requires l.quota.max <= MAX_U64
    ensures StepOk(s, WithLedger(s, l))
  {
    SameRows(s.db.ledger, l, Refs(s.db));
    assert Moves(s.db.ledger, l, NOTHING);
    assert Refs(WithLedger(s, l).db) == Refs(s.db);
    DbStepOk(s, WithLedger(s, l), NOTHING);
  }

  lemma AbortReleaseOk(s: State, ids: seq<Id>)
    requires Inv(s)
    ensures StepOk(s, AbortRelease(s, ids))
  {
    ReleaseStagingAllKeeps(s.db.ledger, Refs(s.db), ids);
    match ReleaseStagingAll(s.db.ledger, ids)
    case Err(_) =>
    case Ok(l) => LedgerStep(s, l, NOTHING.(dropped := set b | b in ids));
  }

  /** An entry of an aborting upload was never published. */
  lemma GivenUpBlob(s: State, b: Id)
    requires Inv(s) && GivenUp(s, b) && b in s.db.ledger.blobs
    ensures s.db.ledger.blobs[b].storagePath == s.stagers[b].storagePath
    ensures s.db.ledger.blobs[b].status == Staging || s.db.ledger.blobs[b].status == PendingDelete
  {
    assert StagerOk(s, b) && RequestOk(s, s.stagers[b].request);
    assert EntryOk(s, s.stagers[b].request, b);
    assert RowOk(s.db.ledger, Refs(s.db), b);
  }

  lemma GivenUpEnqueued(s: State, paths: map<Id, Path>, now: Time)
    requires Inv(s) && forall b :: b in paths ==> GivenUp(s, b) && paths[b] == s.stagers[b].storagePath
    ensures Keeps(s.db.ledger, Enqueue(s.db.ledger, paths, now), Refs(s.db), NOTHING.(jobbed := paths.Keys))
  {
    forall b | b in paths && b in s.db.ledger.blobs
      ensures s.db.ledger.blobs[b].storagePath == paths[b]
      ensures s.db.ledger.blobs[b].status == Staging || s.db.ledger.blobs[b].status == PendingDelete
    {
      GivenUpBlob(s, b);
    }
    EnqueueKeeps(s.db.ledger, Refs(s.db), paths, now);
  }

  lemma AbortEnqueueOk(s: State, ids: set<Id>, now: Time)
    requires Inv(s)
    ensures StepOk(s, AbortEnqueue(s, ids, now))
  {
    if forall b :: b in ids ==> GivenUp(s, b) {
      var paths := map b | b in ids && b in s.stagers :: s.stagers[b].storagePath;
      if Enqueue(s.db.ledger, paths, now).Ok? { EnqueuedOk(s, paths, now); } else { Stays(s); }
    } else {
      Stays(s);
    }
  }

  lemma EnqueuedOk(s: State, paths: map<Id, Path>, now: Time)
    requires Inv(s) && forall b :: b in paths ==> GivenUp(s, b) && paths[b] == s.stagers[b].storagePath
    requires Enqueue(s.db.ledger, paths, now).Ok?
    ensures StepOk(s, WithLedger(s, Enqueue(s.db.ledger, paths, now).ledger))
  {
    GivenUpEnqueued(s, paths, now);
    LedgerStep(s, Enqueue(s.db.ledger, paths, now).ledger, NOTHING.(jobbed := paths.Keys));
  }

  lemma RegisterOk(s: State, scan: Id, path: Path, id: Id, now: Time)
    requires Inv(s)
    ensures StepOk(s, Register(s, scan, path, id, now))
  {
    var n := Register(s, scan, path, id, now);
    if n != s {
      assert ScanOk(s, scan);
      forall b | b in s.db.ledger.blobs ensures b != id { assert BlobOk(s, b); }
      RegisterOrphanKeeps(s.db.ledger, Refs(s.db), id, path, s.scans[scan].found[path], now);
      assert Refs(n.db) == Refs(s.db);
      DbStepOk(s, n, NOTHING.(created := {id}));
    }
  }

  // ------------------------------------------------------------------ metadata

  lemma MetadataStep(s: State, n: State)
    requires Inv(s) && n == s.(db := n.db, issued := n.issued) && s.issued <= n.issued
    requires Audited(n.db) && BinOk(n.db.bin, n.db.nextBinId) && BinGrows(s, n.db)
    requires Moves(s.db.ledger, n.db.ledger, NOTHING) && n.db.ledger.quota.max == s.db.ledger.quota.max
    requires forall i :: i in n.db.bin ==> n.db.bin[i].group in n.issued
    ensures StepOk(s, n)
  {
    DbStepOk(s, n, NOTHING);
  }

  lemma NoMove(l: Ledger)
    ensures Moves(l, l, NOTHING)
  {
  }

  lemma CreateBucketOk(s: State, bucket: string)
    requires Inv(s)
    ensures StepOk(s, CreateBucket(s, bucket))
  {
    NoMove(s.db.ledger);
    assert Refs(CreateBucket(s, bucket).db) == Refs(s.db);
    MetadataStep(s, CreateBucket(s, bucket));
  }

  lemma FreshGroup(s: State, group: Id)
    requires Inv(s) && FreshName(s, group)
    ensures group !in s.issued
    ensures forall i :: i in s.db.bin ==> s.db.bin[i].group != group
  {
  }

  /** A recycle inserts one group of rows and leaves the old rows alone. */
  lemma RecycleGrows(s: State, keys: seq<Key>, group: Id, at: Time, extra: seq<BinRow>)
    requires Inv(s) && group !in s.issued && forall k :: k in keys ==> k in s.db.objects
    requires forall r :: r in extra ==> r.group == group
    ensures BinGrows(s, Recycle(s.db, keys, group, at, extra))
    ensures forall i :: i in Recycle(s.db, keys, group, at, extra).bin ==>
      Recycle(s.db, keys, group, at, extra).bin[i].group in s.issued + {group}
  {
    BinRowsAre(s.db.objects, keys, group, at);
    BinInsertAt(s.db.bin, s.db.nextBinId, BinRows(s.db.objects, keys, group, at) + extra);
  }

  lemma RecycleObjectOk(s: State, key: Key, group: Id, at: Time)
    requires Inv(s)
    ensures StepOk(s, RecycleObject(s, key, group, at))
  {
    if FreshName(s, group) {
      FreshGroup(s, group);
      NoMove(s.db.ledger);
      DeleteObjectKeeps(s.db, key, group, at);
      if key in s.db.objects { RecycleGrows(s, [key], group, at, []); }
      MetadataStep(s, RecycleObject(s, key, group, at));
    }
  }

  lemma FolderGrows(s: State, bucket: string, folder: string, keys: seq<Key>, group: Id, at: Time)
    requires Inv(s) && FreshName(s, group) && ListsFolder(s.db.objects, keys, bucket, folder) && keys != []
    ensures var d := DeleteFolder(s.db, bucket, folder, keys, group, at).db;
      BinGrows(s, d) && forall i :: i in d.bin ==> d.bin[i].group in s.issued + {group}
  {
    var marker := Key(bucket, folder + MARKER);
    MarkerLastIs(keys, marker);
    RecycleGrows(s, MarkerLast(keys, marker), group, at, ExtraMarker(keys, bucket, folder, group, at));
  }

  lemma RecycleFolderOk(s: State, bucket: string, folder: string, keys: seq<Key>, group: Id, at: Time)
    requires Inv(s)
    ensures StepOk(s, RecycleFolder(s, bucket, folder, keys, group, at))
  {
    if !FreshName(s, group) || !IsFolder(folder) || !ListsFolder(s.db.objects, keys, bucket, folder) {
      Stays(s);
    } else {
      FreshGroup(s, group);
      NoMove(s.db.ledger);
      DeleteFolderKeeps(s.db, bucket, folder, keys, group, at);
      if keys != [] { FolderGrows(s, bucket, folder, keys, group, at); }
      MetadataStep(s, RecycleFolder(s, bucket, folder, keys, group, at));
    }
  }

  lemma DeleteBucketOk(s: State, bucket: string, keys: seq<Key>, ids: seq<nat>, now: Time)
    requires Inv(s)
    ensures StepOk(s, DeleteBucket(s, bucket, keys, ids, now))
  {
    if ListsBucket(s.db, bucket, keys, ids) {
      DropBucketKeeps(s.db, bucket, keys, ids, now);
      if bucket in s.db.buckets {
        forall m, j | m in ids && m in s.db.bin && IsMarkerRow(s.db.bin[m]) && j in s.db.bin && Together(s.db.bin[m], s.db.bin[j])
          ensures j in ids
        {
          assert Uniform(s.db.bin[m], s.db.bin[j]);
        }
        DropKeepsGroups(s.db.bin, s.db.nextBinId, ids);
        MetadataStep(s, DeleteBucket(s, bucket, keys, ids, now));
      }
    }
  }

  lemma CallWhole(s: State, c: Id)
    requires Inv(s) && c in s.calls && AllIn(s.db, s.calls[c].ids)
    ensures Distinct(s.calls[c].ids) && s.calls[c].rows == RowsAt(s.db.bin, s.calls[c].ids)
    ensures WholeMarkers(s.db.bin, s.calls[c].ids)
  {
    assert CallOk(s, c);
    var k := s.calls[c];
    forall m, j | m in k.ids && m in s.db.bin && IsMarkerRow(s.db.bin[m]) && j in s.db.bin && Together(s.db.bin[m], s.db.bin[j])
      ensures j in k.ids
    {
      var x :| 0 <= x < |k.ids| && k.ids[x] == m;
      assert s.db.bin[m] == k.rows[x];
    }
  }

  lemma CallStep(s: State, c: Id, k: BinCall)
    requires Inv(s) && CallOk(s.(calls := s.calls[c := k]), c)
    ensures StepOk(s, s.(calls := s.calls[c := k]))
  {
    var n := s.(calls := s.calls[c := k]);
    assert AllWorkers(n) by { forall t | t in n.workers ensures WorkerOk(n, t) { assert WorkerOk(s, t); } }
    assert AllTokens(n) by { forall b | b in n.db.ledger.jobs ensures TokenOk(n, b) { assert TokenOk(s, b); } }
    assert AllScans(n) by { forall x | x in n.scans ensures ScanOk(n, x) { assert ScanOk(s, x); } }
    assert AllCalls(n) by { forall x | x in n.calls ensures CallOk(n, x) { assert x != c ==> CallOk(s, x); } }
    SideStep(s, n);
  }

  /** What a call has just read is what is there. */
  lemma JustRead(s: State, c: Id, item: nat, ids: seq<nat>)
    requires DbOk(s) && ActionItems(s.db.bin, item, ids)
    ensures CallOk(s.(calls := s.calls[c := BinCall(ids, RowsAt(s.db.bin, ids), false)]), c)
  {
    var rows := RowsAt(s.db.bin, ids);
    forall x | 0 <= x < |ids| ensures ids[x] in s.db.bin && rows[x] == s.db.bin[ids[x]] { assert ids[x] in ids; }
    forall x, j | 0 <= x < |ids| && IsMarkerRow(rows[x]) && j in s.db.bin && Together(rows[x], s.db.bin[j])
      ensures j in ids
    {
      assert ids[x] in ids && Uniform(s.db.bin[ids[x]], s.db.bin[j]);
      if IsMarkerRow(s.db.bin[item]) { assert Together(s.db.bin[item], s.db.bin[j]); }
    }
  }

  lemma ReadBinOk(s: State, c: Id, item: nat, ids: seq<nat>)
    requires Inv(s)
    ensures StepOk(s, ReadBin(s, c, item, ids))
  {
    if c !in s.calls && ActionItems(s.db.bin, item, ids) {
      JustRead(s, c, item, ids);
      CallStep(s, c, BinCall(ids, RowsAt(s.db.bin, ids), false));
    } else {
      Stays(s);
    }
  }

  lemma CloseOk(s: State, n: State, c: Id)
    requires Inv(s) && StepOk(s, n) && c in n.calls
    ensures StepOk(s, CloseCall(n, c))
  {
    assert CallOk(n, c);
    CallStep(n, c, n.calls[c].(closed := true));
    StepThen(s, n, CloseCall(n, c));
  }

  lemma RestoreOk(s: State, c: Id)
    requires Inv(s)
    ensures StepOk(s, CommitRestore(s, c))
  {
    if CallOpen(s, c) {
      var k := s.calls[c];
      var r := Restore(s.db, k.ids, k.rows);
      if r.Done? {
        CallWhole(s, c);
        RestoreConserves(s.db, k.ids, k.rows);
        DropKeepsGroups(s.db.bin, s.db.nextBinId, k.ids);
        NoMove(s.db.ledger);
        MetadataStep(s, OnDb(s, r));
      }
      CloseOk(s, OnDb(s, r), c);
    }
  }

  lemma PurgeOk(s: State, c: Id, now: Time)
    requires Inv(s)
    ensures StepOk(s, CommitPurge(s, c, now))
  {
    if CallOpen(s, c) {
      var k := s.calls[c];
      var r := Purge(s.db, k.ids, k.rows, now);
      if r.Done? {
        CallWhole(s, c);
        PurgeKeeps(s.db, k.ids, k.rows, now);
        DropKeepsGroups(s.db.bin, s.db.nextBinId, k.ids);
        MetadataStep(s, OnDb(s, r));
      }
      CloseOk(s, OnDb(s, r), c);
    }
  }
}
