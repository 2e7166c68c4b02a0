/** The invariant over whole runs, and what it means for callers. */
module ProtocolRuns {
  import opened Common
  import opened LedgerTransactions
  import opened LedgerInvariant
  import opened BooksKept
  import opened Metadata
  import opened BinGroups
  import opened Protocol
  import opened ProtocolInvariant
  import opened ProtocolLocal
  import opened ProtocolSteps
  import opened ProtocolUploads
  import opened ProtocolStaging
  import opened ProtocolPublish
  import opened ProtocolWorkers

  lemma InitOk(s: State)
    requires Init(s)
    ensures Inv(s)
  {
    assert Weigh(s.db.ledger.blobs) == Weight(0, 0);
    assert Refs(s.db) == multiset{};
  }

  lemma NextStageOk(s: State, a: StageAction)
    requires Inv(s)
    ensures StepOk(s, NextStage(s, a))
  {
    match a
    case OpenA(q) => OpenOk(s, q);
    case CancelA(q) => CancelOk(s, q);
    case StageRowsA(q, ds, now, until) => StageRowsOk(s, q, ds, now, until);
    case HeartbeatA(ids, until) => HeartbeatOk(s, ids, until);
    case ReserveA(b, bytes, heard) => ReserveOk(s, b, bytes, heard);
    case WriteA(b, total) => WriteOk(s, b, total);
    case EndWriteA(b) => EndWriteOk(s, b);
    case PlaceA(b) => PlaceOk(s, b);
    case ReturnA(q) => ReturnOk(s, q);
  }

  lemma NextPublishOk(s: State, a: PublishAction)
    requires Inv(s)
    ensures StepOk(s, NextPublish(s, a))
  {
    match a
    case PublishA(q, keys, attrs, overwrite, now, heard) => PublishOk(s, q, keys, attrs, overwrite, now, heard);
    case PublishLostA(q) => PublishLostOk(s, q);
    case LoseLeaseA(q) => LoseLeaseOk(s, q);
    case ConfirmA(q, now, reply) => ConfirmOk(s, q, now, reply);
    case StartAbortA(q) => StartAbortOk(s, q);
    case AbortDeleteA(b, staging) => AbortDeleteOk(s, b, staging);
    case AbortReleaseA(ids) => AbortReleaseOk(s, ids);
    case AbortEnqueueA(ids, now) => AbortEnqueueOk(s, ids, now);
    case ExpireA(ids, before, now) => ExpireOk(s, ids, before, now);
  }

  lemma NextWorkerOk(s: State, a: WorkerAction)
    requires Inv(s)
    ensures StepOk(s, NextWorker(s, a))
  {
    match a
    case ClaimA(b, t, now, until) => ClaimOk(s, b, t, now, until);
    case RenewClaimA(t, until) => RenewClaimOk(s, t, until);
    case CheckClaimA(t) => CheckClaimOk(s, t);
    case LoadBlobA(t) => LoadBlobOk(s, t);
    case DeleteStagingA(t) => DeleteStagingFileOk(s, t);
    case KeepStagingA(t) => KeepStagingFileOk(s, t);
    case DeleteStorageA(t) => DeleteStorageFileOk(s, t);
    case CompleteA(t) => CompleteOk(s, t);
    case FailA(t, retryAt) => FailOk(s, t, retryAt);
  }

  lemma NextReconcileOk(s: State, a: ReconcileAction)
    requires Inv(s)
    ensures StepOk(s, NextReconcile(s, a))
  {
    match a
    case SeeA(scan, path) => SeeOk(s, scan, path);
    case CheckPathA(scan, path) => CheckPathOk(s, scan, path);
    case RegisterA(scan, path, id, now) => RegisterOk(s, scan, path, id, now);
    case ScheduleA(id, now) => ScheduleOk(s, id, now);
    case MarkA(at) => QuotaStep(s, MarkReconciled(s.db.ledger, at));
    case SetMaxA(max) => SetMaxOk(s, max);
  }

  lemma NextMetadataOk(s: State, a: MetadataAction)
    requires Inv(s)
    ensures StepOk(s, NextMetadata(s, a))
  {
    match a
    case CreateBucketA(bucket) => CreateBucketOk(s, bucket);
    case RecycleObjectA(key, group, at) => RecycleObjectOk(s, key, group, at);
    case RecycleFolderA(bucket, folder, keys, group, at) => RecycleFolderOk(s, bucket, folder, keys, group, at);
    case DeleteBucketA(bucket, keys, ids, now) => DeleteBucketOk(s, bucket, keys, ids, now);
    case ReadBinA(call, item, ids) => ReadBinOk(s, call, item, ids);
    case RestoreA(call) => RestoreOk(s, call);
    case PurgeA(call, now) => PurgeOk(s, call, now);
  }

  /** Every action of every client keeps the invariant of the whole system. */
  lemma NextOk(s: State, a: Action)
    requires Inv(s)
    ensures StepOk(s, Next(s, a))
  {
    match a
    case Uploading(x) => NextStageOk(s, x);
    case Publishing(x) => NextPublishOk(s, x);
    case Working(x) => NextWorkerOk(s, x);
    case Reconciling(x) => NextReconcileOk(s, x);
    case Serving(x) => NextMetadataOk(s, x);
  }

  lemma SetMaxOk(s: State, max: nat)
    requires Inv(s)
    ensures StepOk(s, SetMax(s, max))
  {
    if max <= MAX_U64 && UpdateMax(s.db.ledger, max).Ok? { QuotaStep(s, UpdateMax(s.db.ledger, max).ledger); } else { Stays(s); }
  }

  /** Every reachable state is sound, and what is settled stays settled. */
  lemma {:induction false} RunOk(s: State, actions: seq<Action>)
    requires Inv(s)
    ensures Inv(Run(s, actions)) && Later(s, Run(s, actions))
    decreases |actions|
  {
    if actions == [] {
      Stays(s);
    } else {
      NextOk(s, actions[0]);
      RunOk(Next(s, actions[0]), actions[1..]);
      assert StepOk(Next(s, actions[0]), Run(s, actions));
      StepThen(s, Next(s, actions[0]), Run(s, actions));
    }
  }
}
