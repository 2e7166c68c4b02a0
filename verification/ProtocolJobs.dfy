/**
  Cleanup jobs and their workers: every job starts out due and unowned, and a worker that has
  lost its lease before it checked it deletes nothing.
 */
module ProtocolJobs {
  import opened Common
  import opened LedgerTransactions
  import opened LedgerInvariant
  import opened BooksKept
  import opened FolderPaths
  import opened Metadata
  import opened Protocol
  import opened ProtocolInvariant
  import opened ProtocolPublish
  import opened ProtocolRuns
  import opened ProtocolGuarantees
  import opened ProtocolFiles

  // ------------------------------------------------------------------ new jobs

  /** The clock of the steps that can leave a blob to the workers. */
  function Clock(a: Action): Option<Time> {
    match a
    case Publishing(PublishA(_, _, _, _, now, _)) => Some(now)
    case Publishing(ConfirmA(_, now, _)) => Some(now)
    case Publishing(AbortEnqueueA(_, now)) => Some(now)
    case Publishing(ExpireA(_, _, now)) => Some(now)
    case Reconciling(ScheduleA(_, now)) => Some(now)
    case Serving(DeleteBucketA(_, _, _, now)) => Some(now)
    case Serving(PurgeA(_, now)) => Some(now)
    case _ => None
  }

  /** A job that was not there before is open from `at` on. */
  predicate StartsOpen(l: Ledger, n: Ledger, b: Id, at: Option<Time>) {
    b in n.jobs && b !in l.jobs ==> at.Some? && n.jobs[b] == Job(n.jobs[b].storagePath, 0, at.value, None, None)
  }

  lemma {:induction false} CreateAllJobs(l: Ledger, rows: seq<NewBlob>, now: Time, until: Time)
    requires CreateAll(l, rows, now, until).Ok?
    ensures CreateAll(l, rows, now, until).ledger.jobs == l.jobs
    decreases |rows|
  {
    if rows != [] { CreateAllJobs(CreateOne(l, rows[0], now, until).ledger, rows[1..], now, until); }
  }

  lemma {:induction false} ReleaseStagingAllJobs(l: Ledger, ids: seq<Id>)
    requires ReleaseStagingAll(l, ids).Ok?
    ensures ReleaseStagingAll(l, ids).ledger.jobs.Keys <= l.jobs.Keys
    decreases |ids|
  {
    if ids != [] {
      var first := if ids[0] == Empty then Ok(l) else ReleaseStagingOne(l, ids[0]);
      ReleaseStagingAllJobs(first.ledger, ids[1..]);
    }
  }

  lemma {:induction false} ActivateAllJobs(l: Ledger, acts: seq<Activation>)
    requires ActivateAll(l, acts).Ok?
    ensures ActivateAll(l, acts).ledger.jobs == l.jobs
    decreases |acts|
  {
    if acts != [] { ActivateAllJobs(ActivateOne(l, acts[0]).ledger, acts[1..]); }
  }

  lemma ReleaseOpens(l: Ledger, counts: multiset<Path>, now: Time, b: Id)
    ensures StartsOpen(l, AfterRelease(l, counts, now), b, Some(now))
  {
  }

  lemma SealOpens(l: Ledger, ids: set<Id>, before: Time, now: Time, b: Id)
    ensures SealWithJobs(l, ids, now).Ok? ==> StartsOpen(l, SealWithJobs(l, ids, now).ledger, b, Some(now))
    ensures Expire(l, ids, before, now).Ok? ==> StartsOpen(l, Expire(l, ids, before, now).ledger, b, Some(now))
  {
  }

  lemma StageRowsJobs(s: State, q: Id, ds: seq<Draft>, now: Time, until: Time)
    ensures StageRows(s, q, ds, now, until).db.ledger.jobs == s.db.ledger.jobs
  {
    if CreateAll(s.db.ledger, NewRows(ds), now, until).Ok? { CreateAllJobs(s.db.ledger, NewRows(ds), now, until); }
  }

  lemma StageJobs(s: State, x: StageAction)
    ensures NextStage(s, x).db.ledger.jobs == s.db.ledger.jobs
  {
    match x
    case StageRowsA(q, ds, now, until) => StageRowsJobs(s, q, ds, now, until);
    case _ =>
  }

  lemma PublishOpens(s: State, q: Id, keys: seq<Key>, attrs: seq<Attrs>, overwrite: bool, now: Time, heard: bool, b: Id)
    ensures StartsOpen(s.db.ledger, PublishUpload(s, q, keys, attrs, overwrite, now, heard).db.ledger, b, Some(now))
  {
    if PublishUpload(s, q, keys, attrs, overwrite, now, heard).db != s.db {
      var items := UploadItems(s, s.requests[q].entries, keys, attrs);
      var l := ActivateAll(s.db.ledger, Acts(items)).ledger;
      ActivateAllJobs(s.db.ledger, Acts(items));
      ReleaseOpens(l, CountPaths(Overwritten(s.db.objects, items)), now, b);
    }
  }

  lemma ConfirmOpens(s: State, q: Id, now: Time, reply: Reply, b: Id)
    ensures StartsOpen(s.db.ledger, Confirm(s, q, now, reply).db.ledger, b, Some(now))
  {
    if InPhase(s, q, Unsure) {
      ConfirmCases(s, q, now, reply);
      SealOpens(s.db.ledger, Entries(s, q), 0, now, b);
    }
  }

  lemma EnqueueOpens(s: State, ids: set<Id>, now: Time, b: Id)
    ensures StartsOpen(s.db.ledger, AbortEnqueue(s, ids, now).db.ledger, b, Some(now))
  {
  }

  lemma AbortOpens(s: State, released: seq<Id>, b: Id)
    ensures StartsOpen(s.db.ledger, AbortRelease(s, released).db.ledger, b, None)
  {
    if ReleaseStagingAll(s.db.ledger, released).Ok? { ReleaseStagingAllJobs(s.db.ledger, released); }
  }

  lemma ExpireOpens(s: State, ids: set<Id>, before: Time, now: Time, b: Id)
    ensures StartsOpen(s.db.ledger, ExpireStaging(s, ids, before, now).db.ledger, b, Some(now))
  {
    SealOpens(s.db.ledger, ids, before, now, b);
  }

  lemma PublishingOpens(s: State, x: PublishAction, b: Id)
    ensures StartsOpen(s.db.ledger, NextPublish(s, x).db.ledger, b, Clock(Publishing(x)))
  {
    match x
    case PublishA(q, keys, attrs, overwrite, now, heard) => PublishOpens(s, q, keys, attrs, overwrite, now, heard, b);
    case ConfirmA(q, now, reply) => ConfirmOpens(s, q, now, reply, b);
    case AbortReleaseA(ids) => AbortOpens(s, ids, b);
    case AbortEnqueueA(ids, now) => EnqueueOpens(s, ids, now, b);
    case ExpireA(ids, before, now) => ExpireOpens(s, ids, before, now, b);
    case _ =>
  }

  lemma ClaimLedger(l: Ledger, b: Id, token: Id, now: Time, until: Time)
    requires Claim(l, b, token, now, until).Ok?
    ensures Claim(l, b, token, now, until).ledger.jobs.Keys == l.jobs.Keys
  {
  }

  lemma ClaimJobs(s: State, b: Id, token: Id, now: Time, until: Time)
    ensures ClaimJob(s, b, token, now, until).db.ledger.jobs.Keys == s.db.ledger.jobs.Keys
  {
    if Claim(s.db.ledger, b, token, now, until).Ok? { ClaimLedger(s.db.ledger, b, token, now, until); }
  }

  lemma FailJobs(s: State, t: Id, until: Time, retryAt: Time)
    ensures RenewClaim(s, t, until).db.ledger.jobs.Keys == s.db.ledger.jobs.Keys
    ensures Fail(s, t, retryAt).db.ledger.jobs.Keys == s.db.ledger.jobs.Keys
  {
  }

  lemma CompleteJobs(s: State, t: Id)
    ensures Complete(s, t).db.ledger.jobs.Keys <= s.db.ledger.jobs.Keys
  {
  }

  lemma WorkerJobs(s: State, x: WorkerAction)
    ensures NextWorker(s, x).db.ledger.jobs.Keys <= s.db.ledger.jobs.Keys
  {
    match x
    case ClaimA(b, t, now, until) => ClaimJobs(s, b, t, now, until);
    case RenewClaimA(t, until) => FailJobs(s, t, until, 0);
    case FailA(t, retryAt) => FailJobs(s, t, 0, retryAt);
    case CompleteA(t) => CompleteJobs(s, t);
    case _ =>
  }

  lemma ScheduleOpens(s: State, id: Id, now: Time, b: Id)
    ensures StartsOpen(s.db.ledger, Schedule(s, id, now).db.ledger, b, Some(now))
  {
  }

  lemma RegisterJobs(s: State, scan: Id, path: Path, id: Id, now: Time)
    ensures Register(s, scan, path, id, now).db.ledger.jobs == s.db.ledger.jobs
  {
  }

  lemma ReconcileOpens(s: State, x: ReconcileAction, b: Id)
    ensures StartsOpen(s.db.ledger, NextReconcile(s, x).db.ledger, b, Clock(Reconciling(x)))
  {
    match x
    case RegisterA(scan, path, id, now) => RegisterJobs(s, scan, path, id, now);
    case ScheduleA(id, now) => ScheduleOpens(s, id, now, b);
    case _ =>
  }

  lemma BucketOpens(s: State, bucket: string, keys: seq<Key>, ids: seq<nat>, now: Time, b: Id)
    ensures StartsOpen(s.db.ledger, DeleteBucket(s, bucket, keys, ids, now).db.ledger, b, Some(now))
  {
    if ListsBucket(s.db, bucket, keys, ids) {
      ReleaseOpens(s.db.ledger, CountPaths(FilesAt(s.db.objects, keys) + BinFiles(s.db.bin, ids)), now, b);
    }
  }

  lemma PurgeOpens(s: State, c: Id, now: Time, b: Id)
    ensures StartsOpen(s.db.ledger, CommitPurge(s, c, now).db.ledger, b, Some(now))
  {
    if CallOpen(s, c) { ReleaseOpens(s.db.ledger, CountPaths(Files(s.calls[c].rows)), now, b); }
  }

  lemma ServingOpens(s: State, x: MetadataAction, b: Id)
    ensures StartsOpen(s.db.ledger, NextMetadata(s, x).db.ledger, b, Clock(Serving(x)))
  {
    if x.DeleteBucketA? {
      BucketOpens(s, x.bucket, x.keys, x.rowIds, x.now, b);
    } else if x.PurgeA? {
      PurgeOpens(s, x.call, x.now, b);
    } else {
      SameLedger(s, x);
    }
  }

  lemma SameLedger(s: State, x: MetadataAction)
    requires !x.DeleteBucketA? && !x.PurgeA?
    ensures NextMetadata(s, x).db.ledger == s.db.ledger
  {
  }

  /** Whatever leaves a blob to the workers, its job is due at that moment, unowned and without
      retries: a worker can claim it at once. */
  lemma NewJobsAreDue(s: State, a: Action, b: Id)
    requires b in Next(s, a).db.ledger.jobs && b !in s.db.ledger.jobs
    ensures Clock(a).Some? && Due(Next(s, a).db.ledger.jobs[b], Clock(a).value)
    ensures Next(s, a).db.ledger.jobs[b].retries == 0 && Next(s, a).db.ledger.jobs[b].owner.None?
  {
    assert StartsOpen(s.db.ledger, Next(s, a).db.ledger, b, Clock(a)) by {
      match a
      case Uploading(x) => StageJobs(s, x);
      case Publishing(x) => PublishingOpens(s, x, b);
      case Working(x) => WorkerJobs(s, x);
      case Reconciling(x) => ReconcileOpens(s, x, b);
      case Serving(x) => ServingOpens(s, x, b);
    }
  }

  // --------------------------------------------------------- a lease lost in time

  /** The worker has not found its lease in order. */
  predicate Idle(s: State, t: Id) {
    t in s.workers && (s.workers[t].step == Claimed || s.workers[t].step == Stopped)
  }

  lemma ClaimIdle(s: State, b: Id, token: Id, now: Time, until: Time, t: Id)
    requires Idle(s, t) && t in s.issued
    ensures Idle(ClaimJob(s, b, token, now, until), t)
  {
  }

  lemma CheckIdle(s: State, u: Id, t: Id)
    requires Idle(s, t) && Lost(s, t)
    ensures Idle(CheckClaim(s, u), t)
  {
  }

  lemma LoadIdle(s: State, u: Id, t: Id)
    requires Idle(s, t)
    ensures Idle(LoadBlob(s, u), t)
  {
  }

  lemma DeleteIdle(s: State, u: Id, t: Id)
    requires Idle(s, t)
    ensures Idle(DeleteStagingFile(s, u), t) && Idle(KeepStagingFile(s, u), t)
  {
  }

  lemma StorageIdle(s: State, u: Id, t: Id)
    requires Idle(s, t)
    ensures Idle(DeleteStorageFile(s, u), t)
  {
  }

  lemma CompleteIdle(s: State, u: Id, t: Id)
    requires Idle(s, t)
    ensures Idle(Complete(s, u), t)
  {
  }

  lemma FailIdle(s: State, u: Id, retryAt: Time, t: Id)
    requires Idle(s, t)
    ensures Idle(Fail(s, u, retryAt), t)
  {
  }

  lemma WorkerIdle(s: State, x: WorkerAction, t: Id)
    requires Inv(s) && Idle(s, t) && Lost(s, t)
    ensures Idle(NextWorker(s, x), t)
  {
    match x
    case ClaimA(b, token, now, until) => assert WorkerOk(s, t); ClaimIdle(s, b, token, now, until, t);
    case RenewClaimA(u, until) =>
    case CheckClaimA(u) => CheckIdle(s, u, t);
    case LoadBlobA(u) => LoadIdle(s, u, t);
    case DeleteStagingA(u) => DeleteIdle(s, u, t);
    case KeepStagingA(u) => DeleteIdle(s, u, t);
    case DeleteStorageA(u) => StorageIdle(s, u, t);
    case CompleteA(u) => CompleteIdle(s, u, t);
    case FailA(u, retryAt) => FailIdle(s, u, retryAt, t);
  }

  lemma {:induction false} IdleRun(s: State, actions: seq<Action>, t: Id)
    requires Inv(s) && Idle(s, t) && Lost(s, t)
    ensures Idle(Run(s, actions), t)
    decreases |actions|
  {
    if actions != [] {
      if actions[0].Working? { WorkerIdle(s, actions[0].work, t); } else { SameWorkers(s, actions[0]); }
      NextOk(s, actions[0]);
      IdleRun(Next(s, actions[0]), actions[1..], t);
    }
  }

  predicate DoesNothing(n: State, t: Id) { DeleteStagingFile(n, t) == n && DeleteStorageFile(n, t) == n && Complete(n, t) == n }

  lemma IdleDoesNothing(s: State, actions: seq<Action>, t: Id)
    requires Inv(s) && Idle(s, t) && Lost(s, t)
    ensures DoesNothing(Run(s, actions), t)
  {
    IdleRun(s, actions, t);
  }

  /** A worker that loses its lease before it has checked it deletes nothing and completes
      nothing. */
  lemma LostWorkerDoesNothing(s: State, actions: seq<Action>, t: Id)
    requires Reachable(s) && AtStep(s, t, Claimed) && Lost(s, t)
    ensures DoesNothing(Run(s, actions), t)
  {
    ReachableOk(s);
    IdleDoesNothing(s, actions, t);
  }

  lemma FailEnds(s: State, t: Id, retryAt: Time)
    requires t in s.workers
    ensures Idle(Fail(s, t, retryAt), t) && Lost(Fail(s, t, retryAt), t)
  {
  }

  lemma CompleteEnds(s: State, t: Id)
    requires Inv(s) && AtStep(s, t, AllGone)
    ensures Idle(Complete(s, t), t) && Lost(Complete(s, t), t)
  {
    CompleteJobKeeps(s.db.ledger, Refs(s.db), s.workers[t].job, t);
  }

  /** So does one that has given its job back. */
  lemma FailedWorkerDoesNothing(s: State, actions: seq<Action>, t: Id, retryAt: Time)
    requires Reachable(s) && t in s.workers
    ensures DoesNothing(Run(Fail(s, t, retryAt), actions), t)
  {
    FailEnds(s, t, retryAt);
    ReachableNext(s, Working(FailA(t, retryAt)));
    ReachableOk(Fail(s, t, retryAt));
    IdleDoesNothing(Fail(s, t, retryAt), actions, t);
  }

  /** And one that has completed it, or tried to. */
  lemma CompletedWorkerDoesNothing(s: State, actions: seq<Action>, t: Id)
    requires Reachable(s) && AtStep(s, t, AllGone)
    ensures DoesNothing(Run(Complete(s, t), actions), t)
  {
    assert Idle(Complete(s, t), t) && Lost(Complete(s, t), t) by { ReachableOk(s); CompleteEnds(s, t); }
    ReachableNext(s, Working(CompleteA(t)));
    ReachableOk(Complete(s, t));
    IdleDoesNothing(Complete(s, t), actions, t);
  }
}
