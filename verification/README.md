# light-oss: the storage ledger and what is built on it

light-oss keeps object bytes in a file store and everything else in MySQL: one quota row, one
row per blob, cleanup jobs with leases, object rows and recycle-bin rows. This project models
that bookkeeping, the clients that change it and the files they move, and proves that they
stay consistent under every interleaving, crash, lease expiry, retry and lost commit reply.

The modules, from the bottom up:

- `LedgerTransactions`: the quota, blob and job tables and every transaction on them, each a
  function to the new tables or to the error that rolls it back. `LedgerInvariant` states the
  rules that the code's own audit checks; `BooksKept` proves that every transaction keeps them.
- `StorageBlobRepository`: the repository as it runs, a class whose methods update the tables
  in batches; each is proved against its transaction for every batch size, with the help of
  `LedgerBatches`. `StorageReconciler` is the sealing loop, `LedgerAudit` the audit itself, a
  program of maps and loops that accepts exactly the tables that satisfy `LedgerInvariant`.
  `Streaming` is the write loop that reserves ahead of its writes.
- `Metadata`, `FolderPaths`, `BinGroups`, `References`: object and recycle rows, what each
  service transaction does to the references they hold, delete groups, delete and restore.
- `Protocol`: the whole system as a state machine. A database transaction is one step; every
  file write, file delete, unlocked read and commit reply is a step of its own, and any client
  may stop at any point. `ProtocolInvariant` is the invariant over all clients; the
  `Protocol...` modules prove it step by step; `ProtocolRuns` over whole runs. What it means for
  callers: `ProtocolGuarantees`, `ProtocolQuota`, `ProtocolTables` and `ProtocolAudit` (safety),
  `ProtocolLeases` and `ProtocolJobs` (leases, on what `ProtocolRows` says each step leaves
  alone), `ProtocolFiles` and `ProtocolCleanup` (deleted files stay deleted), `ProtocolCommits`
  and `ProtocolCalls` (when a transaction takes effect), `ProtocolProgress` (clients that are
  left alone get through). `ProtocolWitnesses` holds runs where a promise fails.
- `RecycleBinGrouping`, `RecycleBinPaging`, `RecycleBinFolders`, `RecycleBinReading`: logical
  items, keyset paging, and what the pages show. `ExplorerOrder`, `ExplorerListing`: the explorer's comparator, cursors and paging.
- `TokenBucket`, `SharedLimiter`, `LocalLimiter`: the two rate limiters.

Identifiers and managed paths are opaque names; object keys and folders are strings. In
`Keeps`, `Change` and `Moves` a transaction also accounts for the lifecycle: staging, active,
pending, gone, with the two side paths into pending.

Four promises one might expect hold only with a condition, which is exact. The token-bucket
bound holds for a bucket if and only if `rps * ttl >= burst` (`TokenBucket.BoundHoldsIff`), and
so for a key of the shared table, unless the table may hold no row at all
(`SharedLimiter.SharedBoundHoldsIff`); the policy check of
`backend/internal/middleware/mysql_rate_limit_store.go:44-46` does not ask for that. An unknown
publish outcome is sure to mean that nothing was changed if and only if, before the
confirmation, some row of the upload is no longer staging, or it staged none
(`ProtocolGuarantees.UnknownIsSafeIff`). While all of them are, a confirmation that failed has
changed nothing, one that committed and whose reply was lost has sealed them all
(`ProtocolGuarantees.UnknownSealsIff`), and the client cannot tell the two apart;
`ProtocolWitnesses.UnknownCanSeal` is a run of the second kind. A cleanup leaves no file behind
if and only if, when its worker reads the row, the upload of that row is not still staging with
its first write to come (`ProtocolCleanup.CleanupLeavesNothingIff`): a lease that runs out
before the first byte lets that byte arrive after both deletes, and only the reconciler finds
the file again (`ProtocolWitnesses.FileAfterCleanup`, `ProtocolProgress.StrayIsRemoved`). And rounding up in 64 bits
gives no less than its argument if and only if the product does not wrap
(`Streaming.RoundUpWrapsIff`), which no file size makes it do. Two more are proved with a bound
or an exception that is shown to be needed: registering an orphan is the one step that takes
usage above the maximum, by the size of the orphan (`ProtocolQuota.NeverOversold`,
`ProtocolWitnesses.OrphanOverMaximum`), and scheduling a blob for cleanup anew is the one step
of another client that ends a cleanup lease early (`ProtocolLeases.LeaseExcludesOthers`,
`ProtocolLeases.ScheduleEndsLease`).

## Model

| member | source | states |
|---|---|---|
| `ProtocolGuarantees.ActiveFileIsWhole` | backend/internal/service/storage_cleanup_worker.go:148-201 | In every reachable state an active blob's file exists with exactly the ledger size, and a staging blob has a cleanup job only once its owner has started to abort. |
| `ProtocolGuarantees.EveryStateAudited` | backend/internal/repository/storage_blob_audit_repository.go:64-189 | Every state that any interleaving of uploads, publishers, aborts, expiry, workers and reconcilers reaches satisfies the ledger invariant that the audit decides, and keeps its delete groups in order. |
| `ProtocolGuarantees.ReferencesCounted` | backend/internal/repository/storage_blob_release_repository.go:16-137 | In every reachable state an active blob's `ref_count` is the number of object rows plus recycle rows naming its path; a blob that is not active is named by none. |
| `ProtocolGuarantees.StagedBytesReserved` | backend/internal/service/blob_lifecycle_service.go:187-209 | In every reachable state the bytes of a staging file are within what its client counts on, and that is within the size of its staging row; so is the size it will publish. |
| `ProtocolGuarantees.NoWayBack` | backend/internal/repository/storage_blob_reconciliation_repository.go:30-84 | Whatever happens next, a blob that is gone never returns and a pending one never becomes active again. |
| `ProtocolGuarantees.LeavesAtMostOnce` | backend/internal/repository/storage_cleanup_job_repository.go:115-152 | Along every run the row of a blob, and with it its bytes in the quota, leaves the ledger at most once. |
| `ProtocolGuarantees.ColumnsFollowRows` | backend/internal/repository/storage_blob_audit_repository.go:177-186 | Between any two reachable states the used and reserved columns move by exactly what the blob rows in each column moved. |
| `ProtocolGuarantees.LostTokenIsPowerless` | backend/internal/repository/storage_cleanup_job_repository.go:60-113 | Once a worker's lease has been taken over, reset, or gone with its blob, no later renew, fail or complete under its token succeeds, in any continuation. |
| `ProtocolGuarantees.TakeoverIsFinal` | backend/internal/service/storage_cleanup_worker.go:110-126 | Once another worker has claimed the job under a fresh token, the old token never again renews, fails or completes it, in any continuation. |
| `ProtocolLeases.LeaseExcludesOthers` | backend/internal/repository/storage_cleanup_job_repository.go:50-113 | Once a job is claimed or renewed, or given back until a later try, no claim of it succeeds before then in any continuation, and the holder can still complete it, unless the holder gives it up, a claim comes after that time, or the reconciler schedules the blob anew. |
| `ProtocolLeases.ClaimStartsLease` | backend/internal/repository/storage_cleanup_job_repository.go:50-58 | A granted claim closes the job to others up to the end of its lease. |
| `ProtocolLeases.FailureWaits` | backend/internal/repository/storage_cleanup_job_repository.go:90-113 | A failure by the owner closes the job to every claim up to its next try. |
| `ProtocolLeases.ScheduleEndsLease` | backend/internal/repository/storage_blob_reconciliation_repository.go:130-183 | In every reachable state, scheduling a pending blob anew takes its job from any holder and opens it to the next claim at once. |
| `ProtocolLeases.LeaseKeepsExpiryAway` | backend/internal/repository/storage_blob_reconciliation_repository.go:30-84 | Once a staging row is leased to a time, no expiry before that time takes it in any continuation, whatever its age, unless a heartbeat shortens the lease. |
| `ProtocolLeases.HeartbeatStartsLease` | backend/internal/repository/storage_blob_ledger_repository.go:14-54 | A heartbeat that succeeds leases every listed row to the new time. |
| `ProtocolGuarantees.ClaimedBlobUnreferenced` | backend/internal/service/storage_cleanup_worker.go:166-169 | The worker's refusal of a referenced blob is never needed: the blob of a claimed job is never active and never referenced. |
| `ProtocolGuarantees.DeclaredSizeKept` | backend/internal/service/blob_batch_lifecycle.go:137-185 | In every reachable state an active blob whose size was declared up front has exactly that size. |
| `ProtocolCleanup.CleanupLeavesNothingIff` | backend/internal/service/storage_cleanup_worker.go:148-201 | From the moment a worker has read its row: whatever happens, once it has made both deletes or completes the job neither file is ever there again, if and only if the upload of that row is not still staging with its first write to come. |
| `ProtocolWitnesses.FileAfterCleanup` | backend/internal/service/storage_cleanup_worker.go:170-190 | A run from an empty database in which a first write comes after both deletes and the upload is given up after that: the file is there beside a worker that is about to complete, so the condition above is about the state in which the row is read. |
| `ProtocolCleanup.DeletesStagingPath` | backend/internal/service/storage_cleanup_worker.go:170-184 | The first delete of a worker removes exactly the staging path of the row it has read, if that has one. |
| `ProtocolCleanup.DeletesStoragePath` | backend/internal/service/storage_cleanup_worker.go:170-184 | The second delete removes exactly the storage path of that row. |
| `ProtocolCleanup.AbortDeletesPath` | backend/internal/service/blob_abort_lifecycle.go:114-131 | Each delete of an upload that has been given up removes exactly the path it names. |
| `ProtocolCleanup.AbortLeavesNothing` | backend/internal/service/blob_abort_lifecycle.go:110-169 | When an aborting upload gives a row and its bytes back, both of its files are gone and never come back, whatever happens next. |
| `ProtocolCleanup.FailedDeleteNeverCompletes` | backend/internal/service/storage_cleanup_worker.go:170-188 | A worker whose first delete failed never completes its job, in any continuation, although it still tries the second. |
| `ProtocolFiles.QuietRun` | backend/internal/storage/local_storage.go:74-145 | A file that no upload can still begin or place is in that state for ever, and once it is gone it stays gone, in every continuation. |
| `ProtocolJobs.NewJobsAreDue` | backend/internal/repository/storage_cleanup_job_repository.go:14-38 | Whatever step leaves a blob to the workers, its job starts unowned, without retries and due at the clock of that step. |
| `ProtocolJobs.LostWorkerDoesNothing` | backend/internal/service/storage_cleanup_worker.go:148-165 | A worker that has lost its lease before it has checked it deletes no file and completes nothing, in any continuation. |
| `ProtocolJobs.FailedWorkerDoesNothing` | backend/internal/service/storage_cleanup_worker.go:220-242 | Neither does a worker that has given its job back. |
| `ProtocolJobs.CompletedWorkerDoesNothing` | backend/internal/service/storage_cleanup_worker.go:190-201 | Nor one that has completed its job or has been refused. |
| `ProtocolLeases.StagingStartsLease` | backend/internal/service/blob_batch_lifecycle.go:21-61 | An inserted row is staging under its own paths, leased and dated from its insert, with the declared size reserved but at least one byte of it. |
| `ProtocolLeases.RenewalStartsLease` | backend/internal/repository/storage_cleanup_job_repository.go:60-78 | A renewal by the owner closes the job to others up to the new time. |
| `ProtocolLeases.FailureRetries` | backend/internal/repository/storage_cleanup_job_repository.go:90-113 | A failure by the owner counts one retry, and the job can be claimed again if and only if the time is not before the next try. |
| `ProtocolProgress.KnownUploadGoesThrough` | backend/internal/service/blob_batch_lifecycle.go:21-135 | From every reachable state an upload of declared size that is left alone is acknowledged when its bytes (at least one) fit under the maximum and its key may be written: its object names its whole file, the row is active with one reference, its bytes are used and nothing stays reserved. |
| `ProtocolProgress.StreamedUploadGoesThrough` | backend/internal/service/blob_lifecycle_service.go:159-264 | The same for a stream of unknown size that has reserved at least what it writes; of the reservation it keeps only what it has written. |
| `ProtocolProgress.NewBucketTakesUploads` | backend/internal/service/bucket_service.go:39-54 | A bucket that has just been created takes uploads. |
| `ProtocolProgress.CleanupGoesThrough` | backend/internal/service/storage_cleanup_worker.go:148-201 | From every reachable state a due job that a worker is left alone with goes through: the row, its job and both files are gone, its bytes have left the column that held them, and nothing else has changed. |
| `ProtocolProgress.AbortGoesThrough` | backend/internal/service/blob_abort_lifecycle.go:110-144 | A staging upload that fails and is left alone gives back exactly its row, its files and its reserved bytes. |
| `ProtocolProgress.AbortLeavesJob` | backend/internal/service/blob_abort_lifecycle.go:146-169 | A blob that is given up and not released gets a job that is due at once, unless it has one; no byte moves. |
| `ProtocolProgress.ExpiresIff` | backend/internal/repository/storage_blob_reconciliation_repository.go:30-84 | The expiry of a row takes effect if and only if the row is staging, old enough and out of its lease; then it is pending with a job and no byte has moved. |
| `ProtocolProgress.StrayIsRegistered` | backend/internal/service/storage_reconciliation.go:138-169 | A file that no row manages is charged with its size to the used column and gets a pending row and a due job. |
| `ProtocolProgress.StrayIsRemoved` | backend/internal/service/storage_reconciliation.go:138-169 | The walk and one cleanup together remove exactly that file and leave the whole database as it was. |
| `ProtocolCommits.PublishCommitsIff` | backend/internal/service/object_batch_upload.go:43-170 | In every reachable state the publish transaction commits if and only if all rows are still staging, the buckets exist, it replaces only what it may and the used column can hold the bytes. Then each key has its own staged file with its attributes and no other object has changed, the rows are active with one reference and the bytes have moved from reserved to used; otherwise the database is as it was and the client is unsure. |
| `ProtocolGuarantees.CommittedReportedIff` | backend/internal/service/blob_publish_lifecycle.go:109-197 | A confirmation reports `Committed` if and only if its reply arrives, the upload has blobs, and every row is active with one reference; paths and sizes add nothing in a reachable state. |
| `ProtocolGuarantees.CommitIsRecognised` | backend/internal/service/blob_publish_lifecycle.go:109-197 | A publish that committed and whose reply was lost is recognised in every continuation that leaves its rows as they were. |
| `ProtocolGuarantees.NothingPublishedLater` | backend/internal/service/blob_publish_lifecycle.go:17-62 | An upload that was cancelled or given up, lost its lease, or lost its publish before the commit never has an active blob again, in any continuation. |
| `ProtocolGuarantees.LeaseLostIsFinal` | backend/internal/service/blob_publish_lifecycle.go:22-26 | A publisher that finds its lease lost ends with that outcome for good and publishes nothing. |
| `ProtocolGuarantees.CancelIsFinal` | backend/internal/service/blob_publish_lifecycle.go:29-52 | A client that goes away before the commit publishes nothing, in any continuation. |
| `ProtocolGuarantees.ReportedOutcomeIsTrue` | backend/internal/service/blob_publish_lifecycle.go:63-92 | `Committed` is reported only of a transaction that committed and `RolledBack` only of one that did not; after a reported rollback every blob stays gone or sealed with a job for ever. |
| `ProtocolGuarantees.UnknownSealsIff` | backend/internal/service/blob_publish_lifecycle.go:63-92 | For every confirmation that reports unknown, answered, unanswered or failed: nothing was changed if and only if it did not commit with its reply lost, or some row of the upload was no longer staging (or none was staged); otherwise every blob is sealed with its job. |
| `ProtocolGuarantees.UnknownIsSafeIff` | backend/internal/service/blob_publish_lifecycle.go:63-92 | Before the call: an unknown outcome is sure to mean that nothing was changed if and only if some row is no longer staging (or none was staged); a failed confirmation and a lost reply both report unknown, and the failed one changes nothing. |
| `ProtocolWitnesses.UnknownCanSeal` | backend/internal/service/blob_publish_lifecycle.go:109-197 | A run from an empty database ends in a confirmation that reports unknown and has sealed the blob. |
| `ProtocolGuarantees.SealsIff` | backend/internal/service/blob_publish_lifecycle.go:109-197 | A confirmation seals all blobs with their jobs if and only if it commits and every row of the upload is still staging, and otherwise changes nothing; it reports a rollback if and only if its reply arrives too: the other comparisons add nothing in a reachable state. |
| `ProtocolGuarantees.BinRowConsumedOnce` | backend/internal/service/recycle_bin_actions.go:90-99 | A recycle row that has been restored or permanently deleted never comes back. |
| `ProtocolGuarantees.OneWinner` | backend/internal/service/recycle_bin_actions.go:111-145 | Of two calls that read overlapping rows, once one has taken effect the other never does, whatever runs in between. |
| `ProtocolGuarantees.UploadWritesItsKeys` | backend/internal/service/object_batch_upload.go:43-170 | A committed publish transaction writes exactly the object rows of its keys, in existing buckets, and without overwrite none of the keys existed. |
| `ProtocolCalls.MaximumIff` | backend/internal/repository/storage_quota_repository.go:105-132 | The maximum changes if and only if the new one covers used plus reserved and fits 64 bits; nothing else does. |
| `ProtocolCalls.DeleteBucketIff` | backend/internal/service/bucket_service.go:65-139 | In every reachable state deleting an existing bucket always succeeds and takes exactly its rows out of both tables. |
| `ProtocolCalls.RecycleObjectIff` | backend/internal/service/object_service.go:228-277 | An object that exists moves into the bin under its key, with its file and the time of the delete, in a group of its own; a missing one changes nothing. |
| `ProtocolCalls.RecycleFolderIff` | backend/internal/service/explorer_folder.go:72-131 | Exactly the objects below the folder move into the bin with their files, in one group with one time of delete, together with at most a synthetic marker. |
| `ProtocolCalls.ReadBinIff` | backend/internal/service/recycle_bin_grouping.go:212-222 | A restore or permanent delete acts on exactly the item, or for a marker on exactly the rows of its delete group, as they are in the bin. |
| `ProtocolCalls.RestoreIff` | backend/internal/service/recycle_bin_actions.go:15-107 | In every reachable state a restore takes effect if and only if its rows are all still there and none of their keys is taken; then exactly they leave the bin and bring back their own files. |
| `ProtocolCalls.PurgeIff` | backend/internal/service/recycle_bin_actions.go:111-145 | A permanent delete takes effect if and only if its rows are all still there; then exactly they leave the bin and no object changes. |
| `ProtocolCalls.ObjectDeleteUndone` | backend/internal/service/recycle_bin_actions.go:45-107 | In every reachable state an object that is deleted, read back and restored is where it was, and the bin is as it was. |
| `ProtocolTables.ReachableHeld` | backend/internal/service/bucket_service.go:65-139 | In every reachable state every object and recycle row lies in an existing bucket, a deleted bucket having taken all of its rows with it, and only a synthetic folder marker is without storage. |
| `ProtocolGuarantees.NeverInconsistent` | backend/internal/repository/storage_blob_release_repository.go:56-62 | In reachable states the guarded subtractions never take their inconsistent branch, an owner's completion always succeeds, and a permanent delete that finds its rows always can release them. |
| `ProtocolQuota.NeverOversold` | backend/internal/repository/storage_blob_repository.go:165-180 | Along every run used plus reserved bytes exceed the maximum by no more than the bytes of orphans registered on the way; without orphans they never exceed it. |
| `ProtocolWitnesses.OrphanOverMaximum` | backend/internal/repository/storage_blob_reconciliation_repository.go:118-128 | A run from an empty database reaches a state above its maximum by registering one orphan. |
| `ProtocolTables.FolderDeleteUndone` | backend/internal/service/explorer_folder.go:80-108 | In every reachable state, deleting a folder recursively and restoring its group gives back the same object table and the same bin; only a synthetic marker is dropped. |
| `ProtocolTables.ReachableBinPages` | backend/internal/service/recycle_bin_service.go:124-176 | In every reachable state the pages of the recycle bin put together show, for every page size, only rows of the bucket asked for (of all for none), from the newest time of delete to the oldest and by id downwards within one, every delete group that has a row there exactly once, each under the row that stands for it and with the size of all of it. |
| `ProtocolRuns.InitOk` | backend/internal/repository/storage_blob_audit_repository.go:64-189 | An empty database over any file store satisfies the system invariant. |
| `ProtocolRuns.NextOk` | backend/internal/service/storage_cleanup_worker.go:90-129 | Every action of every client keeps the invariant of the whole system and undoes nothing that is settled. |
| `ProtocolRuns.RunOk` | backend/internal/service/storage_cleanup_worker.go:90-129 | The system invariant and what is settled hold along every run of any length and any interleaving. |
| `ProtocolStaging.StageRowsOk` | backend/internal/service/blob_batch_lifecycle.go:21-61 | Inserting the leased staging rows of an upload, with fresh names, keeps the system invariant. |
| `ProtocolUploads.WriteOk` | backend/internal/storage/local_storage.go:74-107 | Writing within the reservation keeps the system invariant; the file is the writer's own. |
| `ProtocolUploads.PlaceOk` | backend/internal/storage/local_storage.go:124-145 | Committing a staging file to its final path keeps the invariant, whether the final file exists, the staging file is missing, or the rename happens. |
| `ProtocolUploads.ReserveOk` | backend/internal/repository/storage_blob_ledger_repository.go:66-105 | A further reservation keeps the invariant whether or not its reply reaches the client. |
| `ProtocolUploads.ReturnOk` | backend/internal/service/blob_batch_lifecycle.go:91-134 | Staging that returns without an error, including a cancelled batch with unstaged entries, keeps the invariant. |
| `ProtocolUploads.AbortDeleteOk` | backend/internal/service/blob_abort_lifecycle.go:114-131 | An aborting client's file deletes never touch a file that an active blob or another upload needs. |
| `ProtocolSteps.AbortReleaseOk` | backend/internal/service/blob_abort_lifecycle.go:133-144 | Releasing the aborted blobs whose files are gone keeps the invariant. |
| `ProtocolSteps.AbortEnqueueOk` | backend/internal/service/blob_abort_lifecycle.go:146-169 | Giving the other aborted blobs a job while they stay staging keeps the invariant. |
| `ProtocolSteps.RegisterOk` | backend/internal/service/storage_reconciliation.go:138-169 | Registering a file that was found unmanaged some time ago keeps the invariant, although uploads and workers ran in between. |
| `ProtocolSteps.RestoreOk` | backend/internal/service/recycle_bin_actions.go:15-107 | The commit of a restore keeps the invariant, whatever was committed since its reads. |
| `ProtocolSteps.PurgeOk` | backend/internal/service/recycle_bin_actions.go:111-145 | The commit of a permanent delete keeps the invariant, whatever was committed since its reads. |
| `ProtocolPublish.PublishOk` | backend/internal/service/blob_publish_lifecycle.go:17-52 | The publish transaction keeps the invariant: with an uncancelled request every blob it activates has its whole file in place. |
| `ProtocolPublish.ConfirmOk` | backend/internal/service/blob_publish_lifecycle.go:109-197 | Confirming a lost publish keeps the invariant in all of its outcomes, with its reply heard or lost, and when it fails before its commit. |
| `ProtocolWorkers.ClaimOk` | backend/internal/repository/storage_cleanup_job_repository.go:50-58 | A claim under a fresh token keeps the invariant and every lost token lost. |
| `ProtocolWorkers.NeverRefused` | backend/internal/service/storage_cleanup_worker.go:166-169 | A claimed job's blob is never active or referenced, and is staging only while its owner aborts. |
| `ProtocolWorkers.WorkerDelete` | backend/internal/service/storage_cleanup_worker.go:170-184 | The unlocked delete of a worker, however stale its read, never removes a file of a blob in use. |
| `ProtocolWorkers.CompleteOk` | backend/internal/service/storage_cleanup_worker.go:190-193 | A worker's completion keeps the invariant, whether it succeeds or is fenced off. |
| `BooksKept.CreateOneKeeps` | backend/internal/repository/storage_blob_repository.go:139-190 | Inserting a staging row with fresh names keeps the ledger invariant, the lifecycle and the quota ceiling. |
| `BooksKept.ReserveKeeps` | backend/internal/repository/storage_blob_ledger_repository.go:66-105 | A reservation keeps the ledger invariant and the quota ceiling. |
| `BooksKept.ActivateOneKeeps` | backend/internal/repository/storage_blob_ledger_repository.go:107-145 | Activation keeps the ledger invariant with one more reference to the blob; its reserved-bytes guard never fails. |
| `BooksKept.ReleaseRefsKeeps` | backend/internal/repository/storage_blob_release_repository.go:16-137 | Releasing the paths of rows that were taken out always succeeds and keeps the ledger invariant against the references that are left. |
| `BooksKept.ReleaseStagingOneKeeps` | backend/internal/repository/storage_blob_release_repository.go:139-168 | Releasing a staging row keeps the ledger invariant; its guard never fails. |
| `BooksKept.ReleaseStagingAllKeeps` | backend/internal/repository/storage_blob_release_repository.go:170-240 | Releasing a list of staging rows keeps the ledger invariant and opens no job. |
| `BooksKept.CompleteJobKeeps` | backend/internal/repository/storage_cleanup_job_repository.go:115-152 | Completion succeeds exactly for the owner of the job, removes exactly the blob and its job, and takes exactly its bytes out of the one column that held them. |
| `BooksKept.EnqueueKeeps` | backend/internal/repository/storage_cleanup_job_repository.go:28-38 | Enqueueing jobs for staging or pending blobs keeps the ledger invariant. |
| `BooksKept.SealKeeps` | backend/internal/repository/storage_blob_reconciliation_repository.go:86-116 | Sealing staging rows and giving them jobs keeps the ledger invariant and moves no byte between columns. |
| `BooksKept.ExpireKeeps` | backend/internal/repository/storage_blob_reconciliation_repository.go:30-84 | Expiring abandoned rows is sealing them, and keeps the ledger invariant. |
| `BooksKept.RegisterOrphanKeeps` | backend/internal/repository/storage_blob_reconciliation_repository.go:118-128 | Registering an unmanaged file keeps the ledger invariant, though not the quota ceiling. |
| `BooksKept.ScheduleOrphanKeeps` | backend/internal/repository/storage_blob_reconciliation_repository.go:130-183 | Scheduling an orphan keeps the ledger invariant, also when it is already pending. |
| `BooksKept.CreateAllKeeps` | backend/internal/repository/storage_blob_repository.go:139-190 | A batch of staging rows with fresh names keeps the ledger invariant and leaves the old rows alone. |
| `LedgerBatches.ActivateAllIs` | backend/internal/repository/storage_blob_ledger_repository.go:147-249 | A run of single activations succeeds exactly when the batch can (distinct blobs, all staging, sizes within reservations, sums within both columns), and its effect is one update of the named rows. |
| `LedgerBatches.ReleaseBatchIs` | backend/internal/repository/storage_blob_release_repository.go:170-240 | Releasing each listed blob on its own succeeds exactly when all distinct existing ones are staging and their sum is reserved; its effect is removing them at once. |
| `LedgerBatches.ReleaseRefsIsEach` | backend/internal/repository/storage_blob_release_repository.go:16-137 | The counted release equals one decrement per occurrence of each path: same success, same ledger. |
| `LedgerBatches.CreateAllIs` | backend/internal/repository/storage_blob_repository.go:139-190 | Inserting rows one by one succeeds exactly when none clashes and their sum fits the quota at once. |
| `StorageBlobRepository.NextBatch` | backend/internal/repository/storage_blob_ledger_repository.go:38-52 | After any number of batches that matched all their rows, one more batch matches what a single update would, and a short count means a row is missing. |
| `StorageBlobRepository.Repository.UpdateInBatches` | backend/internal/repository/storage_blob_ledger_repository.go:214-246 | The batched UPDATE loop: succeeds exactly when every row meets the condition and then has changed exactly the listed rows, for every batch size. |
| `StorageBlobRepository.Repository.RenewStagingLease` | backend/internal/repository/storage_blob_ledger_repository.go:14-54 | Renews the leases of all distinct blobs, or fails having renewed only rows that are staging; succeeds exactly when every identifier is nonempty and staging. |
| `StorageBlobRepository.Repository.Reserve` | backend/internal/repository/storage_blob_ledger_repository.go:66-105 | Implements the reservation transaction, errors and rollback included: the row and the reserved column grow by the same bytes, and used plus reserved stay within the maximum. |
| `StorageBlobRepository.Repository.CreateStagingBatch` | backend/internal/repository/storage_blob_repository.go:139-190 | For every batch size: has the all-or-nothing effect of inserting the rows one by one with their leases; an empty identifier rolls everything back; each error is returned exactly when the sum or the rows call for it and no earlier check refuses. |
| `StorageBlobRepository.Repository.ActivateStaging` | backend/internal/repository/storage_blob_ledger_repository.go:107-145 | Implements the single activation, errors included. |
| `StorageBlobRepository.Repository.ActivateStagingBatch` | backend/internal/repository/storage_blob_ledger_repository.go:147-249 | For every batch size: has the all-or-nothing effect of the single activations, and a refused batch returns the one error its checks come to first: identifiers, missing rows, the first row with an error, the two columns. |
| `StorageBlobRepository.Repository.ReleaseStaging` | backend/internal/repository/storage_blob_release_repository.go:139-168 | Implements the single release, errors included. |
| `StorageBlobRepository.Repository.ReleaseStagingBatch` | backend/internal/repository/storage_blob_release_repository.go:170-240 | For every batch size: has the all-or-nothing effect of the single releases over all listed identifiers; the column is reported inconsistent exactly when all rows are staging and their sum fits 64 bits but not the column. |
| `StorageBlobRepository.Repository.ReleaseReferences` | backend/internal/repository/storage_blob_release_repository.go:16-137 | For every batch size: the batched updates and the batched upsert of the jobs implement the counted release of every path, and a refusal names the same error and changes nothing. |
| `StorageBlobRepository.CountStoragePaths` | backend/internal/repository/storage_blob_repository.go:231-239 | Counts each nonempty path as often as it occurs. |
| `StorageBlobRepository.Repository.ClaimCleanupJob` | backend/internal/repository/storage_cleanup_job_repository.go:50-58 | Implements the claim: granted if and only if the job is due without a live lease; afterwards the caller owns it and no other claim succeeds before the lease ends. |
| `StorageBlobRepository.Repository.RenewCleanupJobLease` | backend/internal/repository/storage_cleanup_job_repository.go:60-78 | Implements the renewal: granted exactly to the owner, who stays the owner and excludes others up to the new time. |
| `StorageBlobRepository.Repository.FailCleanupJob` | backend/internal/repository/storage_cleanup_job_repository.go:90-113 | Implements the failure of a job, granted exactly to the owner: one more retry, no owner any more, and claimable again if and only if the next try has come. |
| `StorageBlobRepository.Repository.CompleteCleanupJob` | backend/internal/repository/storage_cleanup_job_repository.go:115-152 | Implements the completion, with the column the bytes come out of. |
| `StorageBlobRepository.Repository.EnqueueCleanupBatch` | backend/internal/repository/storage_cleanup_job_repository.go:28-38 | For every batch size the insert loop succeeds if and only if every listed blob exists; then existing jobs are untouched, every other listed blob has the job of its first row and no other blob got one; otherwise no job has changed. It implements the enqueue transaction of the state machine. |
| `StorageBlobRepository.Repository.SealForCleanup` | backend/internal/service/blob_publish_lifecycle.go:171-189 | For every batch size: seals all rows with their jobs or none. |
| `StorageBlobRepository.Repository.ExpireStaging` | backend/internal/repository/storage_blob_reconciliation_repository.go:30-84 | Seals exactly the selected expired rows and keeps the jobs that exist. |
| `StorageBlobRepository.Repository.RegisterOrphan` | backend/internal/repository/storage_blob_reconciliation_repository.go:118-128 | Implements the orphan insert: its bytes go to the used column alone, its path was free, its row is orphaned with that path and size, and it has no job. |
| `StorageBlobRepository.Repository.ScheduleOrphanCleanup` | backend/internal/repository/storage_blob_reconciliation_repository.go:130-183 | Implements the scheduling in each status: the row is pending, and its job, old or new, is unowned and due. |
| `StorageBlobRepository.Repository.UpdateMaxBytes` | backend/internal/repository/storage_quota_repository.go:105-132 | Implements the guarded update of the maximum: accepted exactly when it covers used plus reserved, which it leaves alone. |
| `StorageReconciler.SealExpiredStaging` | backend/internal/service/storage_reconciliation.go:189-208 | For every batch size the loop ends, no expired row is left, and the result is as if one transaction had sealed them all. |
| `LedgerAudit.ValidateAndMarkReconciled` | backend/internal/repository/storage_blob_audit_repository.go:15-199 | On the rows its queries return from all the tables, succeeds if and only if the database satisfies the declarative invariant, and only then stamps the quota row. |
| `LedgerAudit.QueryReadsAllReferences` | backend/internal/repository/storage_blob_audit_repository.go:39-46 | The inner query over both metadata tables returns exactly the references they hold, however it lists their rows. |
| `ProtocolAudit.AuditSucceeds` | backend/internal/repository/storage_blob_audit_repository.go:15-199 | In every reachable state the audit program succeeds, whatever order its queries return their rows in. |
| `LedgerAudit.CheckPaths` | backend/internal/repository/storage_blob_audit_repository.go:64-86 | The first loop accepts exactly the rows whose managed paths are nonempty and pairwise disjoint. |
| `LedgerAudit.AllGroupsFit` | backend/internal/repository/storage_blob_audit_repository.go:88-107 | The checks of the grouped references accept exactly when every reference has an active blob of its size. |
| `LedgerAudit.CheckJobs` | backend/internal/repository/storage_blob_audit_repository.go:108-116 | The job loop accepts exactly when every job has its blob and the blob's path. |
| `LedgerAudit.RowPassesIs` | backend/internal/repository/storage_blob_audit_repository.go:120-175 | Given sound references, the status check of a row with its grouped count is the declarative rule for its status. |
| `LedgerAudit.CheckRows` | backend/internal/repository/storage_blob_audit_repository.go:118-175 | The last loop accepts exactly when every row passes and neither 64-bit sum overflows, and then returns both sums. |
| `LedgerAudit.AddBytes` | backend/internal/repository/storage_blob_repository.go:248-254 | Adds without wrapping: fails exactly when the sum exceeds 64 bits. |
| `Streaming.RoundUpIsLeast` | backend/internal/service/blob_lifecycle_service.go:266-271 | For sizes up to 2^63-1 and any 64-bit block, rounding up does not wrap and is the least multiple of the block that is no smaller. |
| `Streaming.RoundUpWrapsIff` | backend/internal/service/blob_lifecycle_service.go:266-271 | For any 64-bit value and block, rounding up gives no less than the value if and only if the product fits 64 bits; where it does not, the result is below both the block and the value. |
| `Streaming.Reservation.BeforeWrite` | backend/internal/service/blob_lifecycle_service.go:188-209 | Reserves before a write: a block at a time when the quota has room for it, the exact size only when it has not, and refuses only when not even that fits; a refusal changes nothing; the row and the local count grow alike. |
| `Streaming.WriteLoop` | backend/internal/storage/local_storage.go:74-107 | At every turn bytes on disk <= local count <= ledger row. Returns a size if and only if some turn ends the input with no turn before it cancelled or failing and every reservation up to there granted by the quota; the size is that of all delivered bytes. Otherwise it removes the file. |
| `Streaming.StageUnknown` | backend/internal/service/blob_lifecycle_service.go:211-237 | Stages a file if and only if its input gets through so and, if it is empty, the one byte it needs is granted; the row is then never of size zero, covers the file, and is at most the delivered bytes rounded up (one byte for an empty file). |
| `Metadata.RecycleConserves` | backend/internal/service/object_service.go:228-277 | Moving objects into the recycle bin changes no reference and keeps the audit. |
| `Metadata.RestoreConserves` | backend/internal/service/recycle_bin_actions.go:45-107 | A restore that commits changes no reference and keeps the audit. |
| `Metadata.PurgeKeeps` | backend/internal/service/recycle_bin_actions.go:111-145 | A permanent delete succeeds exactly when all its rows are there, takes away exactly their references and keeps the audit. |
| `Metadata.DropBucketKeeps` | backend/internal/service/bucket_service.go:65-139 | Deleting a bucket takes away exactly the references of its rows in both tables and keeps the audit. |
| `Metadata.PublishKeeps` | backend/internal/service/object_service.go:71-145 | An upload that commits adds the references it publishes, takes away those it replaces, and keeps the audit, single or batch, with or without overwrite. |
| `Metadata.PutItemsAre` | backend/internal/service/object_batch_upload.go:100-170 | The object rows after an upload: its own keys with their new files, every other key as it was. |
| `References.RefCountIsRowCount` | backend/internal/repository/storage_blob_audit_repository.go:25-48 | In an audited database `ref_count` is the number of rows of both tables that name the path. |
| `References.FolderDeleteThenRestore` | backend/internal/service/recycle_bin_actions.go:45-107 | Folder delete then restore of the whole group, in whatever order it is read, is the identity on objects and bin. |
| `References.ObjectDeleteThenRestore` | backend/internal/service/object_service.go:228-277 | Object delete then restore is the identity on objects and bin. |
| `BinGroups.InsertKeepsGroups` | backend/internal/service/object_service_helpers.go:175-206 | One delete's batch insert keeps all groups contiguous, uniform and rooted in one marker. |
| `BinGroups.DropKeepsGroups` | backend/internal/service/recycle_bin_grouping.go:212-222 | Removing a file alone, or a marker with its whole group, keeps all groups so. |
| `BinGroups.RemainderHoldsMarker` | backend/internal/service/object_service_helpers.go:175-206 | What remains of a group of several rows still holds the marker of the deleted folder. |
| `BinGroups.DeleteFolderKeeps` | backend/internal/service/explorer_folder.go:72-131 | A recursive folder delete moves exactly the listed objects, keeps references, ledger and groups, and fails only for an empty folder. |
| `BinGroups.DeleteObjectKeeps` | backend/internal/service/object_service.go:228-277 | An object delete moves exactly that object and keeps references, ledger and groups. |
| `RecycleBinGrouping.OwningDirectory` | backend/internal/service/recycle_bin_grouping.go:169-187 | Finds the first candidate directory, shallowest first, that has a marker in the group. |
| `RecycleBinGrouping.LogicalItemsFromDeleteGroup` | backend/internal/service/recycle_bin_grouping.go:121-167 | The two map-and-loop passes compute the fold of the grouping over the rows. |
| `RecycleBinGrouping.LogicalItemsFromDeletedAtBatch` | backend/internal/service/recycle_bin_grouping.go:102-119 | Groups by delete group in order of first appearance. |
| `RecycleBinGrouping.BatchIsLogical` | backend/internal/service/recycle_bin_grouping.go:102-119 | On contiguous groups, grouping by a map in order of first appearance is grouping run by run. |
| `RecycleBinPaging.LogicalItemsFromRawItems` | backend/internal/service/recycle_bin_grouping.go:86-100 | Cutting the rows at changes of timestamp gives the same items as the simple list. |
| `RecycleBinPaging.SplitComplete` | backend/internal/service/recycle_bin_grouping.go:66-84 | Holds back exactly the rows of the last timestamp unless the end has been reached. |
| `RecycleBinPaging.MatchingFrom` | backend/internal/repository/recycle_bin_repository.go:74-96 | On a sorted table, querying from the cursor of a row returns exactly the rows after it. |
| `RecycleBinPaging.ListPage` | backend/internal/service/recycle_bin_service.go:124-176 | For every limit and batch size the fetch loop ends and returns the first items of the simple list with the right cursor. |
| `RecycleBinPaging.ListObjects` | backend/internal/service/recycle_bin_service.go:104-176 | The same with the default and maximum limits and the batch size the code derives; fails exactly for a limit out of range. A page has at most `limit` items, and each is a row of the table in the bucket asked for, after the cursor. |
| `RecycleBinPaging.PagesAreTheList` | backend/internal/service/recycle_bin_service.go:124-176 | Following the cursors shows every item of the simple list exactly once and in order. |
| `RecycleBinPaging.EachGroupOnce` | backend/internal/service/recycle_bin_grouping.go:121-167 | The simple list shows every delete group exactly once. |
| `RecycleBinFolders.FolderIsOneItem` | backend/internal/service/recycle_bin_grouping.go:121-187 | A deleted folder shows as one item: its marker, with the marker's size plus the sizes of the files below, and the cursor of its last row. |
| `RecycleBinFolders.OwnedByRoot` | backend/internal/service/recycle_bin_grouping.go:169-210 | Every row of a recursive delete is owned by the folder that was deleted, not by a marker further down. |
| `RecycleBinFolders.GroupsTogether` | backend/internal/service/object_service_helpers.go:175-206 | The group invariant of the table makes every listing of it contiguous and uniform in time. |
| `RecycleBinReading.PagesPicture` | backend/internal/service/recycle_bin_service.go:104-176 | On every table that keeps the group invariant the pages put together are a true picture of the bucket: which rows, in which order, every group once, with all of its size. |
| `TokenBucket.Row.Update` | backend/internal/middleware/mysql_rate_limit_store.go:208-256 | The left-to-right column assignments of the UPDATE amount to one simultaneous update. |
| `TokenBucket.PacedAreAllowed` | backend/internal/middleware/mysql_rate_limit_store.go:182-256 | Requests in clock order that stay within burst + rps*T in every window are all allowed, whatever the cleanup does in between. |
| `TokenBucket.SpacedIsAllowed` | backend/internal/middleware/mysql_rate_limit_store.go:208-256 | Whatever came before, a request at least 1000000/rps microseconds after the last one of its key is allowed. |
| `TokenBucket.ExpiredIsFull` | backend/internal/middleware/mysql_rate_limit_store.go:219-241 | If an idle bucket refills before it expires, expiry is indistinguishable from a full refill. |
| `TokenBucket.BoundHoldsIff` | backend/internal/middleware/mysql_rate_limit_store.go:182-256 | Every window of length T of every history allows at most burst + rps*T requests if and only if rps*ttl >= burst. |
| `TokenBucket.DoubleBurstAllowed` | backend/internal/middleware/mysql_rate_limit_store.go:219-241 | Any policy allows two full bursts one time-to-live apart; where rps*ttl < burst this breaks the bound. |
| `TokenBucket.NoTimeNoTokens` | backend/internal/middleware/mysql_rate_limit_store.go:219-241 | A clock that has not moved on, or has run backwards, gives no tokens: the request spends one that is there or is refused. |
| `SharedLimiter.Store.CleanupExpired` | backend/internal/middleware/mysql_rate_limit_store.go:270-295 | Removes at most 256 expired rows, oldest first, with the counter staying exact; the clamp at zero never bites. |
| `SharedLimiter.Store.InsertBounded` | backend/internal/middleware/mysql_rate_limit_store.go:116-206 | Keeps counter = rows <= cap and inserts = rows + evictions; inserts, updates or refuses as the table and the cleanup leave room, each statement with its own reading of the clock, and the row left behind says what was decided. |
| `SharedLimiter.Store.UpdateExisting` | backend/internal/middleware/mysql_rate_limit_store.go:70-114 | Updates the row of a known key only. |
| `SharedLimiter.OneKeysView` | backend/internal/middleware/mysql_rate_limit_store.go:116-206 | Whatever replicas do to other keys, each key lives the life of one token bucket: a transaction is one event in it or leaves its row alone. |
| `SharedLimiter.SharedWindowBound` | backend/internal/middleware/mysql_rate_limit_store.go:37-68 | In every interleaving of replicas, across expiry, cleanup and re-insertion, a key is allowed at most burst + rps*T requests in a window; only the clock readings that reach its own row need be in order. |
| `SharedLimiter.SharedBoundHoldsIff` | backend/internal/middleware/mysql_rate_limit_store.go:37-68 | On the shared table that bound holds for a key in every interleaving if and only if rps*ttl >= burst, or the table may hold no row at all. |
| `SharedLimiter.SharedPacedAllowed` | backend/internal/middleware/mysql_rate_limit_store.go:116-206 | On the shared table, in every interleaving of replicas, the requests of a key that find its row or room for one are all allowed as long as they stay within burst + rps*T in every window. |
| `SharedLimiter.SharedSpacedAllowed` | backend/internal/middleware/mysql_rate_limit_store.go:70-206 | So is a request of the key at least 1000000/rps microseconds after the last, whatever came before. |
| `LocalLimiter.RateLimiter.GetLimiter` | backend/internal/middleware/rate_limit.go:169-202 | Under a forward clock a key seen within the time to live keeps its limiter; others get a new one; only expired entries or the least recently seen leave, and an entry is evicted for room if and only if the key is new and the entries kept fill the cap; the cap and the insertion count hold. |
| `LocalLimiter.RateLimiter.EvictExpired` | backend/internal/middleware/rate_limit.go:247-258 | Looking only at the front of the list removes exactly the expired entries. |
| `LocalLimiter.RateLimiter.EvictOldest` | backend/internal/middleware/rate_limit.go:260-265 | Removes an entry that no other is older than. |
| `LocalLimiter.RateLimiter.CleanUpIfDue` | backend/internal/middleware/rate_limit.go:173-177 | Evicts the expired entries exactly when the cleanup is due, and then puts the next one a time to live ahead. |
| `ExplorerOrder.CompareMeans` | backend/internal/service/explorer_cursor.go:70-102 | An entry comes before another if and only if it is a directory and the other a file, or its key (size, time or lower-cased name) is smaller when ascending and larger when descending, ties and directories going by name. |
| `ExplorerOrder.CompareSwaps` | backend/internal/service/explorer_cursor.go:70-102 | Swapping the arguments swaps the sign, and entries that differ in type or name never compare equal, for every sort and direction. |
| `ExplorerOrder.CompareTrans` | backend/internal/service/explorer_cursor.go:70-102 | The comparison is transitive, whatever lower-casing does. |
| `ExplorerOrder.DecodesIff` | backend/internal/service/explorer_cursor.go:30-68 | A cursor is accepted if and only if it has a name and, but for fields its order does not need, is one that some listed entry gives. |
| `ExplorerOrder.CursorFromEntry` | backend/internal/service/explorer_cursor.go:143-168 | For a listed entry the cursor carries only the field it sorts by, is accepted again exactly when the name is not empty, and stands for an entry to which every other compares as to the original. |
| `ExplorerOrder.EntryFromCursor` | backend/internal/service/explorer_cursor.go:170-188 | The rebuilt entry has the place in the order of every listed entry the cursor can have come from, and gives the same cursor back if and only if that carries no field it does not need. |
| `ExplorerOrder.ReducedEntryCompares` | backend/internal/service/explorer_cursor.go:143-188 | Every entry compares to the rebuilt entry as to the original, which itself compares equal. |
| `ExplorerListing.CollectEntries` | backend/internal/service/explorer.go:155-203 | The entries are exactly the files directly in the folder and its subfolders, once each, a subfolder being empty exactly when nothing but its marker lies in it. |
| `ExplorerListing.ListingMeans` | backend/internal/service/explorer.go:155-206 | By the keys alone: a listing holds exactly the files of the folder and the subfolders below which some object lies, once each, no file comes before a directory, and sizes, times and lower-cased names go up or down as the sort and its direction ask. |
| `ExplorerListing.SortedIsUnique` | backend/internal/service/explorer.go:204-206 | A sorted listing of the same entries is unique, so the map order and the sort algorithm do not matter. |
| `ExplorerListing.CutPage` | backend/internal/service/explorer.go:208-235 | The scan and the cut give the first entries after the cursor and a cursor unless they are all. |
| `ExplorerListing.ListExplorerEntries` | backend/internal/service/explorer.go:109-241 | Accepts exactly the valid requests and returns the page of the sorted listing. |
| `ExplorerListing.ListingIsPaged` | backend/internal/service/explorer.go:204-241 | The pages put together are the one sorted listing: no entry skipped, none repeated. |
| `ExplorerListing.CursorsAccepted` | backend/internal/service/explorer_cursor.go:30-68 | Every cursor a page hands out is accepted with the next request. |

## Left out

- Database isolation, locking and collation: a transaction is one atomic step, and paths and keys are compared exactly.
- GORM, connection handling, migrations, configuration, HTTP, logging, metrics and the frontend.
- Site publishing and site rows: their effect on the ledger is the publish step of an upload.
- Hashing, UUIDs, base64 and JSON: names are fresh and cursor encodings invertible.
- The real file store: fsync, mkdir, rename failures other than a missing source, traversal checks and the storage identity.
- `golang.org/x/time/rate`: a local limiter is an opaque identity.
- Rounding of doubles in the token bucket: token counts are reals.
- Changed versus matched rows: an UPDATE is taken to report the rows it matches, as the code's own checks assume.
- Staging rows without a lease (`backend/internal/repository/storage_blob_repository.go:102-125`): the services do not use them.
- Retry backoff: a failed job comes back at any time the step names. Claim candidates: a worker may try any job.
- Which eligible rows a bounded query returns first: the expiry steps allow any of them, so every real order is covered.
- A failing heartbeat beyond its effect: leases of any staging rows may be renewed or not at any step, and a publisher may find its lease lost.
- The non-recursive folder delete: it is the delete of the folder's marker object.
- Object visibility changes and plain object listing: they touch no reference.
- Concurrency inside one client: the staging goroutines and the worker's renewal are steps of the state machine and not threads.
- The order in which the audit and the repository lock rows, and the text of error messages.
- Wrap-around of summed sizes in a recycle-bin item: the sum is an unbounded integer.
- StorageBlobRepository.Repository.ReleaseStagingBatch: where a row has the wrong status and the sum of the sizes overflows too, either error may be returned, because the database decides the order in which the rows of a batch arrive.
- SharedLimiter.SharedBoundHoldsIff: that the row lock of a key puts the clock readings of its own events in order is assumed.
- The text of a job's last error, and its columns for display.
- Streaming.WriteLoop: runs without interference from other clients; the interleaved form is `ProtocolGuarantees.StagedBytesReserved`.
- RecycleBinPaging.ListObjects: the table stays fixed during the call, as the paging promise assumes.
- TokenBucket.BoundHoldsIff: the clock does not run backwards and all requests of a key use one policy.
