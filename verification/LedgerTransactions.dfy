/**
  The storage ledger: the quota row, the blob rows and the cleanup-job rows, and every
  database transaction that touches them, each as one function from the old ledger to
  the new ledger or to the error that rolls the transaction back.
 */
module LedgerTransactions {
  import opened Common

  datatype Status = Staging | Active | PendingDelete | Orphaned | Unsupported(name: string)

  datatype Blob = Blob(
    storagePath: Path,
    stagingPath: Option<Path>,
    size: nat,
    refCount: nat,
    status: Status,
    lease: Option<Time>,
    createdAt: Time)
  {
    predicate HasStaging() { stagingPath.Some? && stagingPath.value != Empty }

    /** The blob manages this path, as its final or as its staging location. */
    predicate Holds(path: Path) {
      path == storagePath || (HasStaging() && path == stagingPath.value)
    }

    predicate HoldsOnly(paths: set<Path>) {
      storagePath in paths && (HasStaging() ==> stagingPath.value in paths)
    }
  }

  /** A cleanup job. Its blob id is unique and it goes away only with its blob, so the
      jobs table is keyed by blob id. */
  datatype Job = Job(
    storagePath: Path,
    retries: nat,
    nextRetryAt: Time,
    owner: Option<Id>,
    ownedUntil: Option<Time>)

  datatype Quota = Quota(used: nat, reserved: nat, max: nat, reconciledAt: Option<Time>)
  {
    /** The guard of every reservation, written with subtractions as the SQL has it. */
    predicate Admits(bytes: nat) {
      used <= max && reserved <= max - used && bytes <= max - used - reserved
    }
  }

  /** The quota has no room for so many more bytes. */
  predicate Lacks(quota: Quota, bytes: int) { bytes > 0 && !quota.Admits(bytes) }

  datatype Ledger = Ledger(quota: Quota, blobs: map<Id, Blob>, jobs: map<Id, Job>)

  datatype Error =
    | NotFound | QuotaExceeded | WrongStatus | ExceedsReservation | Inconsistent
    | Overflow | MissingId | Duplicate | Changed | BelowUsage

  datatype Result = Ok(ledger: Ledger) | Err(error: Error)

  // ---------------------------------------------------------------- staging

  datatype NewBlob = NewBlob(id: Id, storagePath: Path, stagingPath: Path, size: nat)

  function StagingRow(n: NewBlob, now: Time, until: Time): Blob {
    Blob(n.storagePath, Some(n.stagingPath), n.size, 0, Staging, Some(until), now)
  }

  predicate PathTaken(l: Ledger, path: Path) {
    exists b :: b in l.blobs && l.blobs[b].storagePath == path
  }

  /** Insert one staging row and charge its declared size to the reservation. */
  function CreateOne(l: Ledger, n: NewBlob, now: Time, until: Time): Result {
    if n.size > 0 && !l.quota.Admits(n.size) then Err(QuotaExceeded)
    else if n.id in l.blobs || PathTaken(l, n.storagePath) then Err(Duplicate)
    else Ok(l.(quota := l.quota.(reserved := l.quota.reserved + n.size),
               blobs := l.blobs[n.id := StagingRow(n, now, until)]))
  }

  /** createStagingBatch with a lease, as the all-or-nothing run of the single insert. */
  function CreateAll(l: Ledger, rows: seq<NewBlob>, now: Time, until: Time): Result
    decreases |rows|
  {
    if rows == [] then Ok(l)
    else match CreateOne(l, rows[0], now, until)
      case Err(e) => Err(e)
      case Ok(l1) => CreateAll(l1, rows[1..], now, until)
  }

  predicate AllStaging(l: Ledger, ids: set<Id>) {
    forall b :: b in ids ==> b in l.blobs && l.blobs[b].status == Staging
  }

  function RenewLease(l: Ledger, ids: set<Id>, until: Time): Result {
    if !AllStaging(l, ids) then Err(Changed)
    else Ok(l.(blobs := map b | b in l.blobs ::
                 if b in ids then l.blobs[b].(lease := Some(until)) else l.blobs[b]))
  }

  function Reserve(l: Ledger, id: Id, bytes: nat): Result {
    if bytes == 0 then Ok(l)
    else if id !in l.blobs || l.blobs[id].status != Staging then Err(NotFound)
    else if !l.quota.Admits(bytes) then Err(QuotaExceeded)
    else Ok(l.(quota := l.quota.(reserved := l.quota.reserved + bytes),
               blobs := l.blobs[id := l.blobs[id].(size := l.blobs[id].size + bytes)]))
  }

  // ------------------------------------------------------------- activation

  datatype Activation = Activation(id: Id, actual: nat)

  function Activated(b: Blob, actual: nat): Blob {
    b.(size := actual, refCount := 1, status := Active, stagingPath := None, lease := None)
  }

  function ActivateOne(l: Ledger, a: Activation): Result {
    if a.id !in l.blobs then Err(NotFound)
    else var b := l.blobs[a.id];
      if b.status != Staging then Err(WrongStatus)
      else if a.actual > b.size then Err(ExceedsReservation)
      else if l.quota.reserved < b.size then Err(Inconsistent)
      else if l.quota.used + a.actual > MAX_U64 then Err(Overflow)
      else Ok(l.(quota := l.quota.(reserved := l.quota.reserved - b.size, used := l.quota.used + a.actual),
                 blobs := l.blobs[a.id := Activated(b, a.actual)]))
  }

  function ActivateAll(l: Ledger, acts: seq<Activation>): Result
    decreases |acts|
  {
    if acts == [] then Ok(l)
    else match ActivateOne(l, acts[0])
      case Err(e) => Err(e)
      case Ok(l1) => ActivateAll(l1, acts[1..])
  }

  // ---------------------------------------------------------------- release

  /** The job row that (re)opens cleanup for a blob right away, dropping any lease. */
  function Reopened(l: Ledger, id: Id, path: Path, now: Time): Job {
    if id in l.jobs then l.jobs[id].(nextRetryAt := now, owner := None, ownedUntil := None)
    else Job(path, 0, now, None, None)
  }

  predicate Releasable(l: Ledger, path: Path, count: nat) {
    exists b :: b in l.blobs && l.blobs[b].storagePath == path
      && l.blobs[b].status == Active && l.blobs[b].refCount >= count
  }

  predicate HitsZero(b: Blob, counts: multiset<Path>) {
    counts[b.storagePath] > 0 && b.refCount == counts[b.storagePath]
  }

  function Released(b: Blob, counts: multiset<Path>): Blob {
    if counts[b.storagePath] == 0 || b.refCount < counts[b.storagePath] then b
    else if HitsZero(b, counts) then b.(refCount := 0, status := PendingDelete)
    else b.(refCount := b.refCount - counts[b.storagePath])
  }

  /** Each blob loses its count of references; one that reaches zero becomes pending and
      its cleanup opens. */
  function AfterRelease(l: Ledger, counts: multiset<Path>, now: Time): Ledger {
    l.(blobs := map b | b in l.blobs :: Released(l.blobs[b], counts),
       jobs := l.jobs + map b | b in l.blobs && HitsZero(l.blobs[b], counts) ::
         Reopened(l, b, l.blobs[b].storagePath, now))
  }

  /** ReleaseReferences, on the count of each released path. */
  function ReleaseRefs(l: Ledger, counts: multiset<Path>, now: Time): Result {
    if exists p :: p in counts && !PathTaken(l, p) then Err(NotFound)
    else if exists p :: p in counts && !Releasable(l, p, counts[p]) then Err(Inconsistent)
    else Ok(AfterRelease(l, counts, now))
  }

  function ReleaseStagingOne(l: Ledger, id: Id): Result {
    if id !in l.blobs then Ok(l)
    else if l.blobs[id].status != Staging then Err(WrongStatus)
    else if l.quota.reserved < l.blobs[id].size then Err(Inconsistent)
    else Ok(Ledger(l.quota.(reserved := l.quota.reserved - l.blobs[id].size), l.blobs - {id}, l.jobs - {id}))
  }

  function ReleaseStagingAll(l: Ledger, ids: seq<Id>): Result
    decreases |ids|
  {
    if ids == [] then Ok(l)
    else match (if ids[0] == Empty then Ok(l) else ReleaseStagingOne(l, ids[0]))
      case Err(e) => Err(e)
      case Ok(l1) => ReleaseStagingAll(l1, ids[1..])
  }

  // ------------------------------------------------------------ cleanup jobs

  /** EnqueueCleanupBatch: insert, ignoring a blob that already has a job; a job for a
      missing blob breaks the foreign key and fails the whole statement. */
  function Enqueue(l: Ledger, paths: map<Id, Path>, now: Time): Result {
    if exists b :: b in paths && b !in l.blobs then Err(NotFound)
    else Ok(l.(jobs := (map b | b in paths :: Job(paths[b], 0, now, None, None)) + l.jobs))
  }

  predicate Due(j: Job, now: Time) {
    j.nextRetryAt <= now && (j.ownedUntil.None? || j.ownedUntil.value <= now)
  }

  function Claim(l: Ledger, id: Id, owner: Id, now: Time, until: Time): Result {
    if id !in l.jobs || !Due(l.jobs[id], now) then Err(Changed)
    else Ok(l.(jobs := l.jobs[id := l.jobs[id].(owner := Some(owner), ownedUntil := Some(until))]))
  }

  predicate Owns(l: Ledger, id: Id, owner: Id) {
    id in l.jobs && l.jobs[id].owner == Some(owner)
  }

  function RenewJob(l: Ledger, id: Id, owner: Id, until: Time): Result {
    if !Owns(l, id, owner) then Err(Changed)
    else Ok(l.(jobs := l.jobs[id := l.jobs[id].(ownedUntil := Some(until))]))
  }

  function FailJob(l: Ledger, id: Id, owner: Id, retryAt: Time): Result {
    if !Owns(l, id, owner) then Err(NotFound)
    else Ok(l.(jobs := l.jobs[id := l.jobs[id].(
      retries := l.jobs[id].retries + 1, nextRetryAt := retryAt, owner := None, ownedUntil := None)]))
  }

  function CompleteJob(l: Ledger, id: Id, owner: Id): Result {
    if !Owns(l, id, owner) || id !in l.blobs then Err(NotFound)
    else var b := l.blobs[id];
      if b.status == Active || b.refCount != 0 then Err(WrongStatus)
      else if b.HasStaging() then
        if l.quota.reserved < b.size then Err(Inconsistent)
        else Ok(Ledger(l.quota.(reserved := l.quota.reserved - b.size), l.blobs - {id}, l.jobs - {id}))
      else
        if l.quota.used < b.size then Err(Inconsistent)
        else Ok(Ledger(l.quota.(used := l.quota.used - b.size), l.blobs - {id}, l.jobs - {id}))
  }

  // ---------------------------------------------------------- reconciliation

  predicate Expired(b: Blob, before: Time, now: Time) {
    b.status == Staging && b.createdAt <= before && (b.lease.None? || b.lease.value <= now)
  }

  function Sealed(b: Blob): Blob { b.(status := PendingDelete, lease := None) }

  /** Seal staging blobs and give each of them a job, keeping a job that already exists. */
  function SealWithJobs(l: Ledger, ids: set<Id>, now: Time): Result {
    if exists b :: b in ids && (b !in l.blobs || l.blobs[b].status != Staging || l.blobs[b].refCount != 0)
    then Err(Changed)
    else Ok(l.(
      blobs := map b | b in l.blobs :: if b in ids then Sealed(l.blobs[b]) else l.blobs[b],
      jobs := (map b | b in ids && b in l.blobs :: Job(l.blobs[b].storagePath, 0, now, None, None)) + l.jobs))
  }

  /** expireStagingForCleanup, on the batch of rows its query selected. */
  function Expire(l: Ledger, ids: set<Id>, before: Time, now: Time): Result {
    if exists b :: b in ids && (b !in l.blobs || !Expired(l.blobs[b], before, now)) then Err(Changed)
    else Ok(l.(
      blobs := map b | b in l.blobs :: if b in ids then Sealed(l.blobs[b]) else l.blobs[b],
      jobs := (map b | b in ids && b in l.blobs :: Job(l.blobs[b].storagePath, 0, now, None, None)) + l.jobs))
  }

  function RegisterOrphan(l: Ledger, id: Id, path: Path, size: nat, now: Time): Result {
    if id in l.blobs || PathTaken(l, path) then Err(Duplicate)
    else if l.quota.used + size > MAX_U64 then Err(Overflow)
    else Ok(l.(quota := l.quota.(used := l.quota.used + size),
               blobs := l.blobs[id := Blob(path, None, size, 0, Orphaned, None, now)]))
  }

  function ScheduleOrphan(l: Ledger, id: Id, now: Time): Result {
    if id !in l.blobs then Err(NotFound)
    else var b := l.blobs[id];
      if b.refCount != 0 || (b.status != Orphaned && b.status != PendingDelete) then Err(WrongStatus)
      else if b.status == Orphaned && b.HasStaging() then Err(WrongStatus)
      else Ok(l.(blobs := l.blobs[id := b.(status := PendingDelete)],
                 jobs := l.jobs[id := Reopened(l, id, b.storagePath, now).(storagePath := b.storagePath)]))
  }

  // ------------------------------------------------------------------- quota

  function UpdateMax(l: Ledger, max: nat): Result {
    if l.quota.used <= max && l.quota.reserved <= max && l.quota.used + l.quota.reserved <= max
    then Ok(l.(quota := l.quota.(max := max)))
    else Err(BelowUsage)
  }

  function MarkReconciled(l: Ledger, at: Option<Time>): Ledger {
    l.(quota := l.quota.(reconciledAt := at))
  }
}
