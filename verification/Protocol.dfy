/**
  The whole system as interleaved clients: uploads, publishers, cleanup workers, the
  reconciler and the recycle-bin calls, over one database and one file store.

  Every database transaction is one atomic step. Everything a client does outside a
  transaction is a step of its own: each write and each delete of a file, the worker's
  unlocked read of the blob row, the reply to a commit. A client that crashes simply takes
  no further step. A step whose guard does not hold changes nothing.
 */
module Protocol {
  import opened Common
  import opened LedgerTransactions
  import opened LedgerInvariant
  import opened BooksKept
  import opened FolderPaths
  import opened Metadata
  import opened BinGroups

  // ------------------------------------------------------------------- clients

  datatype Stage = Writing | Written | Placed

  /** What an upload remembers about one blob it stages. `reserved` counts what the client
      knows to be reserved; `declared` is the size given up front, if any. */
  datatype Stager = Stager(
    request: Id,
    storagePath: Path,
    stagingPath: Path,
    declared: Option<nat>,
    reserved: nat,
    written: Option<nat>,
    stage: Stage)
  {
    function Limit(): nat { if declared.Some? then declared.value else reserved }

    /** The size the upload will publish; an unstaged entry still has none. */
    function Size(): nat { if stage == Placed && written.Some? then written.value else 0 }
  }

  datatype Outcome = Unknown | RolledBack | Committed | Acknowledged | LeaseLost

  datatype Phase =
    | Collecting                    // staging its blobs
    | Ready                         // staging returned without an error
    | Unsure                        // the publish transaction returned an error
    | Aborting
    | Finished(outcome: Outcome)

  /** One upload call. `committed` records what the database did, which the client may not know. */
  datatype Request = Request(phase: Phase, cancelled: bool, entries: seq<Id>, committed: bool)

  datatype WorkerStep = Claimed | Checked | Loaded | StagingGone | StagingKept | AllGone | Stopped

  /** One claim of one job, under its own token. `seen` is the unlocked read of the row. */
  datatype Worker = Worker(job: Id, step: WorkerStep, seen: Option<Blob>)

  /** A restore or permanent delete: the rows it read, then its commit. */
  datatype BinCall = BinCall(ids: seq<nat>, rows: seq<BinRow>, closed: bool)

  /** A reconciliation walk: files met, and those found unmanaged. */
  datatype Scan = Scan(found: map<Path, nat>, checked: set<Path>)

  datatype State = State(
    db: Db,
    files: map<Path, nat>,
    requests: map<Id, Request>,
    stagers: map<Id, Stager>,
    workers: map<Id, Worker>,
    calls: map<Id, BinCall>,
    scans: map<Id, Scan>,
    issued: set<Name>)              // every identifier and path handed out or seen so far

  function WithLedger(s: State, l: Ledger): State { s.(db := s.db.(ledger := l)) }

  /** A transaction on the ledger alone leaves the metadata tables as they are. */
  predicate SameTables(d: Db, n: Db) { n.objects == d.objects && n.bin == d.bin && n.buckets == d.buckets }

  // ------------------------------------------------------------------- staging

  datatype Draft = Draft(id: Id, storagePath: Path, stagingPath: Path, declared: Option<nat>)

  /** A declared empty file still reserves one byte; an undeclared one starts with none. */
  function FirstReservation(d: Draft): nat {
    if d.declared.None? then 0 else if d.declared.value == 0 then 1 else d.declared.value
  }

  function NewRow(d: Draft): NewBlob { NewBlob(d.id, d.storagePath, d.stagingPath, FirstReservation(d)) }

  function NewRows(ds: seq<Draft>): seq<NewBlob> {
    if ds == [] then [] else [NewRow(ds[0])] + NewRows(ds[1..])
  }

  /** Identifiers and paths come from fresh UUIDs. */
  predicate FreshName(s: State, n: Name) { n != Empty && n !in s.issued }

  predicate DraftFresh(s: State, d: Draft) {
    FreshName(s, d.id) && FreshName(s, d.storagePath) && FreshName(s, d.stagingPath) && d.storagePath != d.stagingPath
  }

  predicate DraftsApart(a: Draft, b: Draft) {
    a.id != b.id && a.storagePath != b.storagePath && a.storagePath != b.stagingPath
    && a.stagingPath != b.storagePath && a.stagingPath != b.stagingPath
  }

  predicate FreshDrafts(s: State, ds: seq<Draft>) {
    && (forall i :: 0 <= i < |ds| ==> DraftFresh(s, ds[i]))
    && (forall i, j :: 0 <= i < j < |ds| ==> DraftsApart(ds[i], ds[j]))
  }

  function NamesOf(ds: seq<Draft>): set<Name> {
    (set d | d in ds :: d.id) + (set d | d in ds :: d.storagePath) + (set d | d in ds :: d.stagingPath)
  }

  function NewStager(q: Id, d: Draft): Stager {
    Stager(q, d.storagePath, d.stagingPath, d.declared, 0, None, Writing)
  }

  function AddStagers(stagers: map<Id, Stager>, q: Id, ds: seq<Draft>): map<Id, Stager>
    decreases |ds|
  {
    if ds == [] then stagers else AddStagers(stagers[ds[0].id := NewStager(q, ds[0])], q, ds[1..])
  }

  function DraftIds(ds: seq<Draft>): seq<Id> {
    if ds == [] then [] else [ds[0].id] + DraftIds(ds[1..])
  }

  predicate InPhase(s: State, q: Id, p: Phase) { q in s.requests && s.requests[q].phase == p }

  function Open(s: State, q: Id): (n: State)
    ensures n == s.(requests := n.requests, issued := n.issued)
  {
    if !FreshName(s, q) then s
    else s.(requests := s.requests[q := Request(Collecting, false, [], false)], issued := s.issued + {q})
  }

  function Cancel(s: State, q: Id): (n: State)
    ensures n == s.(requests := n.requests)
  {
    if q !in s.requests then s else s.(requests := s.requests[q := s.requests[q].(cancelled := true)])
  }

  /** Stage (one draft, no declared size) and StageKnownBatch (declared sizes): insert the
      staging rows and their leases in one transaction. */
  function StageRows(s: State, q: Id, ds: seq<Draft>, now: Time, until: Time): (n: State)
    ensures n == s.(db := n.db, stagers := n.stagers, requests := n.requests, issued := n.issued)
    ensures SameTables(s.db, n.db)
  {
    if !InPhase(s, q, Collecting) || !FreshDrafts(s, ds) then s
    else match CreateAll(s.db.ledger, NewRows(ds), now, until)
      case Err(_) => s
      case Ok(l) => WithLedger(s, l).(
        stagers := AddStagers(s.stagers, q, ds),
        requests := s.requests[q := s.requests[q].(entries := s.requests[q].entries + DraftIds(ds))],
        issued := s.issued + NamesOf(ds))
  }

  function Heartbeat(s: State, ids: set<Id>, until: Time): (n: State)
    ensures n == s.(db := n.db)
    ensures SameTables(s.db, n.db)
  {
    match RenewLease(s.db.ledger, ids, until) case Err(_) => s case Ok(l) => WithLedger(s, l)
  }

  predicate StillStaging(s: State, b: Id) {
    b in s.stagers && InPhase(s, s.stagers[b].request, Collecting)
  }

  /** One reservation; the reply may be lost after the commit. */
  function ReserveMore(s: State, b: Id, bytes: nat, heard: bool): (n: State)
    ensures n == s.(db := n.db, stagers := n.stagers)
    ensures SameTables(s.db, n.db)
  {
    if !StillStaging(s, b) || s.stagers[b].stage == Placed then s
    else match Reserve(s.db.ledger, b, bytes)
      case Err(_) => s
      case Ok(l) =>
        if bytes == 0 || !heard then WithLedger(s, l)
        else WithLedger(s, l).(stagers := s.stagers[b := s.stagers[b].(reserved := s.stagers[b].reserved + bytes)])
  }

  /** Bring the staging file to `total` bytes, within what has been reserved. A file that
      was deleted under the writer stays unlinked. */
  function Write(s: State, b: Id, total: nat): (n: State)
    ensures n == s.(stagers := n.stagers, files := n.files, issued := n.issued)
  {
    if !StillStaging(s, b) || s.stagers[b].stage != Writing || total > s.stagers[b].Limit()
       || (s.stagers[b].written.Some? && total < s.stagers[b].written.value) then s
    else var st := s.stagers[b];
      s.(stagers := s.stagers[b := st.(written := Some(total))],
         files := if st.written.Some? && st.stagingPath !in s.files then s.files
                  else s.files[st.stagingPath := total],
         issued := s.issued + {st.stagingPath})
  }

  /** The writer reaches the end of its input. A declared size must have been met, and an
      empty undeclared file needs its one reserved byte. */
  function EndWrite(s: State, b: Id): (n: State)
    ensures n == s.(stagers := n.stagers)
  {
    if !StillStaging(s, b) || s.stagers[b].stage != Writing || s.stagers[b].written.None?
       || (s.stagers[b].declared.Some? && s.stagers[b].written != s.stagers[b].declared)
       || (s.stagers[b].declared.None? && s.stagers[b].reserved == 0) then s
    else s.(stagers := s.stagers[b := s.stagers[b].(stage := Written)])
  }

  /** Commit of the file store: an existing final file wins, else rename; the rename of a
      missing staging file fails. */
  function Place(s: State, b: Id): (n: State)
    ensures n == s.(stagers := n.stagers, files := n.files)
  {
    if !StillStaging(s, b) || s.stagers[b].stage != Written then s
    else var st := s.stagers[b];
      if st.storagePath in s.files then
        s.(files := s.files - {st.stagingPath}, stagers := s.stagers[b := st.(stage := Placed)])
      else if st.stagingPath !in s.files then s
      else s.(files := (s.files - {st.stagingPath})[st.storagePath := s.files[st.stagingPath]],
              stagers := s.stagers[b := st.(stage := Placed)])
  }

  /** Staging returns without an error: every entry is placed, or, for a batch whose
      request was cancelled, some entries may be left unstaged. */
  function Return(s: State, q: Id): (n: State)
    ensures n == s.(requests := n.requests)
  {
    if !InPhase(s, q, Collecting)
       || !(s.requests[q].cancelled
            || forall b :: b in s.requests[q].entries ==> b in s.stagers && s.stagers[b].stage == Placed) then s
    else s.(requests := s.requests[q := s.requests[q].(phase := Ready)])
  }

  // ---------------------------------------------------------------- publishing

  function UploadItems(s: State, entries: seq<Id>, keys: seq<Key>, attrs: seq<Attrs>): seq<Item>
    requires |keys| == |attrs| == |entries|
    requires forall b :: b in entries ==> b in s.stagers
    decreases |entries|
  {
    if entries == [] then []
    else var st := s.stagers[entries[0]];
      [Item(keys[0], Activation(entries[0], st.Size()), File(st.storagePath, st.Size(), attrs[0]))]
      + UploadItems(s, entries[1..], keys[1..], attrs[1..])
  }

  /** Uploads have validated their keys. */
  predicate ProperKeys(keys: seq<Key>) { forall k :: k in keys ==> ProperKey(k.key) }

  predicate CanPublish(s: State, q: Id, keys: seq<Key>, attrs: seq<Attrs>) {
    && InPhase(s, q, Ready) && !s.requests[q].cancelled
    && |keys| == |s.requests[q].entries| && |attrs| == |keys| && Distinct(keys) && ProperKeys(keys)
    && forall b :: b in s.requests[q].entries ==> b in s.stagers
  }

  /** The publish transaction, which a cancelled request cannot open. It commits or rolls
      back; the reply to a commit may be lost. */
  function PublishUpload(s: State, q: Id, keys: seq<Key>, attrs: seq<Attrs>, overwrite: bool, now: Time, heard: bool): (n: State)
    ensures n == s.(db := n.db, requests := n.requests)
  {
    if !CanPublish(s, q, keys, attrs) then s
    else match Publish(s.db, UploadItems(s, s.requests[q].entries, keys, attrs), overwrite, now)
      case Failed(_) => s.(requests := s.requests[q := s.requests[q].(phase := Unsure)])
      case Done(d) => s.(db := d, requests := s.requests[q := s.requests[q].(
          committed := true, phase := if heard then Finished(Acknowledged) else Unsure)])
  }

  /** The publish transaction is lost without committing, for whatever reason. */
  function PublishLost(s: State, q: Id): (n: State)
    ensures n == s.(requests := n.requests)
  {
    if !InPhase(s, q, Ready) then s
    else s.(requests := s.requests[q := s.requests[q].(phase := Unsure)])
  }

  function LoseLease(s: State, q: Id): (n: State)
    ensures n == s.(requests := n.requests)
  {
    if !InPhase(s, q, Ready) then s
    else s.(requests := s.requests[q := s.requests[q].(phase := Finished(LeaseLost))])
  }

  predicate SeenCommitted(s: State, b: Id) {
    b in s.stagers && b in s.db.ledger.blobs &&
    var blob := s.db.ledger.blobs[b];
    blob.status == Active && blob.storagePath == s.stagers[b].storagePath
    && blob.size == s.stagers[b].Size() && blob.refCount == 1 && blob.stagingPath.None?
  }

  predicate SeenRolledBack(s: State, b: Id) {
    b in s.stagers && b in s.db.ledger.blobs &&
    var blob := s.db.ledger.blobs[b];
    blob.status == Staging && blob.storagePath == s.stagers[b].storagePath
    && blob.stagingPath == Some(s.stagers[b].stagingPath) && blob.refCount == 0
  }

  function Report(s: State, q: Id, o: Outcome, heard: bool): State
    requires q in s.requests
  {
    s.(requests := s.requests[q := s.requests[q].(phase := Finished(if heard then o else Unknown))])
  }

  function Entries(s: State, q: Id): set<Id>
    requires q in s.requests
  {
    set b | b in s.requests[q].entries
  }

  predicate AllCommitted(s: State, q: Id)
    requires q in s.requests
  {
    forall b :: b in s.requests[q].entries ==> SeenCommitted(s, b)
  }

  predicate AllRolledBack(s: State, q: Id)
    requires q in s.requests
  {
    forall b :: b in s.requests[q].entries ==> SeenRolledBack(s, b)
  }

  /** How a confirmation ends for its client: its reply arrives; it commits and the reply is
      lost; or it fails before its commit and is rolled back. */
  datatype Reply = Answered | Unanswered | Broken

  /** confirmPublishOutcome: decide what the lost transaction did, from all rows at once. Any
      error of the confirmation itself is reported as unknown. */
  function Confirm(s: State, q: Id, now: Time, reply: Reply): (n: State)
    ensures n == s.(db := n.db, requests := n.requests)
    ensures SameTables(s.db, n.db)
  {
    if !InPhase(s, q, Unsure) then s
    else if reply == Broken || s.requests[q].entries == [] then Report(s, q, Unknown, reply == Answered)
    else if AllCommitted(s, q) then Report(s, q, Committed, reply == Answered)
    else if AllRolledBack(s, q) then
      match SealWithJobs(s.db.ledger, Entries(s, q), now)
      case Err(_) => Report(s, q, Unknown, reply == Answered)
      case Ok(l) => Report(WithLedger(s, l), q, RolledBack, reply == Answered)
    else Report(s, q, Unknown, reply == Answered)
  }

  // ------------------------------------------------------------------ aborting

  function StartAbort(s: State, q: Id): (n: State)
    ensures n == s.(requests := n.requests)
  {
    if !InPhase(s, q, Collecting) then s
    else s.(requests := s.requests[q := s.requests[q].(phase := Aborting)])
  }

  predicate GivenUp(s: State, b: Id) {
    b in s.stagers && InPhase(s, s.stagers[b].request, Aborting)
  }

  function AbortDelete(s: State, b: Id, staging: bool): (n: State)
    ensures n == s.(files := n.files)
  {
    if !GivenUp(s, b) then s
    else s.(files := s.files - {if staging then s.stagers[b].stagingPath else s.stagers[b].storagePath})
  }

  predicate Cleared(s: State, b: Id) {
    GivenUp(s, b) && s.stagers[b].storagePath !in s.files && s.stagers[b].stagingPath !in s.files
  }

  /** Blobs whose two deletes succeeded are released together. */
  function AbortRelease(s: State, ids: seq<Id>): (n: State)
    ensures n == s.(db := n.db)
    ensures SameTables(s.db, n.db)
  {
    if !(forall b :: b in ids ==> Cleared(s, b)) then s
    else match ReleaseStagingAll(s.db.ledger, ids) case Err(_) => s case Ok(l) => WithLedger(s, l)
  }

  /** The others get a cleanup job and keep their staging row. */
  function AbortEnqueue(s: State, ids: set<Id>, now: Time): (n: State)
    ensures n == s.(db := n.db)
    ensures SameTables(s.db, n.db)
  {
    if !(forall b :: b in ids ==> GivenUp(s, b)) then s
    else match Enqueue(s.db.ledger, map b | b in ids && b in s.stagers :: s.stagers[b].storagePath, now)
      case Err(_) => s
      case Ok(l) => WithLedger(s, l)
  }

  // ------------------------------------------------------------------- workers

  function ExpireStaging(s: State, ids: set<Id>, before: Time, now: Time): (n: State)
    ensures n == s.(db := n.db)
    ensures SameTables(s.db, n.db)
  {
    match Expire(s.db.ledger, ids, before, now) case Err(_) => s case Ok(l) => WithLedger(s, l)
  }

  /** Each claim uses a fresh token. */
  function ClaimJob(s: State, b: Id, token: Id, now: Time, until: Time): (n: State)
    ensures n == s.(db := n.db, workers := n.workers, issued := n.issued)
    ensures SameTables(s.db, n.db)
    ensures n.db.ledger.blobs == s.db.ledger.blobs
  {
    if !FreshName(s, token) then s
    else match Claim(s.db.ledger, b, token, now, until)
      case Err(_) => s
      case Ok(l) => WithLedger(s, l).(
        workers := s.workers[token := Worker(b, Claimed, None)], issued := s.issued + {token})
  }

  predicate AtStep(s: State, t: Id, step: WorkerStep) { t in s.workers && s.workers[t].step == step }

  function Advance(s: State, t: Id, step: WorkerStep): State
    requires t in s.workers
  {
    s.(workers := s.workers[t := s.workers[t].(step := step)])
  }

  function RenewClaim(s: State, t: Id, until: Time): (n: State)
    ensures n == s.(db := n.db)
    ensures SameTables(s.db, n.db)
    ensures n.db.ledger.blobs == s.db.ledger.blobs
  {
    if t !in s.workers then s
    else match RenewJob(s.db.ledger, s.workers[t].job, t, until) case Err(_) => s case Ok(l) => WithLedger(s, l)
  }

  /** FindClaimedCleanupJob: the lease is still this worker's. */
  function CheckClaim(s: State, t: Id): (n: State)
    ensures n == s.(workers := n.workers)
    ensures n.db == s.db
  {
    if !AtStep(s, t, Claimed) then s
    else if Owns(s.db.ledger, s.workers[t].job, t) then Advance(s, t, Checked)
    else Advance(s, t, Stopped)
  }

  /** FindByID, without a lock; a referenced blob is refused. */
  function LoadBlob(s: State, t: Id): (n: State)
    ensures n == s.(workers := n.workers)
    ensures n.db == s.db
  {
    if !AtStep(s, t, Checked) then s
    else var b := s.workers[t].job;
      if b !in s.db.ledger.blobs then Advance(s, t, Stopped)
      else if s.db.ledger.blobs[b].status == Active || s.db.ledger.blobs[b].refCount != 0 then Advance(s, t, Stopped)
      else s.(workers := s.workers[t := Worker(b, Loaded, Some(s.db.ledger.blobs[b]))])
  }

  function DeleteStagingFile(s: State, t: Id): (n: State)
    ensures n == s.(files := n.files, workers := n.workers)
    ensures n.db == s.db
  {
    if !AtStep(s, t, Loaded) || s.workers[t].seen.None? then s
    else var blob := s.workers[t].seen.value;
      if blob.HasStaging() && blob.stagingPath.value != blob.storagePath
      then Advance(s.(files := s.files - {blob.stagingPath.value}), t, StagingGone)
      else Advance(s, t, StagingGone)
  }

  /** The delete of the staging file failed; the final file is still tried. */
  function KeepStagingFile(s: State, t: Id): (n: State)
    ensures n == s.(workers := n.workers)
    ensures n.db == s.db
  {
    if !AtStep(s, t, Loaded) then s else Advance(s, t, StagingKept)
  }

  function DeleteStorageFile(s: State, t: Id): (n: State)
    ensures n == s.(files := n.files, workers := n.workers)
    ensures n.db == s.db
  {
    if !(AtStep(s, t, StagingGone) || AtStep(s, t, StagingKept)) || s.workers[t].seen.None? then s
    else Advance(s.(files := s.files - {s.workers[t].seen.value.storagePath}), t,
                 if s.workers[t].step == StagingGone then AllGone else StagingKept)
  }

  function Complete(s: State, t: Id): (n: State)
    ensures n == s.(db := n.db, workers := n.workers)
    ensures SameTables(s.db, n.db)
  {
    if !AtStep(s, t, AllGone) then s
    else match CompleteJob(s.db.ledger, s.workers[t].job, t)
      case Err(_) => Advance(s, t, Stopped)
      case Ok(l) => Advance(WithLedger(s, l), t, Stopped)
  }

  /** A delete failed: give the lease back and retry later. */
  function Fail(s: State, t: Id, retryAt: Time): (n: State)
    ensures n == s.(db := n.db, workers := n.workers)
    ensures SameTables(s.db, n.db)
    ensures n.db.ledger.blobs == s.db.ledger.blobs
  {
    if t !in s.workers then s
    else match FailJob(s.db.ledger, s.workers[t].job, t, retryAt)
      case Err(_) => Advance(s, t, Stopped)
      case Ok(l) => Advance(WithLedger(s, l), t, Stopped)
  }

  // ---------------------------------------------------------------- reconciler

  function See(s: State, scan: Id, path: Path): (n: State)
    ensures n == s.(scans := n.scans)
  {
    if path !in s.files then s
    else var sc := if scan in s.scans then s.scans[scan] else Scan(map[], {});
      s.(scans := s.scans[scan := sc.(found := sc.found[path := s.files[path]])])
  }

  predicate ManagedNow(s: State, path: Path) {
    exists b :: b in s.db.ledger.blobs
      && (s.db.ledger.blobs[b].storagePath == path || s.db.ledger.blobs[b].stagingPath == Some(path))
  }

  function CheckPath(s: State, scan: Id, path: Path): (n: State)
    ensures n == s.(scans := n.scans)
  {
    if scan !in s.scans || path !in s.scans[scan].found || ManagedNow(s, path) then s
    else s.(scans := s.scans[scan := s.scans[scan].(checked := s.scans[scan].checked + {path})])
  }

  function Register(s: State, scan: Id, path: Path, id: Id, now: Time): (n: State)
    ensures n == s.(db := n.db, issued := n.issued)
    ensures SameTables(s.db, n.db)
  {
    if scan !in s.scans || path !in s.scans[scan].checked || path !in s.scans[scan].found || path == Empty
       || !FreshName(s, id) then s
    else match RegisterOrphan(s.db.ledger, id, path, s.scans[scan].found[path], now)
      case Err(_) => s
      case Ok(l) => WithLedger(s, l).(issued := s.issued + {id})
  }

  function Schedule(s: State, id: Id, now: Time): (n: State)
    ensures n == s.(db := n.db)
    ensures SameTables(s.db, n.db)
  {
    match ScheduleOrphan(s.db.ledger, id, now) case Err(_) => s case Ok(l) => WithLedger(s, l)
  }

  function Mark(s: State, at: Option<Time>): (n: State)
    ensures n == s.(db := n.db)
  {
    WithLedger(s, MarkReconciled(s.db.ledger, at))
  }

  function SetMax(s: State, max: nat): (n: State)
    ensures n == s.(db := n.db)
    ensures SameTables(s.db, n.db)
  {
    if max > MAX_U64 then s
    else match UpdateMax(s.db.ledger, max) case Err(_) => s case Ok(l) => WithLedger(s, l)
  }

  // ------------------------------------------------------------------ metadata

  function CreateBucket(s: State, bucket: string): (n: State)
    ensures n == s.(db := n.db)
    ensures n.db.ledger == s.db.ledger
  {
    s.(db := s.db.(buckets := s.db.buckets + {bucket}))
  }

  function OnDb(s: State, r: DbResult): State {
    match r case Failed(_) => s case Done(d) => s.(db := d)
  }

  function RecycleObject(s: State, key: Key, group: Id, at: Time): (n: State)
    ensures n == s.(db := n.db, issued := n.issued)
    ensures n.db.ledger == s.db.ledger
  {
    if !FreshName(s, group) then s
    else OnDb(s, DeleteObject(s.db, key, group, at)).(issued := s.issued + {group})
  }

  function RecycleFolder(s: State, bucket: string, folder: string, keys: seq<Key>, group: Id, at: Time): (n: State)
    ensures n == s.(db := n.db, issued := n.issued)
    ensures n.db.ledger == s.db.ledger
  {
    if !FreshName(s, group) || !IsFolder(folder) || !ListsFolder(s.db.objects, keys, bucket, folder) then s
    else OnDb(s, DeleteFolder(s.db, bucket, folder, keys, group, at)).(issued := s.issued + {group})
  }

  predicate ListsBucket(d: Db, bucket: string, keys: seq<Key>, ids: seq<nat>) {
    && Distinct(keys) && Distinct(ids)
    && (forall k :: k in keys ==> k in d.objects && k.bucket == bucket)
    && (forall k :: k in d.objects && k.bucket == bucket ==> k in keys)
    && (forall i :: i in ids ==> i in d.bin && d.bin[i].key.bucket == bucket)
    && (forall i :: i in d.bin && d.bin[i].key.bucket == bucket ==> i in ids)
  }

  function DeleteBucket(s: State, bucket: string, keys: seq<Key>, ids: seq<nat>, now: Time): (n: State)
    ensures n == s.(db := n.db)
  {
    if !ListsBucket(s.db, bucket, keys, ids) then s
    else OnDb(s, DropBucket(s.db, bucket, keys, ids, now))
  }

  /** loadRecycleBinActionItems: the item alone, or the whole group of a marker. */
  predicate ActionItems(bin: map<nat, BinRow>, item: nat, ids: seq<nat>) {
    && item in bin && Distinct(ids)
    && (forall i :: i in ids ==> i in bin)
    && if IsMarkerRow(bin[item])
       then (forall j :: j in ids ==> Together(bin[item], bin[j]))
            && (forall j :: j in bin && Together(bin[item], bin[j]) ==> j in ids)
       else ids == [item]
  }

  /** The reads of a restore or permanent delete. */
  function ReadBin(s: State, call: Id, item: nat, ids: seq<nat>): (n: State)
    ensures n == s.(calls := n.calls)
    ensures n.db.ledger == s.db.ledger
  {
    if call in s.calls || !ActionItems(s.db.bin, item, ids) then s
    else s.(calls := s.calls[call := BinCall(ids, RowsAt(s.db.bin, ids), false)])
  }

  function CloseCall(s: State, call: Id): State
    requires call in s.calls
  {
    s.(calls := s.calls[call := s.calls[call].(closed := true)])
  }

  predicate CallOpen(s: State, call: Id) { call in s.calls && !s.calls[call].closed }

  function CommitRestore(s: State, call: Id): (n: State)
    ensures n == s.(db := n.db, calls := n.calls)
    ensures n.db.ledger == s.db.ledger
  {
    if !CallOpen(s, call) then s
    else CloseCall(OnDb(s, Restore(s.db, s.calls[call].ids, s.calls[call].rows)), call)
  }

  function CommitPurge(s: State, call: Id, now: Time): (n: State)
    ensures n == s.(db := n.db, calls := n.calls)
  {
    if !CallOpen(s, call) then s
    else CloseCall(OnDb(s, Purge(s.db, s.calls[call].ids, s.calls[call].rows, now)), call)
  }

  // ---------------------------------------------------------------------- runs

  /** An upload that stages its blobs. */
  datatype StageAction =
    | OpenA(q: Id)
    | CancelA(q: Id)
    | StageRowsA(q: Id, drafts: seq<Draft>, now: Time, until: Time)
    | HeartbeatA(ids: set<Id>, until: Time)
    | ReserveA(b: Id, bytes: nat, heard: bool)
    | WriteA(b: Id, total: nat)
    | EndWriteA(b: Id)
    | PlaceA(b: Id)
    | ReturnA(q: Id)

  function NextStage(s: State, a: StageAction): State {
    match a
    case OpenA(q) => Open(s, q)
    case CancelA(q) => Cancel(s, q)
    case StageRowsA(q, ds, now, until) => StageRows(s, q, ds, now, until)
    case HeartbeatA(ids, until) => Heartbeat(s, ids, until)
    case ReserveA(b, bytes, heard) => ReserveMore(s, b, bytes, heard)
    case WriteA(b, total) => Write(s, b, total)
    case EndWriteA(b) => EndWrite(s, b)
    case PlaceA(b) => Place(s, b)
    case ReturnA(q) => Return(s, q)
  }

  /** A publisher, a failed upload, and the expiry of abandoned rows. */
  datatype PublishAction =
    | PublishA(q: Id, keys: seq<Key>, attrs: seq<Attrs>, overwrite: bool, now: Time, heard: bool)
    | PublishLostA(q: Id)
    | LoseLeaseA(q: Id)
    | ConfirmA(q: Id, now: Time, reply: Reply)
    | StartAbortA(q: Id)
    | AbortDeleteA(b: Id, staging: bool)
    | AbortReleaseA(released: seq<Id>)
    | AbortEnqueueA(ids: set<Id>, now: Time)
    | ExpireA(ids: set<Id>, before: Time, now: Time)

  function NextPublish(s: State, a: PublishAction): State {
    match a
    case PublishA(q, keys, attrs, overwrite, now, heard) => PublishUpload(s, q, keys, attrs, overwrite, now, heard)
    case PublishLostA(q) => PublishLost(s, q)
    case LoseLeaseA(q) => LoseLease(s, q)
    case ConfirmA(q, now, reply) => Confirm(s, q, now, reply)
    case StartAbortA(q) => StartAbort(s, q)
    case AbortDeleteA(b, staging) => AbortDelete(s, b, staging)
    case AbortReleaseA(ids) => AbortRelease(s, ids)
    case AbortEnqueueA(ids, now) => AbortEnqueue(s, ids, now)
    case ExpireA(ids, before, now) => ExpireStaging(s, ids, before, now)
  }

  /** A cleanup worker. */
  datatype WorkerAction =
    | ClaimA(b: Id, token: Id, now: Time, until: Time)
    | RenewClaimA(token: Id, until: Time)
    | CheckClaimA(token: Id)
    | LoadBlobA(token: Id)
    | DeleteStagingA(token: Id)
    | KeepStagingA(token: Id)
    | DeleteStorageA(token: Id)
    | CompleteA(token: Id)
    | FailA(token: Id, retryAt: Time)

  function NextWorker(s: State, a: WorkerAction): State {
    match a
    case ClaimA(b, t, now, until) => ClaimJob(s, b, t, now, until)
    case RenewClaimA(t, until) => RenewClaim(s, t, until)
    case CheckClaimA(t) => CheckClaim(s, t)
    case LoadBlobA(t) => LoadBlob(s, t)
    case DeleteStagingA(t) => DeleteStagingFile(s, t)
    case KeepStagingA(t) => KeepStagingFile(s, t)
    case DeleteStorageA(t) => DeleteStorageFile(s, t)
    case CompleteA(t) => Complete(s, t)
    case FailA(t, retryAt) => Fail(s, t, retryAt)
  }

  /** The reconciler, and the quota setting. */
  datatype ReconcileAction =
    | SeeA(scan: Id, path: Path)
    | CheckPathA(scan: Id, path: Path)
    | RegisterA(scan: Id, path: Path, id: Id, now: Time)
    | ScheduleA(id: Id, now: Time)
    | MarkA(at: Option<Time>)
    | SetMaxA(max: nat)

  function NextReconcile(s: State, a: ReconcileAction): State {
    match a
    case SeeA(scan, path) => See(s, scan, path)
    case CheckPathA(scan, path) => CheckPath(s, scan, path)
    case RegisterA(scan, path, id, now) => Register(s, scan, path, id, now)
    case ScheduleA(id, now) => Schedule(s, id, now)
    case MarkA(at) => Mark(s, at)
    case SetMaxA(max) => SetMax(s, max)
  }

  /** Metadata calls. */
  datatype MetadataAction =
    | CreateBucketA(bucket: string)
    | RecycleObjectA(key: Key, group: Id, at: Time)
    | RecycleFolderA(bucket: string, folder: string, keys: seq<Key>, group: Id, at: Time)
    | DeleteBucketA(bucket: string, keys: seq<Key>, rowIds: seq<nat>, now: Time)
    | ReadBinA(call: Id, item: nat, rowIds: seq<nat>)
    | RestoreA(call: Id)
    | PurgeA(call: Id, now: Time)

  function NextMetadata(s: State, a: MetadataAction): State {
    match a
    case CreateBucketA(bucket) => CreateBucket(s, bucket)
    case RecycleObjectA(key, group, at) => RecycleObject(s, key, group, at)
    case RecycleFolderA(bucket, folder, keys, group, at) => RecycleFolder(s, bucket, folder, keys, group, at)
    case DeleteBucketA(bucket, keys, ids, now) => DeleteBucket(s, bucket, keys, ids, now)
    case ReadBinA(call, item, ids) => ReadBin(s, call, item, ids)
    case RestoreA(call) => CommitRestore(s, call)
    case PurgeA(call, now) => CommitPurge(s, call, now)
  }

  datatype Action =
    | Uploading(uploading: StageAction)
    | Publishing(publishing: PublishAction)
    | Working(work: WorkerAction)
    | Reconciling(reconciling: ReconcileAction)
    | Serving(serving: MetadataAction)

  function Next(s: State, a: Action): State {
    match a
    case Uploading(x) => NextStage(s, x)
    case Publishing(x) => NextPublish(s, x)
    case Working(x) => NextWorker(s, x)
    case Reconciling(x) => NextReconcile(s, x)
    case Serving(x) => NextMetadata(s, x)
  }

  function Run(s: State, actions: seq<Action>): State
    decreases |actions|
  {
    if actions == [] then s else Run(Next(s, actions[0]), actions[1..])
  }

  /** An empty database over any file store. */
  predicate Init(s: State) {
    && s.db.ledger == Ledger(Quota(0, 0, s.db.ledger.quota.max, None), map[], map[])
    && s.db.ledger.quota.max <= MAX_U64
    && s.db.objects == map[] && s.db.bin == map[]
    && s.requests == map[] && s.stagers == map[] && s.workers == map[] && s.calls == map[] && s.scans == map[]
    && (forall p :: p in s.files ==> p in s.issued)
  }
}
