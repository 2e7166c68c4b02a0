/**
  Leases over whole runs: a lease on a cleanup job excludes every other worker, and a lease
  on a staging row keeps expiry away, until it runs out, whatever the other clients do.
 */
module ProtocolLeases {
  import opened Common
  import opened LedgerTransactions
  import opened LedgerInvariant
  import opened BooksKept
  import opened FolderPaths
  import opened Metadata
  import opened BinGroups
  import opened Protocol
  import opened ProtocolInvariant
  import opened ProtocolSteps
  import opened ProtocolPublish
  import opened ProtocolRuns
  import opened ProtocolGuarantees
  import opened ProtocolRows

  // ------------------------------------------------------------- staging leases

  /** While the blob is staging, its lease runs at least to `until`. */
  predicate LeasedTo(l: Ledger, b: Id, until: Time) {
    b in l.blobs && l.blobs[b].status == Staging ==> l.blobs[b].lease.Some? && l.blobs[b].lease.value >= until
  }

  /** A heartbeat of the owner's that shortens the lease. */
  predicate Shortens(a: Action, b: Id, until: Time) {
    match a
    case Uploading(HeartbeatA(ids, u)) => b in ids && u < until
    case _ => false
  }

  lemma HeartbeatLeased(s: State, ids: set<Id>, u: Time, b: Id, until: Time)
    requires LeasedTo(s.db.ledger, b, until) && !(b in ids && u < until)
    ensures LeasedTo(Heartbeat(s, ids, u).db.ledger, b, until)
  {
    HeartbeatKept(s, ids, u, b);
  }

  lemma StageLeased(s: State, a: StageAction, b: Id, until: Time)
    requires b in s.issued && LeasedTo(s.db.ledger, b, until) && !Shortens(Uploading(a), b, until)
    ensures LeasedTo(NextStage(s, a).db.ledger, b, until)
  {
    match a
    case HeartbeatA(ids, u) => HeartbeatLeased(s, ids, u, b, until);
    case _ => StageKept(s, a, b);
  }

  lemma LeasedStep(s: State, a: Action, b: Id, until: Time)
    requires Inv(s) && b in s.issued && LeasedTo(s.db.ledger, b, until) && !Shortens(a, b, until)
    ensures LeasedTo(Next(s, a).db.ledger, b, until)
  {
    match a
    case Uploading(x) => StageLeased(s, x, b, until);
    case Publishing(x) => PublishingKept(s, x, b);
    case Working(x) => WorkerRowKept(s, x, b);
    case Reconciling(x) => ReconcileKept(s, x, b);
    case Serving(x) => MetadataKept(s, x, b);
  }

  lemma {:induction false} LeasedRun(s: State, actions: seq<Action>, b: Id, until: Time)
    requires Inv(s) && b in s.issued && LeasedTo(s.db.ledger, b, until)
    requires forall a :: a in actions ==> !Shortens(a, b, until)
    ensures LeasedTo(Run(s, actions).db.ledger, b, until)
    decreases |actions|
  {
    if actions != [] {
      assert actions[0] in actions;
      LeasedStep(s, actions[0], b, until);
      NextOk(s, actions[0]);
      LeasedRun(Next(s, actions[0]), actions[1..], b, until);
    }
  }

  /** Once a staging row is leased to `until`, no expiry before then ever takes it, however
      old it is and whatever happens in between, as long as no heartbeat shortens the lease. */
  lemma LeaseKeepsExpiryAway(s: State, actions: seq<Action>, b: Id, until: Time, ids: set<Id>, before: Time, now: Time)
    requires Reachable(s) && b in s.issued && LeasedTo(s.db.ledger, b, until)
    requires forall a :: a in actions ==> !Shortens(a, b, until)
    requires b in ids && now < until
    ensures ExpireStaging(Run(s, actions), ids, before, now) == Run(s, actions)
  {
    ReachableOk(s);
    LeasedRun(s, actions, b, until);
  }

  /** What starts such a lease. */
  lemma HeartbeatStartsLease(s: State, ids: set<Id>, until: Time, b: Id)
    requires Reachable(s) && RenewLease(s.db.ledger, ids, until).Ok? && b in ids
    ensures b in s.issued && b in s.db.ledger.blobs && LeasedTo(Heartbeat(s, ids, until).db.ledger, b, until)
  {
    ReachableOk(s);
    assert BlobOk(s, b);
  }

  predicate HasRow(l: Ledger, b: Id, row: Blob) { b in l.blobs && l.blobs[b] == row }

  lemma {:induction false} CreatedLeased(l: Ledger, rows: seq<NewBlob>, now: Time, until: Time)
    requires CreateAll(l, rows, now, until).Ok?
    ensures forall b :: b in l.blobs ==> b in CreateAll(l, rows, now, until).ledger.blobs
    ensures forall b :: b in l.blobs ==> CreateAll(l, rows, now, until).ledger.blobs[b] == l.blobs[b]
    ensures forall r :: r in rows ==> HasRow(CreateAll(l, rows, now, until).ledger, r.id, StagingRow(r, now, until))
    decreases |rows|
  {
    if rows != [] { CreatedLeased(CreateOne(l, rows[0], now, until).ledger, rows[1..], now, until); }
  }

  lemma {:induction false} RowOfDraft(ds: seq<Draft>, d: Draft)
    requires d in ds
    ensures NewRow(d) in NewRows(ds)
  {
    if ds[0] != d { RowOfDraft(ds[1..], d); }
  }

  /** A row is leased from its insert on, its age counts from there, and it reserves the declared
      size, but at least one byte of it. */
  lemma StagingStartsLease(s: State, q: Id, ds: seq<Draft>, now: Time, until: Time, d: Draft)
    requires StageRows(s, q, ds, now, until) != s && d in ds
    ensures var l := StageRows(s, q, ds, now, until).db.ledger;
      && d.id in l.blobs && l.blobs[d.id].status == Staging && l.blobs[d.id].createdAt == now && LeasedTo(l, d.id, until)
      && l.blobs[d.id].storagePath == d.storagePath && l.blobs[d.id].stagingPath == Some(d.stagingPath)
      && l.blobs[d.id].size == match d.declared case None => 0 case Some(n) => if n == 0 then 1 else n
  {
    CreatedLeased(s.db.ledger, NewRows(ds), now, until);
    RowOfDraft(ds, d);
  }

  // ------------------------------------------------------------ cleanup leases

  /** While the blob lasts, its cleanup job is closed to others at least to `until`: leased
      to the holder, or, with no holder, waiting for its next try. */
  predicate ClosedTo(l: Ledger, job: Id, holder: Option<Id>, until: Time) {
    job in l.blobs ==> job in l.jobs && ShutTo(l.jobs[job], holder, until)
  }

  predicate ShutTo(j: Job, holder: Option<Id>, until: Time) {
    && j.owner == holder
    && if holder.Some? then j.ownedUntil.Some? && j.ownedUntil.value >= until else j.nextRetryAt >= until
  }

  /** What can open the job early: the holder itself, the clock, or the reconciler
      scheduling the blob anew. */
  predicate Yields(a: Action, job: Id, holder: Option<Id>, until: Time) {
    match a
    case Working(ClaimA(b, _, now, _)) => b == job && now >= until
    case Working(RenewClaimA(x, u)) => holder == Some(x) && u < until
    case Working(FailA(x, _)) => holder == Some(x)
    case Reconciling(ScheduleA(id, _)) => id == job
    case _ => false
  }

  lemma ClaimClosed(s: State, b: Id, token: Id, now: Time, u: Time, job: Id, holder: Option<Id>, until: Time)
    requires JobsOk(s.db.ledger) && ClosedTo(s.db.ledger, job, holder, until) && !(b == job && now >= until)
    ensures ClosedTo(ClaimJob(s, b, token, now, u).db.ledger, job, holder, until)
  {
  }

  lemma RenewClosed(s: State, x: Id, u: Time, job: Id, holder: Option<Id>, until: Time)
    requires ClosedTo(s.db.ledger, job, holder, until) && !(holder == Some(x) && u < until)
    ensures ClosedTo(RenewClaim(s, x, u).db.ledger, job, holder, until)
  {
  }

  lemma FailJobClosed(l: Ledger, id: Id, x: Id, retryAt: Time, job: Id, holder: Option<Id>, until: Time)
    requires ClosedTo(l, job, holder, until) && holder != Some(x) && FailJob(l, id, x, retryAt).Ok?
    ensures ClosedTo(FailJob(l, id, x, retryAt).ledger, job, holder, until)
  {
  }

  lemma FailClosed(s: State, x: Id, retryAt: Time, job: Id, holder: Option<Id>, until: Time)
    requires ClosedTo(s.db.ledger, job, holder, until) && holder != Some(x)
    ensures ClosedTo(Fail(s, x, retryAt).db.ledger, job, holder, until)
  {
    if x in s.workers && FailJob(s.db.ledger, s.workers[x].job, x, retryAt).Ok? {
      FailJobClosed(s.db.ledger, s.workers[x].job, x, retryAt, job, holder, until);
    }
  }

  lemma WorkerClosed(s: State, a: WorkerAction, job: Id, holder: Option<Id>, until: Time)
    requires JobsOk(s.db.ledger) && ClosedTo(s.db.ledger, job, holder, until) && !Yields(Working(a), job, holder, until)
    ensures ClosedTo(NextWorker(s, a).db.ledger, job, holder, until)
  {
    match a
    case ClaimA(b, token, now, u) => ClaimClosed(s, b, token, now, u, job, holder, until);
    case RenewClaimA(x, u) => RenewClosed(s, x, u, job, holder, until);
    case FailA(x, retryAt) => FailClosed(s, x, retryAt, job, holder, until);
    case CompleteA(x) => CompleteKept(s, x, job);
    case _ =>
  }

  lemma ClosedStep(s: State, a: Action, job: Id, holder: Option<Id>, until: Time)
    requires Inv(s) && job in s.issued && ClosedTo(s.db.ledger, job, holder, until) && !Yields(a, job, holder, until)
    ensures ClosedTo(Next(s, a).db.ledger, job, holder, until)
  {
    match a
    case Uploading(x) => StageKept(s, x, job);
    case Publishing(x) => PublishingKept(s, x, job);
    case Working(x) => WorkerClosed(s, x, job, holder, until);
    case Reconciling(x) => ReconcileKept(s, x, job);
    case Serving(x) => MetadataKept(s, x, job);
  }

  lemma {:induction false} ClosedRun(s: State, actions: seq<Action>, job: Id, holder: Option<Id>, until: Time)
    requires Inv(s) && job in s.issued && ClosedTo(s.db.ledger, job, holder, until)
    requires forall a :: a in actions ==> !Yields(a, job, holder, until)
    ensures ClosedTo(Run(s, actions).db.ledger, job, holder, until)
    decreases |actions|
  {
    if actions != [] {
      assert actions[0] in actions;
      ClosedStep(s, actions[0], job, holder, until);
      NextOk(s, actions[0]);
      ClosedRun(Next(s, actions[0]), actions[1..], job, holder, until);
    }
  }

  lemma OthersRefused(n: State, job: Id, holder: Option<Id>, until: Time, other: Id, now: Time, u: Time)
    requires JobsOk(n.db.ledger) && ClosedTo(n.db.ledger, job, holder, until) && now < until
    ensures ClaimJob(n, job, other, now, u) == n
  {
  }

  /** Once a job has been claimed, renewed or given back until a later try, no claim of it
      succeeds before then in any continuation, and a holder can still complete it, unless
      the holder gives it up or the reconciler schedules the blob anew. */
  lemma LeaseExcludesOthers(s: State, actions: seq<Action>, job: Id, holder: Option<Id>, until: Time, other: Id, now: Time, u: Time)
    requires Reachable(s) && job in s.issued && ClosedTo(s.db.ledger, job, holder, until)
    requires forall a :: a in actions ==> !Yields(a, job, holder, until)
    ensures var n := Run(s, actions);
      && (now < until ==> ClaimJob(n, job, other, now, u) == n)
      && (holder.Some? && job in n.db.ledger.blobs ==> CompleteJob(n.db.ledger, job, holder.value).Ok?)
  {
    var n := Run(s, actions);
    assert Inv(n) && ClosedTo(n.db.ledger, job, holder, until) by {
      ReachableOk(s);
      ClosedRun(s, actions, job, holder, until);
      RunOk(s, actions);
    }
    if now < until { OthersRefused(n, job, holder, until, other, now, u); }
    if holder.Some? { CompleteJobKeeps(n.db.ledger, Refs(n.db), job, holder.value); }
  }

  /** What closes a job: a claim to the end of its lease, a failure to the next try. */
  lemma ClaimStartsLease(s: State, job: Id, t: Id, now: Time, until: Time)
    requires Reachable(s) && FreshName(s, t) && Claim(s.db.ledger, job, t, now, until).Ok?
    ensures var n := ClaimJob(s, job, t, now, until);
      job in n.issued && job in n.db.ledger.blobs && ClosedTo(n.db.ledger, job, Some(t), until)
  {
    ReachableOk(s);
    assert BlobOk(s, job);
  }

  lemma FailureWaits(s: State, t: Id, retryAt: Time)
    requires Reachable(s) && t in s.workers && Owns(s.db.ledger, s.workers[t].job, t)
    ensures s.workers[t].job in s.issued && ClosedTo(Fail(s, t, retryAt).db.ledger, s.workers[t].job, None, retryAt)
  {
    ReachableOk(s);
    assert WorkerOk(s, t);
  }

  /** A renewal moves the end of the lease. */
  lemma RenewalStartsLease(s: State, t: Id, until: Time)
    requires Reachable(s) && t in s.workers && Owns(s.db.ledger, s.workers[t].job, t)
    ensures s.workers[t].job in s.issued && ClosedTo(RenewClaim(s, t, until).db.ledger, s.workers[t].job, Some(t), until)
  {
    ReachableOk(s);
    assert WorkerOk(s, t);
  }

  /** A failure counts one retry, and the job can be claimed again from the next try on. */
  lemma FailureRetries(s: State, t: Id, retryAt: Time, other: Id, now: Time, u: Time)
    requires Reachable(s) && t in s.workers && Owns(s.db.ledger, s.workers[t].job, t)
    ensures var job, l := s.workers[t].job, Fail(s, t, retryAt).db.ledger;
      && job in l.jobs && l.jobs[job].retries == s.db.ledger.jobs[job].retries + 1
      && (Claim(l, job, other, now, u).Ok? <==> now >= retryAt)
  {
  }

  /** The exception is real: scheduling a pending blob anew takes its job from any holder and
      opens it to the next claim at once. */
  lemma ScheduleEndsLease(s: State, job: Id, now: Time, other: Id, u: Time)
    requires Reachable(s) && job in s.db.ledger.blobs && s.db.ledger.blobs[job].status == PendingDelete
    ensures var l := Schedule(s, job, now).db.ledger;
      (forall t :: !Owns(l, job, t)) && Claim(l, job, other, now, u).Ok?
  {
    ReachableOk(s);
    assert RowOk(s.db.ledger, Refs(s.db), job);
  }
}
