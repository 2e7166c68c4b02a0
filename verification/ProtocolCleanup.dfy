/**
  What cleanup workers leave behind: nothing, now or later, with one exception that is stated
  exactly.
 */
module ProtocolCleanup {
  import opened Common
  import opened LedgerTransactions
  import opened Protocol
  import opened ProtocolInvariant
  import opened ProtocolRuns
  import opened ProtocolGuarantees
  import opened ProtocolFiles

  // ------------------------------------------------------- what a worker cleans up

  /** Neither file of the blob is there. */
  predicate Gone(s: State, b: Blob) {
    b.storagePath !in s.files && (b.HasStaging() ==> b.stagingPath.value !in s.files)
  }

  /** No upload can bring either of them back. */
  ghost predicate GoneForGood(s: State, b: Blob) {
    && Gone(s, b) && NoWriter(s, b.storagePath)
    && (b.HasStaging() ==> NoWriter(s, b.stagingPath.value))
  }

  /** A worker that has read its row makes sure of one file after the other. */
  ghost predicate CleansUp(s: State, t: Id, b: Blob) {
    && t in s.workers && s.workers[t].seen == Some(b)
    && (if b.HasStaging() then NoWriter(s, b.stagingPath.value) else NoWriter(s, b.storagePath))
    && match s.workers[t].step
       case Claimed => false
       case Checked => false
       case StagingGone => b.HasStaging() ==> b.stagingPath.value !in s.files
       case AllGone => GoneForGood(s, b)
       case _ => true
  }

  /** Once the staging file of an upload is gone for good, the upload has no file to place. */
  lemma NothingToPlace(s: State, t: Id)
    requires Inv(s) && Traced(s) && t in s.workers && s.workers[t].seen.Some? && s.workers[t].seen.value.HasStaging()
    requires var p := s.workers[t].seen.value.stagingPath.value; p !in s.files && NoWriter(s, p)
    ensures NoWriter(s, s.workers[t].seen.value.storagePath)
  {
    var w := s.workers[t];
    assert SeenTraced(s, w);
    forall x | x in s.stagers ensures CannotWrite(s, x, w.seen.value.storagePath) {
      assert CannotWrite(s, x, w.seen.value.stagingPath.value) && StagerOk(s, x);
      if x != w.job { assert StagersApart(s.stagers[x], s.stagers[w.job]); }
    }
  }

  lemma DeletesStagingOk(s: State, t: Id, b: Blob)
    requires Inv(s) && Traced(s) && CleansUp(s, t, b) && s.workers[t].step == Loaded
    ensures CleansUp(DeleteStagingFile(s, t), t, b)
  {
    var n := DeleteStagingFile(s, t);
    PathsDiffer(s, t);
    DeletesStaging(s, t, b);
    CalmerQuiet(s, n, if b.HasStaging() then b.stagingPath.value else b.storagePath);
  }

  lemma PathsDiffer(s: State, t: Id)
    requires Inv(s) && Traced(s) && t in s.workers && s.workers[t].seen.Some?
    ensures s.workers[t].seen.value.HasStaging() ==> s.workers[t].seen.value.stagingPath.value != s.workers[t].seen.value.storagePath
  {
    assert SeenTraced(s, s.workers[t]);
    if s.workers[t].job in s.stagers { assert StagerOk(s, s.workers[t].job); }
  }

  lemma DeletesStorageOk(s: State, t: Id, b: Blob)
    requires Inv(s) && Traced(s) && CleansUp(s, t, b) && (s.workers[t].step == StagingGone || s.workers[t].step == StagingKept)
    ensures CleansUp(DeleteStorageFile(s, t), t, b)
  {
    var n := DeleteStorageFile(s, t);
    if b.HasStaging() {
      if s.workers[t].step == StagingGone {
        NothingToPlace(s, t);
        CalmerQuiet(s, n, b.storagePath);
      }
      CalmerQuiet(s, n, b.stagingPath.value);
    } else {
      CalmerQuiet(s, n, b.storagePath);
    }
  }

  predicate GivesUp(w: Worker, n: Worker) { SameView(w, n) && (n.step == w.step || n.step == StagingKept || n.step == Stopped) }

  predicate HasRead(s: State, t: Id) { t in s.workers && s.workers[t].step != Claimed && s.workers[t].step != Checked }

  predicate KeepsGoing(s: State, n: State, t: Id)
    requires t in s.workers
  {
    t in n.workers && GivesUp(s.workers[t], n.workers[t])
  }

  lemma ClaimMoves(s: State, b: Id, token: Id, now: Time, until: Time, t: Id)
    requires HasRead(s, t) && t in s.issued
    ensures KeepsGoing(s, ClaimJob(s, b, token, now, until), t)
  {
  }

  lemma RenewMoves(s: State, u: Id, until: Time, t: Id)
    requires HasRead(s, t)
    ensures KeepsGoing(s, RenewClaim(s, u, until), t) && KeepsGoing(s, CheckClaim(s, u), t)
  {
  }

  lemma LoadMoves(s: State, u: Id, t: Id)
    requires HasRead(s, t)
    ensures KeepsGoing(s, LoadBlob(s, u), t)
  {
  }

  lemma KeepMoves(s: State, u: Id, t: Id)
    requires HasRead(s, t)
    ensures KeepsGoing(s, KeepStagingFile(s, u), t)
  {
  }

  lemma DeleteMoves(s: State, u: Id, t: Id)
    requires HasRead(s, t) && u != t
    ensures KeepsGoing(s, DeleteStagingFile(s, u), t) && KeepsGoing(s, DeleteStorageFile(s, u), t)
  {
  }

  lemma EndMoves(s: State, u: Id, t: Id)
    requires HasRead(s, t)
    ensures KeepsGoing(s, Complete(s, u), t)
  {
  }

  lemma FailMoves(s: State, u: Id, retryAt: Time, t: Id)
    requires HasRead(s, t)
    ensures KeepsGoing(s, Fail(s, u, retryAt), t)
  {
  }

  /** What any step but its own deletes does to a worker that has read its row. */
  lemma OtherMoves(s: State, x: WorkerAction, t: Id)
    requires Inv(s) && HasRead(s, t) && x != DeleteStagingA(t) && x != DeleteStorageA(t)
    ensures KeepsGoing(s, NextWorker(s, x), t)
  {
    match x
    case ClaimA(b, token, now, until) => assert WorkerOk(s, t); ClaimMoves(s, b, token, now, until, t);
    case RenewClaimA(u, until) => RenewMoves(s, u, until, t);
    case CheckClaimA(u) => RenewMoves(s, u, 0, t);
    case LoadBlobA(u) => LoadMoves(s, u, t);
    case KeepStagingA(u) => KeepMoves(s, u, t);
    case DeleteStagingA(u) => DeleteMoves(s, u, t);
    case DeleteStorageA(u) => DeleteMoves(s, u, t);
    case CompleteA(u) => EndMoves(s, u, t);
    case FailA(u, retryAt) => FailMoves(s, u, retryAt, t);
  }

  lemma CleansUpCarried(s: State, a: Action, t: Id, b: Blob)
    requires Inv(s) && CleansUp(s, t, b) && KeepsGoing(s, Next(s, a), t)
    ensures CleansUp(Next(s, a), t, b)
  {
    assert WorkerOk(s, t);
    if b.HasStaging() {
      QuietStep(s, a, b.stagingPath.value);
      if s.workers[t].step == AllGone { QuietStep(s, a, b.storagePath); }
    } else {
      QuietStep(s, a, b.storagePath);
    }
  }

  lemma CleansUpStep(s: State, a: Action, t: Id, b: Blob)
    requires Inv(s) && Traced(s) && CleansUp(s, t, b)
    ensures CleansUp(Next(s, a), t, b)
  {
    if a == Working(DeleteStagingA(t)) && s.workers[t].step == Loaded {
      DeletesStagingOk(s, t, b);
    } else if a == Working(DeleteStorageA(t)) && (s.workers[t].step == StagingGone || s.workers[t].step == StagingKept) {
      DeletesStorageOk(s, t, b);
    } else {
      if a.Working? { WorkerIdles(s, a.work, t); } else { SameWorkers(s, a); }
      CleansUpCarried(s, a, t, b);
    }
  }

  lemma WorkerIdles(s: State, x: WorkerAction, t: Id)
    requires Inv(s) && HasRead(s, t)
    requires x == DeleteStagingA(t) ==> s.workers[t].step != Loaded
    requires x == DeleteStorageA(t) ==> s.workers[t].step != StagingGone && s.workers[t].step != StagingKept
    ensures KeepsGoing(s, NextWorker(s, x), t)
  {
    if x != DeleteStagingA(t) && x != DeleteStorageA(t) { OtherMoves(s, x, t); }
  }

  lemma {:induction false} CleansUpRun(s: State, actions: seq<Action>, t: Id, b: Blob)
    requires Inv(s) && Traced(s) && CleansUp(s, t, b)
    ensures CleansUp(Run(s, actions), t, b)
    decreases |actions|
  {
    if actions != [] {
      CleansUpStep(s, actions[0], t, b);
      TracedStep(s, actions[0]);
      NextOk(s, actions[0]);
      CleansUpRun(Next(s, actions[0]), actions[1..], t, b);
    }
  }

  /** The upload of the blob that worker t has read is still staging and has yet to begin its
      file: nothing that the worker deletes is there, and the file can still come. */
  predicate FirstWriteOpen(s: State, t: Id)
    requires t in s.workers
  {
    var b := s.workers[t].job;
    s.workers[t].seen.Some? && s.workers[t].seen.value.HasStaging() && StillStaging(s, b) && s.stagers[b].written.None?
  }

  /** The worker has made both of its deletes, or its completion takes the row away. */
  predicate Finishes(n: State, t: Id) { AtStep(n, t, AllGone) || Complete(n, t).db != n.db }

  /** Whatever happens: once this worker has deleted both files of the row it has read, or
      completes its job, neither file is ever there again. */
  predicate LeavesNothing(s: State, t: Id, actions: seq<Action>, more: seq<Action>) {
    var n := Run(s, actions);
    Finishes(n, t) ==> t in n.workers && n.workers[t].seen.Some? && Gone(Run(n, more), n.workers[t].seen.value)
  }

  lemma BeginsClean(s: State, t: Id)
    requires Inv(s) && Traced(s) && AtStep(s, t, Loaded) && s.workers[t].seen.Some? && !FirstWriteOpen(s, t)
    ensures CleansUp(s, t, s.workers[t].seen.value)
  {
    var w := s.workers[t];
    assert SeenTraced(s, w);
    if w.seen.value.HasStaging() {
      var p := w.seen.value.stagingPath.value;
      forall x | x in s.stagers ensures CannotWrite(s, x, p) {
        assert StagerOk(s, x);
        if x != w.job { assert StagersApart(s.stagers[x], s.stagers[w.job]); }
      }
    }
  }

  lemma CleanedStaysGone(s: State, t: Id, actions: seq<Action>, more: seq<Action>)
    requires Inv(s) && Traced(s) && AtStep(s, t, Loaded) && s.workers[t].seen.Some? && !FirstWriteOpen(s, t)
    ensures LeavesNothing(s, t, actions, more)
  {
    var b, n := s.workers[t].seen.value, Run(s, actions);
    BeginsClean(s, t);
    CleansUpRun(s, actions, t, b);
    if Finishes(n, t) {
      RunOk(s, actions);
      assert WorkerOk(n, t);
      QuietRun(n, more, b.storagePath);
      if b.HasStaging() { QuietRun(n, more, b.stagingPath.value); }
    }
  }

  lemma BothDeleted(s: State, t: Id)
    requires AtStep(s, t, Loaded) && s.workers[t].seen.Some?
    ensures var n := DeleteStorageFile(DeleteStagingFile(s, t), t);
      n.stagers == s.stagers && n.requests == s.requests && AtStep(n, t, AllGone) && n.workers[t].seen == s.workers[t].seen
  {
    DeletesStagingWorkers(s, t);
    var m := DeleteStagingFile(s, t);
    assert AtStep(m, t, StagingGone) && m.workers[t].seen == s.workers[t].seen;
  }

  lemma FirstWrite(s: State, b: Id)
    requires StillStaging(s, b) && s.stagers[b].written.None? && s.stagers[b].stage == Writing
    ensures s.stagers[b].stagingPath in Write(s, b, 0).files
  {
  }

  lemma WrittenLate(s: State, t: Id)
    requires Inv(s) && Traced(s) && AtStep(s, t, Loaded) && FirstWriteOpen(s, t)
    ensures var n := DeleteStorageFile(DeleteStagingFile(s, t), t);
      AtStep(n, t, AllGone) && n.workers[t].seen == s.workers[t].seen && !Gone(Write(n, s.workers[t].job, 0), s.workers[t].seen.value)
  {
    var w, n := s.workers[t], DeleteStorageFile(DeleteStagingFile(s, t), t);
    assert SeenTraced(s, w) && StagerOk(s, w.job);
    BothDeleted(s, t);
    FirstWrite(n, w.job);
  }

  lemma DeletesRun(s: State, t: Id)
    ensures Run(s, [Working(DeleteStagingA(t)), Working(DeleteStorageA(t))]) == DeleteStorageFile(DeleteStagingFile(s, t), t)
  {
    TwoSteps(s, Working(DeleteStagingA(t)), Working(DeleteStorageA(t)));
  }

  /** The first write comes after both deletes. */
  lemma LateWrite(s: State, t: Id)
    requires Inv(s) && Traced(s) && AtStep(s, t, Loaded) && FirstWriteOpen(s, t)
    ensures !LeavesNothing(s, t, [Working(DeleteStagingA(t)), Working(DeleteStorageA(t))], [Uploading(WriteA(s.workers[t].job, 0))])
  {
    DeletesRun(s, t);
    OneStep(DeleteStorageFile(DeleteStagingFile(s, t), t), Uploading(WriteA(s.workers[t].job, 0)));
    WrittenLate(s, t);
  }

  lemma OneStep(s: State, a: Action)
    ensures Run(s, [a]) == Next(s, a)
  {
    assert Run(Next(s, a), []) == Next(s, a);
  }

  lemma TwoSteps(s: State, a: Action, b: Action)
    ensures Run(s, [a, b]) == Next(Next(s, a), b)
  {
    assert [a, b][1..] == [b];
    OneStep(Next(s, a), b);
  }

  /** A cleanup leaves nothing behind, now or later, whatever the others do, if and only if
      the upload of the blob can no longer begin its file when the worker has read the row. */
  lemma CleanupLeavesNothingIff(s: State, t: Id)
    requires Reachable(s) && AtStep(s, t, Loaded)
    ensures (forall actions, more :: LeavesNothing(s, t, actions, more)) <==> !FirstWriteOpen(s, t)
  {
    ReachableOk(s);
    ReachableTraced(s);
    assert WorkerOk(s, t);
    if FirstWriteOpen(s, t) {
      LateWrite(s, t);
    } else {
      forall actions, more ensures LeavesNothing(s, t, actions, more) { CleanedStaysGone(s, t, actions, more); }
    }
  }

  // ------------------------------------------------------------- a failed delete

  predicate HasFailed(s: State, t: Id) { AtStep(s, t, StagingKept) || AtStep(s, t, Stopped) }

  lemma FailedStorage(s: State, t: Id)
    requires HasFailed(s, t)
    ensures HasFailed(DeleteStorageFile(s, t), t)
  {
  }

  lemma FailedStep(s: State, x: WorkerAction, t: Id)
    requires Inv(s) && HasFailed(s, t)
    ensures HasFailed(NextWorker(s, x), t)
  {
    if x == DeleteStorageA(t) {
      FailedStorage(s, t);
    } else {
      WorkerIdles(s, x, t);
    }
  }

  lemma {:induction false} FailedRun(s: State, actions: seq<Action>, t: Id)
    requires Inv(s) && HasFailed(s, t)
    ensures HasFailed(Run(s, actions), t)
    decreases |actions|
  {
    if actions != [] {
      if actions[0].Working? { FailedStep(s, actions[0].work, t); } else { SameWorkers(s, actions[0]); }
      NextOk(s, actions[0]);
      FailedRun(Next(s, actions[0]), actions[1..], t);
    }
  }

  /** A worker that could not delete the staging file never completes its job. */
  lemma FailedDeleteNeverCompletes(s: State, actions: seq<Action>, t: Id)
    requires Reachable(s) && AtStep(s, t, Loaded)
    ensures var n := Run(KeepStagingFile(s, t), actions); Complete(n, t) == n
  {
    ReachableNext(s, Working(KeepStagingA(t)));
    ReachableOk(KeepStagingFile(s, t));
    FailedRun(KeepStagingFile(s, t), actions, t);
  }

  // ------------------------------------------------------ what an abort cleans up

  lemma {:induction false} ReleasedListed(l: Ledger, ids: seq<Id>, b: Id)
    requires ReleaseStagingAll(l, ids).Ok? && b in l.blobs && b !in ReleaseStagingAll(l, ids).ledger.blobs
    ensures b in ids
    decreases |ids|
  {
    var first := if ids[0] == Empty then Ok(l) else ReleaseStagingOne(l, ids[0]);
    if b in first.ledger.blobs { ReleasedListed(first.ledger, ids[1..], b); }
  }

  /** An upload that has been given up writes nothing more. */
  lemma GivenUpIsQuiet(s: State, b: Id)
    requires Inv(s) && GivenUp(s, b)
    ensures NoWriter(s, s.stagers[b].stagingPath) && NoWriter(s, s.stagers[b].storagePath)
  {
    var st := s.stagers[b];
    forall x | x in s.stagers ensures CannotWrite(s, x, st.stagingPath) && CannotWrite(s, x, st.storagePath) {
      assert StagerOk(s, x) && StagerOk(s, b);
      if x != b { assert StagersApart(s.stagers[x], st); }
    }
  }

  predicate FilesGone(s: State, st: Stager) { st.stagingPath !in s.files && st.storagePath !in s.files }

  /** When an aborting upload gives a row and its bytes back, its files are gone, for good. */
  lemma AbortLeavesNothing(s: State, ids: seq<Id>, b: Id, actions: seq<Action>)
    requires Reachable(s) && b in s.db.ledger.blobs && b !in AbortRelease(s, ids).db.ledger.blobs
    ensures b in s.stagers && FilesGone(s, s.stagers[b]) && FilesGone(Run(s, actions), s.stagers[b])
  {
    ReleasedListed(s.db.ledger, ids, b);
    assert Cleared(s, b);
    ReachableOk(s);
    assert StagerOk(s, b);
    GivenUpIsQuiet(s, b);
    QuietRun(s, actions, s.stagers[b].stagingPath);
    QuietRun(s, actions, s.stagers[b].storagePath);
  }

  // ---------------------------------------------------------- one file at a time

  /** Exactly this path has gone, if any. */
  ghost predicate Removes(files: map<Path, nat>, n: map<Path, nat>, gone: Option<Path>) {
    forall p {:trigger p in n} :: (p in n <==> p in files && gone != Some(p)) && (p in n ==> n[p] == files[p])
  }

  /** Each delete of a worker removes exactly the path that it names: first the staging path of
      the row it has read, if that has one, then the storage path. */
  lemma DeletesStagingPath(s: State, t: Id)
    requires Reachable(s) && AtStep(s, t, Loaded)
    ensures var n, seen := DeleteStagingFile(s, t), s.workers[t].seen;
      seen.Some? && AtStep(n, t, StagingGone) && Removes(s.files, n.files, if seen.value.HasStaging() then seen.value.stagingPath else None)
  {
    SeenPathsDiffer(s, t);
    DeletesStaging(s, t, s.workers[t].seen.value);
  }

  lemma SeenPathsDiffer(s: State, t: Id)
    requires Reachable(s) && t in s.workers && !BeforeRead(s.workers[t].step)
    ensures s.workers[t].seen.Some?
    ensures s.workers[t].seen.value.HasStaging() ==> s.workers[t].seen.value.stagingPath.value != s.workers[t].seen.value.storagePath
  {
    ReachableOk(s);
    ReachableTraced(s);
    assert WorkerOk(s, t);
    PathsDiffer(s, t);
  }

  lemma DeletesStoragePath(s: State, t: Id)
    requires Reachable(s) && AtStep(s, t, StagingGone)
    ensures var n, seen := DeleteStorageFile(s, t), s.workers[t].seen;
      seen.Some? && AtStep(n, t, AllGone) && Removes(s.files, n.files, Some(seen.value.storagePath))
  {
    ReachableOk(s);
    assert WorkerOk(s, t);
  }

  /** So does each delete of an upload that has been given up. */
  lemma AbortDeletesPath(s: State, b: Id, staging: bool)
    requires GivenUp(s, b)
    ensures Removes(s.files, AbortDelete(s, b, staging).files, Some(if staging then s.stagers[b].stagingPath else s.stagers[b].storagePath))
  {
  }
}
