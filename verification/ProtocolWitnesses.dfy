/** Runs from an empty database that end where a promise one might expect does not hold. */
module ProtocolWitnesses {
  import opened Common
  import opened LedgerTransactions
  import opened Metadata
  import opened Protocol
  import opened ProtocolRuns
  import opened ProtocolGuarantees
  import opened ProtocolQuota
  import opened ProtocolCleanup

  /** An empty database with room for `max` bytes, over the given files. */
  function EmptyState(max: nat, files: map<Path, nat>): State {
    State(Db(Ledger(Quota(0, 0, max, None), map[], map[]), {}, map[], map[], 0),
          files, map[], map[], map[], map[], map[], files.Keys)
  }

  lemma EmptyReachable(max: nat, files: map<Path, nat>)
    requires max <= MAX_U64
    ensures Reachable(EmptyState(max, files))
  {
    assert Init(EmptyState(max, files)) && Run(EmptyState(max, files), []) == EmptyState(max, files);
  }

  // ------------------------------------------------------- an unknown that sealed

  const UPLOAD: Id := Name(1)
  const BLOB: Id := Name(2)
  const FINAL: Path := Name(3)
  const TEMP: Path := Name(4)

  function Staged(stage: Stage): Stager {
    Stager(UPLOAD, FINAL, TEMP, Some(1), 0, if stage == Writing then None else Some(1), stage)
  }

  /** The upload has a staging row; `phase`, its file and its stager vary from step to step. */
  function Mid(phase: Phase, files: map<Path, nat>, st: Stager): State {
    State(Db(Ledger(Quota(0, 1, 1, None), map[BLOB := Blob(FINAL, Some(TEMP), 1, 0, Staging, Some(9), 0)], map[]),
             {}, map[], map[], 0),
          files, map[UPLOAD := Request(phase, false, [BLOB], false)], map[BLOB := st], map[], map[], map[],
          {UPLOAD, BLOB, FINAL, TEMP})
  }

  const DRAFT: Draft := Draft(BLOB, FINAL, TEMP, Some(1))

  /** The request has been opened. */
  function Opened(): State {
    EmptyState(1, map[]).(requests := map[UPLOAD := Request(Collecting, false, [], false)], issued := {UPLOAD})
  }

  lemma OpenedOnce()
    ensures Reachable(Opened())
  {
    EmptyReachable(1, map[]);
    ReachableNext(EmptyState(1, map[]), Uploading(OpenA(UPLOAD)));
    assert Open(EmptyState(1, map[]), UPLOAD) == Opened();
  }

  lemma RowCreated()
    ensures CreateAll(Opened().db.ledger, NewRows([DRAFT]), 0, 9) == Ok(Mid(Collecting, map[], Staged(Writing)).db.ledger)
  {
    var l, row := Opened().db.ledger, NewBlob(BLOB, FINAL, TEMP, 1);
    assert NewRows([DRAFT]) == [row];
    var made := CreateOne(l, row, 0, 9);
    assert made == Ok(Mid(Collecting, map[], Staged(Writing)).db.ledger);
    assert CreateAll(made.ledger, [], 0, 9) == made;
  }

  lemma RowStaged()
    ensures StageRows(Opened(), UPLOAD, [DRAFT], 0, 9) == Mid(Collecting, map[], Staged(Writing))
  {
    var s := Opened();
    assert FreshDrafts(s, [DRAFT]);
    RowCreated();
    assert AddStagers(map[], UPLOAD, [DRAFT]) == map[BLOB := Staged(Writing)];
    assert DraftIds([DRAFT]) == [BLOB];
    assert s.issued + NamesOf([DRAFT]) == {UPLOAD, BLOB, FINAL, TEMP};
    assert s.requests[UPLOAD].entries + [BLOB] == [BLOB];
  }

  lemma StagedOnce()
    ensures Reachable(Mid(Collecting, map[], Staged(Writing)))
  {
    OpenedOnce();
    ReachableNext(Opened(), Uploading(StageRowsA(UPLOAD, [DRAFT], 0, 9)));
    RowStaged();
  }

  lemma WrittenFile()
    ensures Write(Mid(Collecting, map[], Staged(Writing)), BLOB, 1)
         == Mid(Collecting, map[TEMP := 1], Staged(Writing).(written := Some(1)))
  {
  }

  lemma EndedFile()
    ensures EndWrite(Mid(Collecting, map[TEMP := 1], Staged(Writing).(written := Some(1))), BLOB)
         == Mid(Collecting, map[TEMP := 1], Staged(Written))
  {
  }

  lemma PlacedFile()
    ensures Place(Mid(Collecting, map[TEMP := 1], Staged(Written)), BLOB) == Mid(Collecting, map[FINAL := 1], Staged(Placed))
  {
  }

  lemma WrittenOnce()
    ensures Reachable(Mid(Collecting, map[TEMP := 1], Staged(Writing).(written := Some(1))))
  {
    StagedOnce();
    WrittenFile();
    ReachableNext(Mid(Collecting, map[], Staged(Writing)), Uploading(WriteA(BLOB, 1)));
  }

  lemma EndedOnce()
    ensures Reachable(Mid(Collecting, map[TEMP := 1], Staged(Written)))
  {
    WrittenOnce();
    EndedFile();
    ReachableNext(Mid(Collecting, map[TEMP := 1], Staged(Writing).(written := Some(1))), Uploading(EndWriteA(BLOB)));
  }

  lemma PlacedOnce()
    ensures Reachable(Mid(Collecting, map[FINAL := 1], Staged(Placed)))
  {
    EndedOnce();
    PlacedFile();
    ReachableNext(Mid(Collecting, map[TEMP := 1], Staged(Written)), Uploading(PlaceA(BLOB)));
  }

  /** A lost confirmation: it reports unknown, yet the ledger has changed. */
  ghost predicate UnknownButSealed(s: State, q: Id, now: Time) {
    && Reachable(s) && InPhase(s, q, Unsure)
    && Reports(Confirm(s, q, now, Unanswered), q, Unknown) && !Untouched(s, Confirm(s, q, now, Unanswered))
  }

  lemma ReturnedUpload()
    ensures Return(Mid(Collecting, map[FINAL := 1], Staged(Placed)), UPLOAD) == Mid(Ready, map[FINAL := 1], Staged(Placed))
    ensures PublishLost(Mid(Ready, map[FINAL := 1], Staged(Placed)), UPLOAD) == Mid(Unsure, map[FINAL := 1], Staged(Placed))
  {
  }

  lemma UnsureOnce()
    ensures Reachable(Mid(Unsure, map[FINAL := 1], Staged(Placed)))
  {
    PlacedOnce();
    ReturnedUpload();
    ReachableNext(Mid(Collecting, map[FINAL := 1], Staged(Placed)), Uploading(ReturnA(UPLOAD)));
    ReachableNext(Mid(Ready, map[FINAL := 1], Staged(Placed)), Publishing(PublishLostA(UPLOAD)));
  }

  /** One blob is staged and placed, its publish is lost without a commit, and so is the
      reply of the confirmation that then seals it. */
  lemma UnknownCanSeal()
    ensures exists s: State, q: Id, now: Time :: UnknownButSealed(s, q, now)
  {
    UnsureOnce();
    var s := Mid(Unsure, map[FINAL := 1], Staged(Placed));
    var n := Confirm(s, UPLOAD, 5, Unanswered);
    assert StillAllStaging(s, UPLOAD);
    SealsIff(s, n, UPLOAD, 5, Unanswered);
    assert UnknownButSealed(s, UPLOAD, 5) by { ConfirmCases(s, UPLOAD, 5, Unanswered); }
  }

  // ------------------------------------------------------------ above the maximum

  function Walked(checked: set<Path>): State {
    EmptyState(0, map[FINAL := 1]).(scans := map[UPLOAD := Scan(map[FINAL := 1], checked)])
  }

  lemma Walking()
    ensures See(EmptyState(0, map[FINAL := 1]), UPLOAD, FINAL) == Walked({})
    ensures CheckPath(Walked({}), UPLOAD, FINAL) == Walked({FINAL})
  {
    var scan := Walked({}).scans[UPLOAD];
    assert scan.(checked := scan.checked + {FINAL}) == Scan(map[FINAL := 1], {FINAL});
  }

  lemma WalkedOnce()
    ensures Reachable(Walked({FINAL}))
  {
    EmptyReachable(0, map[FINAL := 1]);
    Walking();
    ReachableNext(EmptyState(0, map[FINAL := 1]), Reconciling(SeeA(UPLOAD, FINAL)));
    ReachableNext(Walked({}), Reconciling(CheckPathA(UPLOAD, FINAL)));
  }

  /** The reconciler finds a file of one byte that no row manages and registers it, although
      the maximum is zero: the one way past the maximum that `NeverOversold` leaves open. */
  lemma OrphanOverMaximum()
    ensures exists s: State :: Reachable(s) && s.db.ledger.quota.used > s.db.ledger.quota.max
  {
    WalkedOnce();
    ReachableNext(Walked({FINAL}), Reconciling(RegisterA(UPLOAD, FINAL, BLOB, 0)));
    assert Register(Walked({FINAL}), UPLOAD, FINAL, BLOB, 0).db.ledger.quota == Quota(1, 0, 0, None);
  }

  // --------------------------------------------------- a file after its cleanup

  const SWEEPER: Id := Name(5)

  const GIVEN_UP: Blob := Blob(FINAL, Some(TEMP), 1, 0, PendingDelete, None, 0)

  /** The row of the upload has expired; its job, its worker and its file vary. */
  function Swept(phase: Phase, files: map<Path, nat>, written: Option<nat>, owner: Option<Id>, workers: map<Id, Worker>): State {
    State(Db(Ledger(Quota(0, 1, 1, None), map[BLOB := GIVEN_UP],
                    map[BLOB := Job(FINAL, 0, 9, owner, if owner.Some? then Some(10) else None)]),
             {}, map[], map[], 0),
          files, map[UPLOAD := Request(phase, false, [BLOB], false)],
          map[BLOB := Staged(Writing).(written := written)], workers, map[], map[],
          {UPLOAD, BLOB, FINAL, TEMP} + if owner.Some? then {SWEEPER} else {})
  }

  function Sweeping(step: WorkerStep): State {
    Swept(Collecting, map[], None, Some(SWEEPER),
          map[SWEEPER := Worker(BLOB, step, if step == Claimed || step == Checked then None else Some(GIVEN_UP))])
  }

  lemma Expiring()
    ensures ExpireStaging(Mid(Collecting, map[], Staged(Writing)), {BLOB}, 0, 9) == Swept(Collecting, map[], None, None, map[])
  {
  }

  lemma Claiming()
    ensures ClaimJob(Swept(Collecting, map[], None, None, map[]), BLOB, SWEEPER, 9, 10) == Sweeping(Claimed)
  {
  }

  lemma ReadingRow()
    ensures CheckClaim(Sweeping(Claimed), SWEEPER) == Sweeping(Checked)
    ensures LoadBlob(Sweeping(Checked), SWEEPER) == Sweeping(Loaded)
  {
  }

  lemma Deleting()
    ensures DeleteStagingFile(Sweeping(Loaded), SWEEPER) == Sweeping(StagingGone)
    ensures DeleteStorageFile(Sweeping(StagingGone), SWEEPER) == Sweeping(AllGone)
  {
  }

  function Littered(phase: Phase): State {
    Sweeping(AllGone).(files := map[TEMP := 1], stagers := map[BLOB := Staged(Writing).(written := Some(1))],
                       requests := map[UPLOAD := Request(phase, false, [BLOB], false)])
  }

  lemma WritingLate()
    ensures Write(Sweeping(AllGone), BLOB, 1) == Littered(Collecting)
    ensures StartAbort(Littered(Collecting), UPLOAD) == Littered(Aborting)
  {
  }

  lemma ExpiredOnce()
    ensures Reachable(Swept(Collecting, map[], None, None, map[]))
  {
    StagedOnce();
    Expiring();
    ReachableNext(Mid(Collecting, map[], Staged(Writing)), Publishing(ExpireA({BLOB}, 0, 9)));
  }

  lemma ClaimedOnce()
    ensures Reachable(Sweeping(Claimed))
  {
    ExpiredOnce();
    Claiming();
    ReachableNext(Swept(Collecting, map[], None, None, map[]), Working(ClaimA(BLOB, SWEEPER, 9, 10)));
  }

  lemma CheckedOnce()
    ensures Reachable(Sweeping(Checked))
  {
    ClaimedOnce();
    ReadingRow();
    ReachableNext(Sweeping(Claimed), Working(CheckClaimA(SWEEPER)));
  }

  lemma LoadedOnce()
    ensures Reachable(Sweeping(Loaded)) && FirstWriteOpen(Sweeping(Loaded), SWEEPER)
  {
    CheckedOnce();
    ReadingRow();
    ReachableNext(Sweeping(Checked), Working(LoadBlobA(SWEEPER)));
  }

  lemma HalfSweptOnce()
    ensures Reachable(Sweeping(StagingGone))
  {
    LoadedOnce();
    Deleting();
    ReachableNext(Sweeping(Loaded), Working(DeleteStagingA(SWEEPER)));
  }

  lemma SweptOnce()
    ensures Reachable(Sweeping(AllGone))
  {
    HalfSweptOnce();
    Deleting();
    ReachableNext(Sweeping(StagingGone), Working(DeleteStorageA(SWEEPER)));
  }

  lemma LitteredOnce()
    ensures Reachable(Littered(Collecting))
  {
    SweptOnce();
    WritingLate();
    ReachableNext(Sweeping(AllGone), Uploading(WriteA(BLOB, 1)));
  }

  /** A worker that has made both of its deletes, whose upload has been given up, and whose
      staging file is there. */
  ghost predicate LitteredBy(s: State, t: Id) {
    && Reachable(s) && AtStep(s, t, AllGone) && s.workers[t].seen.Some? && GivenUp(s, s.workers[t].job)
    && s.workers[t].seen.value.stagingPath.Some? && s.workers[t].seen.value.stagingPath.value in s.files
  }

  lemma GivenUpOnce()
    ensures Reachable(Littered(Aborting))
  {
    LitteredOnce();
    WritingLate();
    ReachableNext(Littered(Collecting), Publishing(StartAbortA(UPLOAD)));
  }

  /** The lease of a row runs out before its upload has written a byte; a worker cleans up, and
      the upload writes its first byte and fails after that. So it is the state in which the
      worker reads its row that decides what `CleanupLeavesNothingIff` says. */
  lemma FileAfterCleanup()
    ensures exists s: State, t: Id :: LitteredBy(s, t)
  {
    GivenUpOnce();
    assert LitteredBy(Littered(Aborting), SWEEPER);
  }
}
