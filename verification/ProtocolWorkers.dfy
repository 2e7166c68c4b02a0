/** The steps of cleanup workers and of the reconciler's walk keep the system invariant. */
module ProtocolWorkers {
  import opened Common
  import opened LedgerTransactions
  import opened LedgerInvariant
  import opened BooksKept
  import opened Metadata
  import opened BinGroups
  import opened Protocol
  import opened ProtocolInvariant
  import opened ProtocolLocal
  import opened ProtocolSteps

  // ------------------------------------------------------------------ claiming

  lemma FreshToken(s: State, token: Id)
    requires AllWorkers(s) && FreshName(s, token)
    ensures token !in s.workers
  {
    assert token in s.workers ==> WorkerOk(s, token);
  }

  /** A claim changes who holds one job; rows and job ids stay. */
  predicate ClaimStep(s: State, n: State, b: Id, token: Id) {
    && b in s.db.ledger.jobs && token !in s.workers
    && n == s.(db := n.db, workers := s.workers[token := Worker(b, Claimed, None)], issued := s.issued + {token})
    && n.db == s.db.(ledger := n.db.ledger)
    && n.db.ledger.blobs == s.db.ledger.blobs && n.db.ledger.jobs.Keys == s.db.ledger.jobs.Keys
    && n.db.ledger.jobs[b].owner == Some(token)
    && (forall x :: x in s.db.ledger.jobs && x != b ==> n.db.ledger.jobs[x].owner == s.db.ledger.jobs[x].owner)
  }

  lemma ClaimUploads(s: State, n: State, b: Id, token: Id)
    requires AllBlobs(s) && AllStagers(s) && AllRequests(s) && AllApart(s) && ClaimStep(s, n, b, token)
    ensures AllBlobs(n) && AllStagers(n) && AllRequests(n) && AllApart(n)
  {
    assert AllBlobs(n) by { forall x | x in n.db.ledger.blobs ensures BlobOk(n, x) { assert BlobOk(s, x); } }
    assert AllStagers(n) by { forall x | x in n.stagers ensures StagerOk(n, x) { assert StagerOk(s, x); } }
    assert AllRequests(n) by {
      forall q | q in n.requests ensures RequestOk(n, q) {
        assert RequestOk(s, q);
        forall x | x in n.requests[q].entries ensures EntryOk(n, q, x) { assert EntryOk(s, q, x); }
      }
    }
    assert AllApart(n) by {
      forall x, y | x in n.stagers && y in n.stagers && x != y ensures StagersApart(n.stagers[x], n.stagers[y]) {
        assert StagersApart(s.stagers[x], s.stagers[y]);
      }
    }
  }

  lemma ClaimOthers(s: State, n: State, b: Id, token: Id)
    requires AllWorkers(s) && AllTokens(s) && AllScans(s) && AllCalls(s) && b in s.issued && ClaimStep(s, n, b, token)
    ensures AllWorkers(n) && AllTokens(n) && AllScans(n) && AllCalls(n)
  {
    assert AllWorkers(n) by { forall t | t in n.workers ensures WorkerOk(n, t) { assert t != token ==> WorkerOk(s, t); } }
    assert AllTokens(n) by { forall x | x in n.db.ledger.jobs ensures TokenOk(n, x) { assert TokenOk(s, x); } }
    assert AllScans(n) by { forall x | x in n.scans ensures ScanOk(n, x) { assert ScanOk(s, x); } }
    assert AllCalls(n) by { forall x | x in n.calls ensures CallOk(n, x) { assert CallOk(s, x); } }
  }

  lemma ClaimLater(s: State, n: State, b: Id, token: Id)
    requires ClaimStep(s, n, b, token)
    ensures Later(s, n)
  {
  }

  lemma ClaimDb(s: State, n: State, l: Ledger, b: Id, token: Id, now: Time, until: Time)
    requires DbOk(s) && Claim(s.db.ledger, b, token, now, until) == Ok(l) && s.issued <= n.issued
    requires n.db == s.db.(ledger := l)
    ensures DbOk(n)
  {
    ClaimKeeps(s.db.ledger, Refs(s.db), b, token, now, until);
    assert Refs(n.db) == Refs(s.db);
  }

  lemma ClaimOk(s: State, b: Id, token: Id, now: Time, until: Time)
    requires Inv(s)
    ensures StepOk(s, ClaimJob(s, b, token, now, until))
  {
    var n := ClaimJob(s, b, token, now, until);
    var r := Claim(s.db.ledger, b, token, now, until);
    if FreshName(s, token) && r.Ok? {
      assert ClaimStep(s, n, b, token) by { FreshToken(s, token); }
      assert DbOk(n) by { ClaimDb(s, n, r.ledger, b, token, now, until); }
      assert b in s.issued by { assert BlobOk(s, b); }
      assert AllBlobs(n) && AllStagers(n) && AllRequests(n) && AllApart(n) by { ClaimUploads(s, n, b, token); }
      assert AllWorkers(n) && AllTokens(n) && AllScans(n) && AllCalls(n) by { ClaimOthers(s, n, b, token); }
      assert Later(s, n) by { ClaimLater(s, n, b, token); }
    } else {
      Stays(s);
    }
  }

  // ------------------------------------------------------------ working a job

  lemma WorkerStep(s: State, t: Id, w: Worker)
    requires Inv(s) && t in s.workers && w.job == s.workers[t].job
    requires WorkerOk(s.(workers := s.workers[t := w]), t)
    ensures StepOk(s, s.(workers := s.workers[t := w]))
  {
    var n := s.(workers := s.workers[t := w]);
    assert AllWorkers(n) by { forall x | x in n.workers ensures WorkerOk(n, x) { assert x != t ==> WorkerOk(s, x); } }
    assert AllTokens(n) by { forall b | b in n.db.ledger.jobs ensures TokenOk(n, b) { assert TokenOk(s, b); } }
    assert AllScans(n) by { forall x | x in n.scans ensures ScanOk(n, x) { assert ScanOk(s, x); } }
    assert AllCalls(n) by { forall x | x in n.calls ensures CallOk(n, x) { assert CallOk(s, x); } }
    SideStep(s, n);
  }

  lemma AdvanceOk(s: State, t: Id, step: WorkerStep)
    requires Inv(s) && t in s.workers && (BeforeRead(step) || !BeforeRead(s.workers[t].step))
    ensures StepOk(s, Advance(s, t, step))
  {
    assert WorkerOk(s, t);
    WorkerStep(s, t, s.workers[t].(step := step));
  }

  lemma CheckClaimOk(s: State, t: Id)
    requires Inv(s)
    ensures StepOk(s, CheckClaim(s, t))
  {
    if AtStep(s, t, Claimed) {
      AdvanceOk(s, t, Checked);
      AdvanceOk(s, t, Stopped);
    }
  }

  /** A worker never meets a live reference: the refusal of a referenced blob is dead code. */
  lemma NeverRefused(s: State, t: Id)
    requires Inv(s) && t in s.workers && s.workers[t].job in s.db.ledger.blobs
    ensures var b := s.db.ledger.blobs[s.workers[t].job];
      b.status != Active && b.refCount == 0
      && (b.status == Staging ==> GivenUp(s, s.workers[t].job))
  {
    var b := s.workers[t].job;
    assert WorkerOk(s, t);
    assert RowOk(s.db.ledger, Refs(s.db), b);
    if s.db.ledger.blobs[b].status == Staging {
      assert BlobOk(s, b);
      assert StagerOk(s, b);
    }
  }

  lemma LoadBlobOk(s: State, t: Id)
    requires Inv(s)
    ensures StepOk(s, LoadBlob(s, t))
  {
    if AtStep(s, t, Checked) {
      var b := s.workers[t].job;
      if b !in s.db.ledger.blobs {
        AdvanceOk(s, t, Stopped);
      } else {
        NeverRefused(s, t);
        var w := Worker(b, Loaded, Some(s.db.ledger.blobs[b]));
        assert WorkerOk(s.(workers := s.workers[t := w]), t) by {
          assert WorkerOk(s, t) && BlobOk(s, b);
          forall x | x in s.db.ledger.blobs && x != b ensures Apart(s.db.ledger.blobs[x], s.db.ledger.blobs[b]) {}
        }
        WorkerStep(s, t, w);
      }
    }
  }

  /** The unlocked delete of a stale worker cannot hit the file of a blob in use. */
  lemma WorkerDelete(s: State, t: Id, path: Path, step: WorkerStep)
    requires Inv(s) && t in s.workers && !BeforeRead(s.workers[t].step)
    requires s.workers[t].seen.Some? && s.workers[t].seen.value.Holds(path)
    ensures StepOk(s, Advance(s.(files := s.files - {path}), t, step))
  {
    var n := s.(files := s.files - {path});
    forall b | b in s.db.ledger.blobs && s.db.ledger.blobs[b].storagePath == path
      ensures s.db.ledger.blobs[b].status != Active && (s.db.ledger.blobs[b].status == Staging ==> b in s.db.ledger.jobs)
    {
      assert WorkerOk(s, t);
      if b == s.workers[t].job {
        NeverRefused(s, t);
      } else {
        assert Live(s.db.ledger.blobs[b]) ==> Apart(s.db.ledger.blobs[b], s.workers[t].seen.value);
      }
    }
    FileStep(s, path);
    AdvanceOk(n, t, step);
    StepThen(s, n, Advance(n, t, step));
  }

  lemma DeleteStagingFileOk(s: State, t: Id)
    requires Inv(s)
    ensures StepOk(s, DeleteStagingFile(s, t))
  {
    if AtStep(s, t, Loaded) && s.workers[t].seen.Some? {
      var blob := s.workers[t].seen.value;
      if blob.HasStaging() { WorkerDelete(s, t, blob.stagingPath.value, StagingGone); }
      AdvanceOk(s, t, StagingGone);
    }
  }

  lemma KeepStagingFileOk(s: State, t: Id)
    requires Inv(s)
    ensures StepOk(s, KeepStagingFile(s, t))
  {
    if AtStep(s, t, Loaded) { AdvanceOk(s, t, StagingKept); } else { Stays(s); }
  }

  lemma DeleteStorageFileOk(s: State, t: Id)
    requires Inv(s)
    ensures StepOk(s, DeleteStorageFile(s, t))
  {
    if (AtStep(s, t, StagingGone) || AtStep(s, t, StagingKept)) && s.workers[t].seen.Some? {
      WorkerDelete(s, t, s.workers[t].seen.value.storagePath, if s.workers[t].step == StagingGone then AllGone else StagingKept);
    } else {
      Stays(s);
    }
  }

  /** A ledger transaction of a worker, then its own next step. */
  lemma ThenAdvance(s: State, l: Ledger, t: Id, step: WorkerStep)
    requires BeforeRead(step)
    requires Inv(s) && t in s.workers && Keeps(s.db.ledger, Ok(l), Refs(s.db), NOTHING)
    ensures StepOk(s, Advance(WithLedger(s, l), t, step))
  {
    LedgerStep(s, l, NOTHING);
    AdvanceOk(WithLedger(s, l), t, step);
    StepThen(s, WithLedger(s, l), Advance(WithLedger(s, l), t, step));
  }

  lemma CompleteOk(s: State, t: Id)
    requires Inv(s)
    ensures StepOk(s, Complete(s, t))
  {
    if AtStep(s, t, AllGone) {
      CompleteJobKeeps(s.db.ledger, Refs(s.db), s.workers[t].job, t);
      match CompleteJob(s.db.ledger, s.workers[t].job, t)
      case Err(_) => AdvanceOk(s, t, Stopped);
      case Ok(l) => ThenAdvance(s, l, t, Stopped);
    }
  }

  lemma FailOk(s: State, t: Id, retryAt: Time)
    requires Inv(s)
    ensures StepOk(s, Fail(s, t, retryAt))
  {
    if t in s.workers {
      FailJobKeeps(s.db.ledger, Refs(s.db), s.workers[t].job, t, retryAt);
      match FailJob(s.db.ledger, s.workers[t].job, t, retryAt)
      case Err(_) => AdvanceOk(s, t, Stopped);
      case Ok(l) => ThenAdvance(s, l, t, Stopped);
    }
  }

  // ----------------------------------------------------------- reconciliation

  lemma ScanStep(s: State, c: Id, sc: Scan)
    requires Inv(s) && ScanOk(s.(scans := s.scans[c := sc]), c)
    ensures StepOk(s, s.(scans := s.scans[c := sc]))
  {
    var n := s.(scans := s.scans[c := sc]);
    assert AllWorkers(n) by { forall x | x in n.workers ensures WorkerOk(n, x) { assert WorkerOk(s, x); } }
    assert AllTokens(n) by { forall b | b in n.db.ledger.jobs ensures TokenOk(n, b) { assert TokenOk(s, b); } }
    assert AllScans(n) by { forall x | x in n.scans ensures ScanOk(n, x) { assert x != c ==> ScanOk(s, x); } }
    assert AllCalls(n) by { forall x | x in n.calls ensures CallOk(n, x) { assert CallOk(s, x); } }
    SideStep(s, n);
  }

  lemma SeeOk(s: State, c: Id, path: Path)
    requires Inv(s)
    ensures StepOk(s, See(s, c, path))
  {
    if path in s.files {
      assert c in s.scans ==> ScanOk(s, c);
      var sc := if c in s.scans then s.scans[c] else Scan(map[], {});
      ScanStep(s, c, sc.(found := sc.found[path := s.files[path]]));
    }
  }

  lemma CheckPathOk(s: State, c: Id, path: Path)
    requires Inv(s)
    ensures StepOk(s, CheckPath(s, c, path))
  {
    if c in s.scans && path in s.scans[c].found && !ManagedNow(s, path) {
      assert ScanOk(s, c);
      ScanStep(s, c, s.scans[c].(checked := s.scans[c].checked + {path}));
    }
  }
}
