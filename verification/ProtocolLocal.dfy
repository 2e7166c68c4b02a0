/** Steps that leave the database alone, and steps in sequence. */
module ProtocolLocal {
  import opened Common
  import opened LedgerTransactions
  import opened LedgerInvariant
  import opened BooksKept
  import opened Metadata
  import opened BinGroups
  import opened Protocol
  import opened ProtocolInvariant

  lemma LaterTrans(a: State, b: State, c: State)
    requires Later(a, b) && Later(b, c)
    requires forall x :: x in a.db.ledger.blobs ==> x in a.issued
    ensures Later(a, c)
  {
  }

  lemma StepThen(a: State, b: State, c: State)
    requires AllBlobs(a) && StepOk(a, b) && StepOk(b, c)
    ensures StepOk(a, c)
  {
    forall x | x in a.db.ledger.blobs ensures x in a.issued { assert BlobOk(a, x); }
    LaterTrans(a, b, c);
  }

  // ----------------------------------------------------- parts left untouched

  lemma BlobsFramed(s: State, n: State)
    requires AllBlobs(s) && n.db.ledger == s.db.ledger && s.issued <= n.issued && s.stagers.Keys <= n.stagers.Keys
    requires forall b :: b in s.db.ledger.blobs && s.db.ledger.blobs[b].status == Active ==>
      var p := s.db.ledger.blobs[b].storagePath;
      (p in s.files ==> p in n.files && n.files[p] == s.files[p])
    ensures AllBlobs(n)
  {
    forall b | b in n.db.ledger.blobs ensures BlobOk(n, b) { assert BlobOk(s, b); }
  }

  lemma StagersFramed(s: State, n: State)
    requires AllStagers(s) && AllApart(s) && n.db.ledger == s.db.ledger && s.issued <= n.issued
    requires n.stagers == s.stagers && n.files == s.files && n.requests == s.requests
    ensures AllStagers(n) && AllApart(n)
  {
    forall b | b in n.stagers ensures StagerOk(n, b) { assert StagerOk(s, b); }
    forall a, b | a in n.stagers && b in n.stagers && a != b ensures StagersApart(n.stagers[a], n.stagers[b]) {
      assert StagersApart(s.stagers[a], s.stagers[b]);
    }
  }

  lemma SameApart(s: State, n: State)
    requires AllApart(s) && n.stagers == s.stagers
    ensures AllApart(n)
  {
    forall a, b | a in n.stagers && b in n.stagers && a != b ensures StagersApart(n.stagers[a], n.stagers[b]) {
      assert StagersApart(s.stagers[a], s.stagers[b]);
    }
  }

  lemma OnlyClients(s: State, n: State)
    requires n.db == s.db && s.issued <= n.issued && n.workers == s.workers && n.requests == s.requests
    ensures Later(s, n)
  {
  }

  predicate Further(a: Stager, b: Stager) { b.request == a.request && (a.stage == Placed ==> b.stage == Placed) }

  /** Requests stay in order when their stagers do not fall back from `Placed`. */
  lemma RequestsFramed(s: State, n: State)
    requires AllRequests(s) && n.db.ledger == s.db.ledger && s.issued <= n.issued && n.requests == s.requests
    requires forall b :: b in s.stagers ==> b in n.stagers && Further(s.stagers[b], n.stagers[b])
    ensures AllRequests(n)
  {
    forall q | q in n.requests ensures RequestOk(n, q) {
      assert RequestOk(s, q);
      forall b | b in n.requests[q].entries ensures EntryOk(n, q, b) { assert EntryOk(s, q, b); }
    }
  }

  /** The parts of the invariant that no upload step touches. */
  ghost predicate OthersOk(s: State) { DbOk(s) && AllWorkers(s) && AllTokens(s) && AllScans(s) && AllCalls(s) }

  lemma OthersFramed(s: State, n: State)
    requires OthersOk(s) && n == s.(files := n.files, requests := n.requests, stagers := n.stagers, issued := n.issued)
    requires s.issued <= n.issued
    ensures OthersOk(n)
  {
    assert AllWorkers(n) by { forall t | t in n.workers ensures WorkerOk(n, t) { assert WorkerOk(s, t); } }
    assert AllTokens(n) by { forall b | b in n.db.ledger.jobs ensures TokenOk(n, b) { assert TokenOk(s, b); } }
    assert AllScans(n) by { forall x | x in n.scans ensures ScanOk(n, x) { assert ScanOk(s, x); } }
    assert AllCalls(n) by { forall x | x in n.calls ensures CallOk(n, x) { assert CallOk(s, x); } }
  }

  // --------------------------------------------------------------- local steps

  /** Workers, scans and calls change; uploads, files and the database do not. */
  lemma SideStep(s: State, n: State)
    requires Inv(s)
    requires n == s.(calls := n.calls, scans := n.scans, workers := n.workers, issued := n.issued)
    requires s.issued <= n.issued
    requires forall t :: t in s.workers ==> t in n.workers && n.workers[t].job == s.workers[t].job
    requires AllWorkers(n) && AllTokens(n) && AllScans(n) && AllCalls(n)
    ensures StepOk(s, n)
  {
    assert AllBlobs(n) by { BlobsFramed(s, n); }
    assert AllStagers(n) && AllApart(n) by { StagersFramed(s, n); }
    assert AllRequests(n) by { RequestsFramed(s, n); }
    assert Later(s, n);
  }

  predicate PhaseMoves(p: Phase, n: Phase) {
    && (Publishable(n) ==> Publishable(p))
    && (n == Collecting ==> p == Collecting)
    && (p == Aborting ==> n == Aborting)
    && (p.Finished? ==> n == p)
  }

  /** One request changes its phase or is cancelled. */
  lemma RequestStep(s: State, q: Id, r: Request)
    requires Inv(s) && q in s.requests
    requires r.entries == s.requests[q].entries && r.committed == s.requests[q].committed
    requires PhaseMoves(s.requests[q].phase, r.phase) && (s.requests[q].cancelled ==> r.cancelled)
    requires RequestOk(s.(requests := s.requests[q := r]), q)
    ensures StepOk(s, s.(requests := s.requests[q := r]))
  {
    var n := s.(requests := s.requests[q := r]);
    assert OthersOk(n) by { OthersFramed(s, n); }
    assert AllBlobs(n) by { BlobsFramed(s, n); }
    assert AllStagers(n) by { forall b | b in n.stagers ensures StagerOk(n, b) { assert StagerOk(s, b); } }
    assert AllApart(n) by { SameApart(s, n); }
    assert AllRequests(n) by {
      forall x | x in n.requests ensures RequestOk(n, x) {
        if x != q {
          assert RequestOk(s, x);
          forall b | b in n.requests[x].entries ensures EntryOk(n, x, b) { assert EntryOk(s, x, b); }
        }
      }
    }
    assert Later(s, n);
  }

  /** Only the two files of one upload differ. */
  ghost predicate OwnFiles(s: State, b: Id, files: map<Path, nat>)
    requires b in s.stagers
  {
    forall p {:trigger p in files} {:trigger p in s.files} ::
      p != s.stagers[b].storagePath && p != s.stagers[b].stagingPath ==>
      (p in s.files <==> p in files) && (p in s.files ==> files[p] == s.files[p])
  }

  predicate SameStager(a: Stager, b: Stager) {
    a.request == b.request && a.storagePath == b.storagePath && a.stagingPath == b.stagingPath
    && a.declared == b.declared && (a.stage == Placed ==> b.stage == Placed)
  }

  lemma OtherStager(s: State, b: Id, n: State, x: Id)
    requires b in s.stagers && n == s.(stagers := n.stagers, files := n.files) && OwnFiles(s, b, n.files)
    requires x in s.stagers && x != b && x in n.stagers && n.stagers[x] == s.stagers[x]
    requires StagerOk(s, x) && StagersApart(s.stagers[x], s.stagers[b])
    ensures StagerOk(n, x)
  {
  }

  lemma ActiveFile(s: State, b: Id, files: map<Path, nat>, x: Id)
    requires AllBlobs(s) && AllStagers(s) && AllApart(s) && b in s.stagers && OwnFiles(s, b, files)
    requires x in s.db.ledger.blobs && s.db.ledger.blobs[x].status == Active && x != b
    ensures var p := s.db.ledger.blobs[x].storagePath; p in s.files && p in files && files[p] == s.files[p]
  {
    assert BlobOk(s, x);
    assert StagerOk(s, x);
    assert StagersApart(s.stagers[x], s.stagers[b]);
  }

  /** One upload moves on, touching only its own two files. */
  lemma StagerStep(s: State, b: Id, st: Stager, files: map<Path, nat>)
    requires Inv(s) && b in s.stagers && SameStager(s.stagers[b], st) && OwnFiles(s, b, files)
    requires b in s.db.ledger.blobs ==> s.db.ledger.blobs[b].status != Active
    requires StagerOk(s.(stagers := s.stagers[b := st], files := files), b)
    ensures StepOk(s, s.(stagers := s.stagers[b := st], files := files))
  {
    var n := s.(stagers := s.stagers[b := st], files := files);
    assert OthersOk(n) by { OthersFramed(s, n); }
    assert AllBlobs(n) by {
      forall x | x in s.db.ledger.blobs && s.db.ledger.blobs[x].status == Active
        ensures var p := s.db.ledger.blobs[x].storagePath; p in files && (p in s.files ==> files[p] == s.files[p])
      {
        ActiveFile(s, b, files, x);
      }
      BlobsFramed(s, n);
    }
    assert AllStagers(n) by {
      forall x | x in n.stagers ensures StagerOk(n, x) {
        if x != b {
          assert StagerOk(s, x) && StagersApart(s.stagers[x], s.stagers[b]);
          OtherStager(s, b, n, x);
        }
      }
    }
    assert AllApart(n) by {
      forall x, y | x in n.stagers && y in n.stagers && x != y ensures StagersApart(n.stagers[x], n.stagers[y]) {
        assert StagersApart(s.stagers[x], s.stagers[y]);
      }
    }
    assert AllRequests(n) by { RequestsFramed(s, n); }
    assert FilesKnown(n) by { assert StagerOk(s, b); }
    assert Later(s, n);
  }

  lemma DeletedFile(s: State, path: Path, b: Id)
    requires b in s.stagers && StagerOk(s, b)
    requires b in s.db.ledger.blobs && s.db.ledger.blobs[b].storagePath == path && s.db.ledger.blobs[b].status == Staging ==>
      b in s.db.ledger.jobs
    ensures StagerOk(s.(files := s.files - {path}), b)
  {
  }

  /** A file goes away that no publishable upload or active blob needs. */
  lemma FileStep(s: State, path: Path)
    requires Inv(s)
    requires forall b :: b in s.db.ledger.blobs && s.db.ledger.blobs[b].storagePath == path ==>
      s.db.ledger.blobs[b].status != Active && (s.db.ledger.blobs[b].status == Staging ==> b in s.db.ledger.jobs)
    ensures StepOk(s, s.(files := s.files - {path}))
  {
    var n := s.(files := s.files - {path});
    assert OthersOk(n) by { OthersFramed(s, n); }
    assert AllBlobs(n) by { BlobsFramed(s, n); }
    assert AllStagers(n) by {
      forall x | x in n.stagers ensures StagerOk(n, x) {
        assert StagerOk(s, x);
        DeletedFile(s, path, x);
      }
    }
    assert AllRequests(n) by { RequestsFramed(s, n); }
    assert AllApart(n) by { SameApart(s, n); }
    assert Later(s, n) by { OnlyClients(s, n); }
  }
}
