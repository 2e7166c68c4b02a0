/** Steps that change only the database keep the invariant of every client. */
module ProtocolDbSteps {
  import opened Common
  import opened LedgerTransactions
  import opened LedgerInvariant
  import opened BooksKept
  import opened FolderPaths
  import opened Metadata
  import opened BinGroups
  import opened Protocol
  import opened ProtocolInvariant

  /** Rows of the bin stay as they are, go away, or are new in a new group. */
  predicate BinGrows(s: State, d: Db) {
    && s.db.nextBinId <= d.nextBinId
    && (forall i :: i in d.bin ==>
         (i in s.db.bin && d.bin[i] == s.db.bin[i]) || (i >= s.db.nextBinId && d.bin[i].group !in s.issued))
  }

  /** What a database step must show to leave all clients in order. */
  ghost predicate DbStep(s: State, n: State, c: Change) {
    && n == s.(db := n.db, issued := n.issued) && s.issued <= n.issued
    && Moves(s.db.ledger, n.db.ledger, c)
    && c.activated == {} && c.newPaths == {} && c.claim.None?
    && JobsOk(n.db.ledger)
    && (forall b :: b in c.created ==> b !in s.issued)
    && (forall b :: b in n.db.ledger.blobs && b !in s.db.ledger.blobs ==>
         b in n.issued && n.db.ledger.blobs[b].storagePath in n.issued && n.db.ledger.blobs[b].stagingPath.None?)
    && (forall b :: b in c.jobbed ==> GivenUp(s, b))
    && BinGrows(s, n.db)
  }

  lemma DbBlobs(s: State, n: State, c: Change, b: Id)
    requires DbStep(s, n, c) && b in n.db.ledger.blobs
    requires b in s.db.ledger.blobs ==> BlobOk(s, b)
    ensures BlobOk(n, b)
  {
    if b in s.db.ledger.blobs {
      assert RowMoves(s.db.ledger.blobs[b], n.db.ledger.blobs[b], b in c.activated);
    }
  }

  lemma DbStagers(s: State, n: State, c: Change, b: Id)
    requires DbStep(s, n, c) && b in s.stagers && StagerOk(s, b)
    ensures StagerOk(n, b)
  {
    if b in n.db.ledger.blobs {
      assert b in s.db.ledger.blobs;
      assert RowMoves(s.db.ledger.blobs[b], n.db.ledger.blobs[b], b in c.activated);
    }
  }

  lemma DbRequests(s: State, n: State, c: Change, q: Id)
    requires DbStep(s, n, c) && q in s.requests && RequestOk(s, q)
    requires forall b :: b in s.stagers ==> b in s.issued
    ensures RequestOk(n, q)
  {
    forall b | b in s.requests[q].entries ensures EntryOk(n, q, b) {
      assert EntryOk(s, q, b);
      if b in n.db.ledger.blobs {
        assert b in s.db.ledger.blobs;
        assert RowMoves(s.db.ledger.blobs[b], n.db.ledger.blobs[b], b in c.activated);
      }
    }
  }

  lemma DbWorkers(s: State, n: State, c: Change, t: Id)
    requires DbStep(s, n, c) && t in s.workers && WorkerOk(s, t)
    ensures WorkerOk(n, t)
  {
    var w := s.workers[t];
    if w.seen.Some? {
      forall b | b in n.db.ledger.blobs && Live(n.db.ledger.blobs[b]) && b != w.job
        ensures Apart(n.db.ledger.blobs[b], w.seen.value)
      {
        assert b in s.db.ledger.blobs;
        assert RowMoves(s.db.ledger.blobs[b], n.db.ledger.blobs[b], b in c.activated);
        assert Apart(s.db.ledger.blobs[b], w.seen.value);
      }
    }
  }

  lemma DbTokens(s: State, n: State, c: Change, b: Id)
    requires DbStep(s, n, c) && b in n.db.ledger.jobs
    requires b in s.db.ledger.jobs ==> TokenOk(s, b)
    ensures TokenOk(n, b)
  {
  }

  lemma DbScans(s: State, n: State, c: Change, x: Id)
    requires DbStep(s, n, c) && x in s.scans && ScanOk(s, x)
    ensures ScanOk(n, x)
  {
    forall p, b | p in s.scans[x].checked && b in n.db.ledger.blobs
      ensures n.db.ledger.blobs[b].stagingPath != Some(p)
    {
      if b in s.db.ledger.blobs {
        assert RowMoves(s.db.ledger.blobs[b], n.db.ledger.blobs[b], b in c.activated);
      }
    }
  }

  lemma DbCalls(s: State, n: State, c: Change, k: Id)
    requires DbStep(s, n, c) && k in s.calls && CallOk(s, k)
    ensures CallOk(n, k)
  {
  }

  lemma DbLater(s: State, n: State, c: Change)
    requires DbStep(s, n, c)
    ensures Later(s, n)
  {
    forall b | b in s.db.ledger.blobs && b in n.db.ledger.blobs && s.db.ledger.blobs[b].status == PendingDelete
      ensures n.db.ledger.blobs[b].status == PendingDelete
    {
      assert RowMoves(s.db.ledger.blobs[b], n.db.ledger.blobs[b], b in c.activated);
    }
  }

  lemma DbStepOk(s: State, n: State, c: Change)
    requires Inv(s) && DbStep(s, n, c) && DbOk(n)
    ensures StepOk(s, n)
  {
    assert AllBlobs(n) by {
      forall b | b in n.db.ledger.blobs ensures BlobOk(n, b) {
        assert b in s.db.ledger.blobs ==> BlobOk(s, b);
        DbBlobs(s, n, c, b);
      }
    }
    assert AllStagers(n) by {
      forall b | b in n.stagers ensures StagerOk(n, b) { assert StagerOk(s, b); DbStagers(s, n, c, b); }
    }
    assert AllRequests(n) by {
      forall b | b in s.stagers ensures b in s.issued { assert StagerOk(s, b); }
      forall q | q in n.requests ensures RequestOk(n, q) { assert RequestOk(s, q); DbRequests(s, n, c, q); }
    }
    assert AllWorkers(n) by {
      forall t | t in n.workers ensures WorkerOk(n, t) { assert WorkerOk(s, t); DbWorkers(s, n, c, t); }
    }
    assert AllTokens(n) by {
      forall b | b in n.db.ledger.jobs ensures TokenOk(n, b) {
        assert b in s.db.ledger.jobs ==> TokenOk(s, b);
        DbTokens(s, n, c, b);
      }
    }
    assert AllScans(n) by { forall x | x in n.scans ensures ScanOk(n, x) { assert ScanOk(s, x); DbScans(s, n, c, x); } }
    assert AllCalls(n) by { forall k | k in n.calls ensures CallOk(n, k) { assert CallOk(s, k); DbCalls(s, n, c, k); } }
    assert Later(s, n) by { DbLater(s, n, c); }
    assert AllApart(n) by {
      forall a, b | a in n.stagers && b in n.stagers && a != b ensures StagersApart(n.stagers[a], n.stagers[b]) {
        assert StagersApart(s.stagers[a], s.stagers[b]);
      }
    }
  }
}
