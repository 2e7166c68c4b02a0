/** Publishing, and confirming a publish whose reply was lost, keep the system invariant. */
module ProtocolPublish {
  import opened Common
  import opened LedgerTransactions
  import opened LedgerInvariant
  import opened BooksKept
  import opened Metadata
  import opened BinGroups
  import opened Protocol
  import opened ProtocolInvariant
  import opened ProtocolLocal
  import opened ProtocolSteps
  import opened ProtocolUploads

  lemma {:induction false} UploadItemsAre(s: State, entries: seq<Id>, keys: seq<Key>, attrs: seq<Attrs>)
    requires |keys| == |attrs| == |entries| && forall b :: b in entries ==> b in s.stagers
    ensures var items := UploadItems(s, entries, keys, attrs);
      |items| == |entries| && forall i :: 0 <= i < |items| ==>
        var st := s.stagers[entries[i]];
        items[i] == Item(keys[i], Activation(entries[i], st.Size()), File(st.storagePath, st.Size(), attrs[i]))
    decreases |entries|
  {
    if entries != [] { UploadItemsAre(s, entries[1..], keys[1..], attrs[1..]); }
  }

  // --------------------------------------------------- what the commit changes

  /** The rows of one upload leave `staging` together; nothing else is published. */
  ghost predicate Commits(s: State, n: State, q: Id) {
    && InPhase(s, q, Ready) && !s.requests[q].cancelled
    && n == s.(db := n.db, requests := n.requests)
    && q in n.requests && n.requests == s.requests[q := s.requests[q].(committed := true, phase := n.requests[q].phase)]
    && (n.requests[q].phase == Unsure || n.requests[q].phase == Finished(Acknowledged))
    && n.db.bin == s.db.bin && n.db.nextBinId == s.db.nextBinId
    && Moves(s.db.ledger, n.db.ledger, NOTHING.(activated := Entries(s, q)))
    && JobsOk(n.db.ledger)
    && (forall b {:trigger b in s.requests[q].entries} :: b in s.requests[q].entries ==> Uploaded(s, n, b))
  }

  predicate Uploaded(s: State, n: State, b: Id) {
    && b in n.db.ledger.blobs && b in s.stagers
    && n.db.ledger.blobs[b].status == Active && n.db.ledger.blobs[b].size == s.stagers[b].Size()
    && n.db.ledger.blobs[b].refCount == 1 && n.db.ledger.blobs[b].stagingPath.None?
    && b in s.db.ledger.blobs && s.db.ledger.blobs[b].status == Staging
  }

  lemma CommittedBlob(s: State, n: State, q: Id, b: Id)
    requires Commits(s, n, q) && AllBlobs(s) && AllStagers(s) && AllRequests(s) && b in n.db.ledger.blobs
    ensures BlobOk(n, b)
  {
    assert b in s.db.ledger.blobs && BlobOk(s, b);
    var was, becomes := s.db.ledger.blobs[b], n.db.ledger.blobs[b];
    assert RowMoves(was, becomes, b in Entries(s, q));
    if becomes.status == Active && was.status == Staging {
      assert RequestOk(s, q) && EntryOk(s, q, b) && StagerOk(s, b) && Uploaded(s, n, b);
    }
  }

  lemma CommittedStager(s: State, n: State, q: Id, b: Id)
    requires Commits(s, n, q) && b in s.stagers && StagerOk(s, b) && RequestOk(s, q)
    ensures StagerOk(n, b)
  {
    if b in n.db.ledger.blobs {
      assert b in s.requests[q].entries ==> Uploaded(s, n, b) && EntryOk(s, q, b);
      assert b in s.db.ledger.blobs;
      assert RowMoves(s.db.ledger.blobs[b], n.db.ledger.blobs[b], b in Entries(s, q));
    }
  }

  lemma CommittedRequest(s: State, n: State, q: Id, x: Id)
    requires Commits(s, n, q) && x in s.requests && RequestOk(s, x) && RequestOk(s, q)
    ensures RequestOk(n, x)
  {
    forall b | b in s.requests[x].entries ensures EntryOk(n, x, b) {
      assert EntryOk(s, x, b);
      assert b in s.requests[q].entries ==> EntryOk(s, q, b);
      if b in n.db.ledger.blobs {
        assert b in s.db.ledger.blobs;
        assert RowMoves(s.db.ledger.blobs[b], n.db.ledger.blobs[b], b in Entries(s, q));
      }
      if x == q { assert Uploaded(s, n, b); }
    }
  }

  lemma CommittedWorker(s: State, n: State, q: Id, t: Id)
    requires Commits(s, n, q) && t in s.workers && WorkerOk(s, t)
    ensures WorkerOk(n, t)
  {
    var w := s.workers[t];
    if w.seen.Some? {
      forall b | b in n.db.ledger.blobs && Live(n.db.ledger.blobs[b]) && b != w.job
        ensures Apart(n.db.ledger.blobs[b], w.seen.value)
      {
        assert b in s.db.ledger.blobs;
        assert RowMoves(s.db.ledger.blobs[b], n.db.ledger.blobs[b], b in Entries(s, q));
        assert Apart(s.db.ledger.blobs[b], w.seen.value);
      }
    }
  }

  lemma CommittedScan(s: State, n: State, q: Id, c: Id)
    requires Commits(s, n, q) && c in s.scans && ScanOk(s, c)
    ensures ScanOk(n, c)
  {
    forall p, b | p in s.scans[c].checked && b in n.db.ledger.blobs
      ensures n.db.ledger.blobs[b].stagingPath != Some(p)
    {
      assert b in s.db.ledger.blobs;
      assert RowMoves(s.db.ledger.blobs[b], n.db.ledger.blobs[b], b in Entries(s, q));
    }
  }

  lemma CommittedLater(s: State, n: State, q: Id)
    requires Commits(s, n, q)
    ensures Later(s, n)
  {
    forall b | b in s.db.ledger.blobs && b in n.db.ledger.blobs && s.db.ledger.blobs[b].status == PendingDelete
      ensures n.db.ledger.blobs[b].status == PendingDelete
    {
      assert RowMoves(s.db.ledger.blobs[b], n.db.ledger.blobs[b], b in Entries(s, q));
    }
  }

  lemma CommitsOk(s: State, n: State, q: Id)
    requires Inv(s) && Commits(s, n, q) && DbOk(n)
    ensures StepOk(s, n)
  {
    assert AllBlobs(n) by { forall b | b in n.db.ledger.blobs ensures BlobOk(n, b) { CommittedBlob(s, n, q, b); } }
    assert AllStagers(n) by {
      assert RequestOk(s, q);
      forall b | b in n.stagers ensures StagerOk(n, b) { assert StagerOk(s, b); CommittedStager(s, n, q, b); }
    }
    assert AllRequests(n) by {
      assert RequestOk(s, q);
      forall x | x in n.requests ensures RequestOk(n, x) { assert RequestOk(s, x); CommittedRequest(s, n, q, x); }
    }
    assert AllWorkers(n) by {
      forall t | t in n.workers ensures WorkerOk(n, t) { assert WorkerOk(s, t); CommittedWorker(s, n, q, t); }
    }
    assert AllTokens(n) by {
      forall b | b in n.db.ledger.jobs ensures TokenOk(n, b) { assert b in s.db.ledger.jobs ==> TokenOk(s, b); }
    }
    assert AllScans(n) by {
      forall c | c in n.scans ensures ScanOk(n, c) { assert ScanOk(s, c); CommittedScan(s, n, q, c); }
    }
    assert AllCalls(n) by { forall c | c in n.calls ensures CallOk(n, c) { assert CallOk(s, c); } }
    assert AllApart(n) by { SameApart(s, n); }
    assert Later(s, n) by { CommittedLater(s, n, q); }
  }

  // ---------------------------------------------------------------- publishing

  lemma UploadItemsOk(s: State, q: Id, keys: seq<Key>, attrs: seq<Attrs>)
    requires AllStagers(s) && AllRequests(s) && InPhase(s, q, Ready) && !s.requests[q].cancelled
    requires |keys| == |attrs| == |s.requests[q].entries| && Distinct(keys)
    requires forall b :: b in s.requests[q].entries ==> b in s.stagers
    ensures var items := UploadItems(s, s.requests[q].entries, keys, attrs);
      && DistinctKeys(items)
      && ItemIds(items) == Entries(s, q)
      && (forall t :: t in items ==> ItemOk(s.db.ledger, t) && t.act.id in s.stagers && t.act.actual == s.stagers[t.act.id].Size())
  {
    var entries := s.requests[q].entries;
    var items := UploadItems(s, entries, keys, attrs);
    UploadItemsAre(s, entries, keys, attrs);
    forall t | t in items
      ensures ItemOk(s.db.ledger, t) && t.act.id in s.stagers && t.act.actual == s.stagers[t.act.id].Size()
    {
      var i :| 0 <= i < |items| && items[i] == t;
      assert entries[i] in entries && RequestOk(s, q) && EntryOk(s, q, entries[i]) && StagerOk(s, entries[i]);
    }
    forall b | b in entries ensures b in ItemIds(items) {
      var i :| 0 <= i < |entries| && entries[i] == b;
      assert items[i] in items && items[i].act.id == b;
    }
  }

  lemma PublishCommits(s: State, n: State, q: Id, items: seq<Item>)
    requires InPhase(s, q, Ready) && !s.requests[q].cancelled
    requires n == s.(db := n.db, requests := n.requests)
    requires q in n.requests && n.requests == s.requests[q := s.requests[q].(committed := true, phase := n.requests[q].phase)]
    requires n.requests[q].phase == Unsure || n.requests[q].phase == Finished(Acknowledged)
    requires n.db.bin == s.db.bin && n.db.nextBinId == s.db.nextBinId && JobsOk(n.db.ledger)
    requires ItemIds(items) == Entries(s, q)
    requires forall t :: t in items ==> t.act.id in s.stagers && t.act.actual == s.stagers[t.act.id].Size()
    requires Moves(s.db.ledger, n.db.ledger, NOTHING.(activated := ItemIds(items)))
    requires forall t :: t in items ==> Published(s.db.ledger, n.db.ledger, t)
    ensures Commits(s, n, q)
  {
    forall b | b in s.requests[q].entries ensures Uploaded(s, n, b) {
      assert b in ItemIds(items);
      var t :| t in items && t.act.id == b;
      assert Published(s.db.ledger, n.db.ledger, t);
    }
  }

  lemma PublishOk(s: State, q: Id, keys: seq<Key>, attrs: seq<Attrs>, overwrite: bool, now: Time, heard: bool)
    requires Inv(s)
    ensures StepOk(s, PublishUpload(s, q, keys, attrs, overwrite, now, heard))
  {
    if !CanPublish(s, q, keys, attrs) {
      Stays(s);
    } else {
      var items := UploadItems(s, s.requests[q].entries, keys, attrs);
      if Publish(s.db, items, overwrite, now).Failed? {
        PhaseStep(s, q, s.requests[q].(phase := Unsure));
      } else {
        assert UploadFits(s, q, items) by { UploadItemsOk(s, q, keys, attrs); }
        Committing(s, q, items, overwrite, now, if heard then Finished(Acknowledged) else Unsure);
      }
    }
  }

  ghost predicate UploadFits(s: State, q: Id, items: seq<Item>)
    requires q in s.requests
  {
    && DistinctKeys(items)
    && ItemIds(items) == Entries(s, q)
    && (forall t :: t in items ==> ItemOk(s.db.ledger, t) && t.act.id in s.stagers && t.act.actual == s.stagers[t.act.id].Size())
  }

  lemma Committing(s: State, q: Id, items: seq<Item>, overwrite: bool, now: Time, p: Phase)
    requires Inv(s) && InPhase(s, q, Ready) && !s.requests[q].cancelled && UploadFits(s, q, items)
    requires Publish(s.db, items, overwrite, now).Done? && (p == Unsure || p == Finished(Acknowledged))
    ensures StepOk(s, s.(db := Publish(s.db, items, overwrite, now).db,
                         requests := s.requests[q := s.requests[q].(committed := true, phase := p)]))
  {
    var d := Publish(s.db, items, overwrite, now).db;
    var n := s.(db := d, requests := s.requests[q := s.requests[q].(committed := true, phase := p)]);
    PublishKeeps(s.db, items, overwrite, now);
    assert Commits(s, n, q) by { PublishCommits(s, n, q, items); }
    assert DbOk(n);
    CommitsOk(s, n, q);
  }

  // ---------------------------------------------------------------- confirming

  /** All rows still staging means the publish did not commit; sealed, they never will be. */
  lemma SealedRequest(s: State, q: Id, l: Ledger, now: Time, heard: bool)
    requires InPhase(s, q, Unsure) && RequestOk(s, q) && s.requests[q].entries != [] && AllRolledBack(s, q)
    requires SealWithJobs(s.db.ledger, Entries(s, q), now) == Ok(l)
    ensures RequestOk(Report(WithLedger(s, l), q, RolledBack, heard), q)
  {
    var entries := s.requests[q].entries;
    var n := Report(WithLedger(s, l), q, RolledBack, heard);
    assert !s.requests[q].committed by {
      assert entries[0] in entries && EntryOk(s, q, entries[0]) && SeenRolledBack(s, entries[0]);
    }
    forall b | b in entries ensures EntryOk(n, q, b) {
      assert EntryOk(s, q, b) && b in Entries(s, q);
    }
  }

  lemma ConfirmRollback(s: State, q: Id, l: Ledger, now: Time, heard: bool)
    requires Inv(s) && InPhase(s, q, Unsure) && s.requests[q].entries != [] && AllRolledBack(s, q)
    requires SealWithJobs(s.db.ledger, Entries(s, q), now) == Ok(l)
    ensures StepOk(s, Report(WithLedger(s, l), q, RolledBack, heard))
  {
    var m := WithLedger(s, l);
    var n := Report(m, q, RolledBack, heard);
    assert StepOk(s, m) by {
      SealKeeps(s.db.ledger, Refs(s.db), Entries(s, q), now);
      LedgerStep(s, l, NOTHING);
    }
    assert StepOk(m, n) by {
      assert RequestOk(s, q);
      SealedRequest(s, q, l, now, heard);
      RequestStep(m, q, n.requests[q]);
    }
    StepThen(s, m, n);
  }

  /** A published row means the publish committed. */
  lemma ConfirmCommit(s: State, q: Id, heard: bool)
    requires Inv(s) && InPhase(s, q, Unsure) && s.requests[q].entries != [] && AllCommitted(s, q)
    ensures StepOk(s, Report(s, q, Committed, heard))
  {
    var entries := s.requests[q].entries;
    var n := Report(s, q, Committed, heard);
    assert RequestOk(n, q) by {
      assert RequestOk(s, q) && entries[0] in entries && EntryOk(s, q, entries[0]) && SeenCommitted(s, entries[0]);
      forall b | b in entries ensures EntryOk(n, q, b) { assert EntryOk(s, q, b); }
    }
    RequestStep(s, q, n.requests[q]);
  }

  lemma ConfirmUnknown(s: State, q: Id, heard: bool)
    requires Inv(s) && InPhase(s, q, Unsure)
    ensures StepOk(s, Report(s, q, Unknown, heard))
  {
    PhaseStep(s, q, s.requests[q].(phase := Finished(Unknown)));
  }

  lemma ConfirmOk(s: State, q: Id, now: Time, reply: Reply)
    requires Inv(s)
    ensures StepOk(s, Confirm(s, q, now, reply))
  {
    var heard := reply == Answered;
    if !InPhase(s, q, Unsure) {
      Stays(s);
    } else if reply == Broken || s.requests[q].entries == [] {
      ConfirmUnknown(s, q, heard);
    } else if AllCommitted(s, q) {
      ConfirmCommit(s, q, heard);
    } else if AllRolledBack(s, q) && SealWithJobs(s.db.ledger, Entries(s, q), now).Ok? {
      ConfirmRollback(s, q, SealWithJobs(s.db.ledger, Entries(s, q), now).ledger, now, heard);
    } else {
      ConfirmUnknown(s, q, heard);
    }
  }
}
