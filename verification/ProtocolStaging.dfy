/** Inserting the staging rows of an upload keeps the system invariant. */
module ProtocolStaging {
  import opened Common
  import opened LedgerTransactions
  import opened LedgerInvariant
  import opened BooksKept
  import opened Metadata
  import opened BinGroups
  import opened Protocol
  import opened ProtocolInvariant
  import opened ProtocolLocal
  import opened ProtocolSteps


  lemma {:induction false} NewRowsAre(ds: seq<Draft>)
    ensures |NewRows(ds)| == |ds| && |DraftIds(ds)| == |ds|
    ensures forall i :: 0 <= i < |ds| ==> NewRows(ds)[i] == NewRow(ds[i]) && DraftIds(ds)[i] == ds[i].id
  {
    if ds != [] { NewRowsAre(ds[1..]); }
  }

  lemma {:induction false} AddStagersAre(stagers: map<Id, Stager>, q: Id, ds: seq<Draft>)
    requires forall i, j :: 0 <= i < j < |ds| ==> DraftsApart(ds[i], ds[j])
    ensures forall b :: b in AddStagers(stagers, q, ds) <==> b in stagers || exists i :: 0 <= i < |ds| && ds[i].id == b
    ensures forall i :: 0 <= i < |ds| ==> ds[i].id in AddStagers(stagers, q, ds) && AddStagers(stagers, q, ds)[ds[i].id] == NewStager(q, ds[i])
    ensures forall b :: b in stagers && (forall i :: 0 <= i < |ds| ==> ds[i].id != b) ==>
      b in AddStagers(stagers, q, ds) && AddStagers(stagers, q, ds)[b] == stagers[b]
    decreases |ds|
  {
    if ds != [] {
      var next := stagers[ds[0].id := NewStager(q, ds[0])];
      forall i, j | 0 <= i < j < |ds[1..]| ensures DraftsApart(ds[1..][i], ds[1..][j]) {
        assert DraftsApart(ds[i + 1], ds[j + 1]);
      }
      AddStagersAre(next, q, ds[1..]);
      var r := AddStagers(next, q, ds[1..]);
      forall i | 0 <= i < |ds[1..]| ensures ds[1..][i].id != ds[0].id { assert DraftsApart(ds[0], ds[i + 1]); }
      assert ds[0].id in r && r[ds[0].id] == NewStager(q, ds[0]);
      forall i | 0 <= i < |ds| ensures ds[i].id in r && r[ds[i].id] == NewStager(q, ds[i]) {
        if i > 0 { assert ds[1..][i - 1] == ds[i]; }
      }
      forall b | b in r ensures b in stagers || exists i :: 0 <= i < |ds| && ds[i].id == b {
        if b !in stagers && b != ds[0].id {
          var i :| 0 <= i < |ds[1..]| && ds[1..][i].id == b;
          assert ds[i + 1].id == b;
        } else if b !in stagers {
          assert ds[0].id == b;
        }
      }
      forall b | b in stagers && (forall i :: 0 <= i < |ds| ==> ds[i].id != b) ensures b in r && r[b] == stagers[b] {
        forall i | 0 <= i < |ds[1..]| ensures ds[1..][i].id != b { assert ds[i + 1].id != b; }
        assert ds[0].id != b;
      }
    }
  }

  lemma DraftRowsFresh(s: State, ds: seq<Draft>)
    requires AllBlobs(s) && JobsOk(s.db.ledger) && FreshDrafts(s, ds)
    ensures FreshRows(s.db.ledger, NewRows(ds))
  {
    var rows := NewRows(ds);
    NewRowsAre(ds);
    forall n | n in rows ensures FreshRow(s.db.ledger, n) {
      var i :| 0 <= i < |rows| && rows[i] == n;
      assert DraftFresh(s, ds[i]);
      forall b | b in s.db.ledger.blobs
        ensures b != n.id && !s.db.ledger.blobs[b].Holds(n.storagePath) && !s.db.ledger.blobs[b].Holds(n.stagingPath)
      {
        assert BlobOk(s, b);
      }
    }
    forall i, j | 0 <= i < j < |rows| ensures NoNameShared(rows[i], rows[j]) { assert DraftsApart(ds[i], ds[j]); }
  }

  // -------------------------------------------------------- what the step adds

  ghost predicate NewId(ds: seq<Draft>, b: Id) { exists i :: 0 <= i < |ds| && ds[i].id == b }

  /** Nothing known before has the identifier of a draft. */
  lemma NotNew(s: State, ds: seq<Draft>, b: Id)
    requires FreshDrafts(s, ds) && b in s.issued
    ensures !NewId(ds, b)
  {
    forall i | 0 <= i < |ds| ensures ds[i].id != b { assert DraftFresh(s, ds[i]); }
  }

  /** Draft i has its row and its stager. */
  predicate Added(n: State, q: Id, d: Draft, now: Time, until: Time) {
    && d.id in n.issued && d.storagePath in n.issued && d.stagingPath in n.issued
    && d.id in n.db.ledger.blobs && n.db.ledger.blobs[d.id] == StagingRow(NewRow(d), now, until)
    && d.id in n.stagers && n.stagers[d.id] == NewStager(q, d)
  }

  ghost predicate Grown(s: State, n: State, q: Id, ds: seq<Draft>, now: Time, until: Time) {
    && InPhase(s, q, Collecting)
    && n == s.(db := s.db.(ledger := n.db.ledger), stagers := n.stagers, requests := n.requests, issued := n.issued)
    && n.requests == s.requests[q := s.requests[q].(entries := s.requests[q].entries + DraftIds(ds))]
    && s.issued <= n.issued && n.db.ledger.jobs == s.db.ledger.jobs
    && FreshDrafts(s, ds)
    && (forall i {:trigger ds[i]} :: 0 <= i < |ds| ==> Added(n, q, ds[i], now, until))
    && (forall b :: b in s.db.ledger.blobs ==> b in n.db.ledger.blobs && n.db.ledger.blobs[b] == s.db.ledger.blobs[b])
    && (forall b :: b in s.stagers ==> b in n.stagers && n.stagers[b] == s.stagers[b])
    && (forall b :: b in n.db.ledger.blobs && b !in s.db.ledger.blobs ==> NewId(ds, b))
    && (forall b :: b in n.stagers && b !in s.stagers ==> NewId(ds, b))
  }

  lemma OldStagersKnown(s: State)
    requires AllStagers(s)
    ensures forall b :: b in s.stagers ==> b in s.issued
  {
    forall b | b in s.stagers ensures b in s.issued { assert StagerOk(s, b); }
  }

  lemma OldBlobsKnown(s: State)
    requires AllBlobs(s)
    ensures forall b :: b in s.db.ledger.blobs ==> b in s.issued
  {
    forall b | b in s.db.ledger.blobs ensures b in s.issued { assert BlobOk(s, b); }
  }

  /** The rows of a ledger after the insert, read off the drafts. */
  ghost predicate RowsAre(was: Ledger, l: Ledger, ds: seq<Draft>, now: Time, until: Time) {
    && l.jobs == was.jobs
    && (forall b :: b in was.blobs ==> b in l.blobs && l.blobs[b] == was.blobs[b])
    && (forall i {:trigger ds[i]} :: 0 <= i < |ds| ==>
         ds[i].id in l.blobs && l.blobs[ds[i].id] == StagingRow(NewRow(ds[i]), now, until))
    && (forall b :: b in l.blobs && b !in was.blobs ==> NewId(ds, b))
  }

  lemma ByDraft(was: Ledger, l: Ledger, ds: seq<Draft>, now: Time, until: Time)
    requires l.jobs == was.jobs
    requires forall b :: b in l.blobs <==> b in was.blobs || b in RowIds(NewRows(ds))
    requires forall b :: b in was.blobs ==> l.blobs[b] == was.blobs[b]
    requires forall r :: r in NewRows(ds) ==> r.id in l.blobs && l.blobs[r.id] == StagingRow(r, now, until)
    ensures RowsAre(was, l, ds, now, until)
  {
    var rows := NewRows(ds);
    NewRowsAre(ds);
    forall i | 0 <= i < |ds| ensures ds[i].id in l.blobs && l.blobs[ds[i].id] == StagingRow(NewRow(ds[i]), now, until) {
      assert rows[i] in rows && rows[i] == NewRow(ds[i]);
    }
    forall b | b in l.blobs && b !in was.blobs ensures NewId(ds, b) {
      var n :| n in rows && n.id == b;
      var i :| 0 <= i < |rows| && rows[i] == n;
      assert ds[i].id == b;
    }
  }

  lemma RowsAdded(s: State, l: Ledger, ds: seq<Draft>, now: Time, until: Time)
    requires Books(s.db.ledger, Refs(s.db)) && AllBlobs(s) && FreshDrafts(s, ds) && s.db.ledger.quota.max <= MAX_U64
    requires CreateAll(s.db.ledger, NewRows(ds), now, until) == Ok(l)
    ensures Books(l, Refs(s.db)) && l.quota.max == s.db.ledger.quota.max
    ensures RowsAre(s.db.ledger, l, ds, now, until)
  {
    assert FreshRows(s.db.ledger, NewRows(ds)) by { DraftRowsFresh(s, ds); }
    CreateAllKeeps(s.db.ledger, Refs(s.db), NewRows(ds), now, until);
    ByDraft(s.db.ledger, l, ds, now, until);
  }

  lemma StagersAdded(s: State, q: Id, ds: seq<Draft>)
    requires AllStagers(s) && FreshDrafts(s, ds)
    ensures var n := AddStagers(s.stagers, q, ds);
      && (forall b :: b in s.stagers ==> b in n && n[b] == s.stagers[b])
      && (forall i {:trigger ds[i]} :: 0 <= i < |ds| ==> ds[i].id in n && n[ds[i].id] == NewStager(q, ds[i]))
      && (forall b :: b in n && b !in s.stagers ==> NewId(ds, b))
  {
    OldStagersKnown(s);
    AddStagersAre(s.stagers, q, ds);
    forall b, i | b in s.stagers && 0 <= i < |ds| ensures ds[i].id != b { assert DraftFresh(s, ds[i]); }
  }

  lemma StageRowsGrows(s: State, n: State, q: Id, ds: seq<Draft>, now: Time, until: Time)
    requires AllStagers(s) && InPhase(s, q, Collecting) && FreshDrafts(s, ds)
    requires RowsAre(s.db.ledger, n.db.ledger, ds, now, until)
    requires n == WithLedger(s, n.db.ledger).(
        stagers := AddStagers(s.stagers, q, ds),
        requests := s.requests[q := s.requests[q].(entries := s.requests[q].entries + DraftIds(ds))],
        issued := s.issued + NamesOf(ds))
    ensures Grown(s, n, q, ds, now, until)
  {
    StagersAdded(s, q, ds);
    forall i | 0 <= i < |ds| ensures Added(n, q, ds[i], now, until) { assert ds[i] in ds; }
  }

  // --------------------------------------------------------- the invariant kept

  lemma GrownBlobs(s: State, n: State, q: Id, ds: seq<Draft>, now: Time, until: Time)
    requires Grown(s, n, q, ds, now, until) && AllBlobs(s)
    ensures AllBlobs(n)
  {
    forall b | b in n.db.ledger.blobs ensures BlobOk(n, b) {
      if b in s.db.ledger.blobs {
        assert BlobOk(s, b);
      } else {
        var i :| 0 <= i < |ds| && ds[i].id == b;
        assert Added(n, q, ds[i], now, until);
      }
    }
  }

  /** A row that was there before is not one of the new rows. */
  lemma OldStager(s: State, n: State, q: Id, ds: seq<Draft>, now: Time, until: Time, b: Id)
    requires Grown(s, n, q, ds, now, until) && b in s.stagers && StagerOk(s, b)
    ensures StagerOk(n, b)
  {
    NotNew(s, ds, b);
  }

  lemma NewStagerOk(s: State, n: State, q: Id, ds: seq<Draft>, now: Time, until: Time, i: nat)
    requires Grown(s, n, q, ds, now, until) && i < |ds| && FilesKnown(s)
    requires ds[i].id !in s.db.ledger.jobs
    ensures StagerOk(n, ds[i].id)
  {
    assert Added(n, q, ds[i], now, until) && DraftFresh(s, ds[i]);
    NewRowsAre(ds);
    assert DraftIds(ds)[i] in n.requests[q].entries;
  }

  lemma GrownStagers(s: State, n: State, q: Id, ds: seq<Draft>, now: Time, until: Time)
    requires Grown(s, n, q, ds, now, until) && AllStagers(s) && AllBlobs(s) && FilesKnown(s) && JobsOk(s.db.ledger)
    ensures AllStagers(n)
  {
    OldBlobsKnown(s);
    forall b | b in n.stagers ensures StagerOk(n, b) {
      if b in s.stagers {
        assert StagerOk(s, b);
        OldStager(s, n, q, ds, now, until, b);
      } else {
        var i :| 0 <= i < |ds| && ds[i].id == b;
        assert DraftFresh(s, ds[i]);
        NewStagerOk(s, n, q, ds, now, until, i);
      }
    }
  }

  lemma OldAndNewApart(s: State, st: Stager, q: Id, d: Draft)
    requires st.storagePath in s.issued && st.stagingPath in s.issued && DraftFresh(s, d)
    ensures StagersApart(st, NewStager(q, d)) && StagersApart(NewStager(q, d), st)
  {
  }

  lemma GrownApart(s: State, n: State, q: Id, ds: seq<Draft>, now: Time, until: Time)
    requires Grown(s, n, q, ds, now, until) && AllStagers(s) && AllApart(s)
    ensures AllApart(n)
  {
    forall a, b | a in n.stagers && b in n.stagers && a != b ensures StagersApart(n.stagers[a], n.stagers[b]) {
      if a in s.stagers && b in s.stagers {
        assert StagersApart(s.stagers[a], s.stagers[b]);
      } else if a in s.stagers {
        var j :| 0 <= j < |ds| && ds[j].id == b;
        assert StagerOk(s, a) && DraftFresh(s, ds[j]) && Added(n, q, ds[j], now, until);
        OldAndNewApart(s, s.stagers[a], q, ds[j]);
      } else if b in s.stagers {
        var i :| 0 <= i < |ds| && ds[i].id == a;
        assert StagerOk(s, b) && DraftFresh(s, ds[i]) && Added(n, q, ds[i], now, until);
        OldAndNewApart(s, s.stagers[b], q, ds[i]);
      } else {
        var i :| 0 <= i < |ds| && ds[i].id == a;
        var j :| 0 <= j < |ds| && ds[j].id == b;
        assert Added(n, q, ds[i], now, until) && Added(n, q, ds[j], now, until);
        assert if i < j then DraftsApart(ds[i], ds[j]) else DraftsApart(ds[j], ds[i]);
      }
    }
  }

  lemma GrownDistinct(s: State, ds: seq<Draft>, entries: seq<Id>)
    requires Distinct(entries) && FreshDrafts(s, ds) && forall b :: b in entries ==> b in s.issued
    ensures Distinct(entries + DraftIds(ds))
  {
    NewRowsAre(ds);
    var all := entries + DraftIds(ds);
    forall i, j | 0 <= i < j < |all| ensures all[i] != all[j] {
      if j >= |entries| {
        assert DraftFresh(s, ds[j - |entries|]);
        if i >= |entries| { assert DraftsApart(ds[i - |entries|], ds[j - |entries|]); }
        else { assert all[i] in entries; }
      }
    }
  }

  lemma GrownEntry(s: State, n: State, q: Id, ds: seq<Draft>, now: Time, until: Time, x: Id, b: Id)
    requires Grown(s, n, q, ds, now, until) && x in s.requests && b in s.issued && EntryOk(s, x, b)
    ensures EntryOk(n, x, b)
  {
    NotNew(s, ds, b);
  }

  lemma NewEntry(s: State, n: State, q: Id, ds: seq<Draft>, now: Time, until: Time, b: Id)
    requires Grown(s, n, q, ds, now, until) && b in DraftIds(ds) && !s.requests[q].committed
    ensures EntryOk(n, q, b)
  {
    NewRowsAre(ds);
    var i :| 0 <= i < |ds| && DraftIds(ds)[i] == b;
    assert Added(n, q, ds[i], now, until);
  }

  lemma GrownRequests(s: State, n: State, q: Id, ds: seq<Draft>, now: Time, until: Time)
    requires Grown(s, n, q, ds, now, until) && AllRequests(s) && AllStagers(s)
    ensures AllRequests(n)
  {
    OldStagersKnown(s);
    forall x | x in n.requests ensures RequestOk(n, x) {
      assert RequestOk(s, x);
      forall b | b in s.requests[x].entries ensures b in s.issued && EntryOk(n, x, b) {
        assert EntryOk(s, x, b);
        GrownEntry(s, n, q, ds, now, until, x, b);
      }
      if x == q {
        GrownDistinct(s, ds, s.requests[q].entries);
        forall b | b in n.requests[q].entries ensures EntryOk(n, q, b) {
          if b !in s.requests[q].entries { NewEntry(s, n, q, ds, now, until, b); }
        }
      }
    }
  }

  lemma GrownWorker(s: State, n: State, q: Id, ds: seq<Draft>, now: Time, until: Time, t: Id)
    requires Grown(s, n, q, ds, now, until) && t in s.workers && WorkerOk(s, t)
    ensures WorkerOk(n, t)
  {
    var w := s.workers[t];
    NotNew(s, ds, w.job);
    if w.seen.Some? {
      forall b | b in n.db.ledger.blobs && Live(n.db.ledger.blobs[b]) && b != w.job
        ensures Apart(n.db.ledger.blobs[b], w.seen.value)
      {
        if b !in s.db.ledger.blobs {
          var i :| 0 <= i < |ds| && ds[i].id == b;
          assert DraftFresh(s, ds[i]) && Added(n, q, ds[i], now, until);
        }
      }
    }
  }

  lemma GrownScan(s: State, n: State, q: Id, ds: seq<Draft>, now: Time, until: Time, c: Id)
    requires Grown(s, n, q, ds, now, until) && c in s.scans && ScanOk(s, c)
    ensures ScanOk(n, c)
  {
    forall p, b | p in s.scans[c].checked && b in n.db.ledger.blobs
      ensures n.db.ledger.blobs[b].stagingPath != Some(p)
    {
      if b !in s.db.ledger.blobs {
        var i :| 0 <= i < |ds| && ds[i].id == b;
        assert DraftFresh(s, ds[i]) && Added(n, q, ds[i], now, until);
      }
    }
  }

  lemma GrownOthers(s: State, n: State, q: Id, ds: seq<Draft>, now: Time, until: Time)
    requires Grown(s, n, q, ds, now, until) && AllWorkers(s) && AllTokens(s) && AllScans(s) && AllCalls(s)
    ensures AllWorkers(n) && AllTokens(n) && AllScans(n) && AllCalls(n)
  {
    assert AllWorkers(n) by {
      forall t | t in n.workers ensures WorkerOk(n, t) { assert WorkerOk(s, t); GrownWorker(s, n, q, ds, now, until, t); }
    }
    assert AllScans(n) by {
      forall c | c in n.scans ensures ScanOk(n, c) { assert ScanOk(s, c); GrownScan(s, n, q, ds, now, until, c); }
    }
    assert AllTokens(n) by { forall b | b in n.db.ledger.jobs ensures TokenOk(n, b) { assert TokenOk(s, b); } }
    assert AllCalls(n) by { forall c | c in n.calls ensures CallOk(n, c) { assert CallOk(s, c); } }
  }

  lemma GrownLater(s: State, n: State, q: Id, ds: seq<Draft>, now: Time, until: Time)
    requires Grown(s, n, q, ds, now, until)
    ensures Later(s, n)
  {
    forall b | b in s.issued ensures !NewId(ds, b) { NotNew(s, ds, b); }
  }

  lemma StageRowsOk(s: State, q: Id, ds: seq<Draft>, now: Time, until: Time)
    requires Inv(s)
    ensures StepOk(s, StageRows(s, q, ds, now, until))
  {
    var n := StageRows(s, q, ds, now, until);
    if !InPhase(s, q, Collecting) || !FreshDrafts(s, ds) || CreateAll(s.db.ledger, NewRows(ds), now, until).Err? {
      Stays(s);
    } else {
      var l := CreateAll(s.db.ledger, NewRows(ds), now, until).ledger;
      assert Grown(s, n, q, ds, now, until) by {
        RowsAdded(s, l, ds, now, until);
        StageRowsGrows(s, n, q, ds, now, until);
      }
      assert DbOk(n) by {
        RowsAdded(s, l, ds, now, until);
        assert Refs(n.db) == Refs(s.db);
      }
      assert AllBlobs(n) by { GrownBlobs(s, n, q, ds, now, until); }
      assert AllStagers(n) by { GrownStagers(s, n, q, ds, now, until); }
      assert AllApart(n) by { GrownApart(s, n, q, ds, now, until); }
      assert AllRequests(n) by { GrownRequests(s, n, q, ds, now, until); }
      assert AllWorkers(n) && AllTokens(n) && AllScans(n) && AllCalls(n) by { GrownOthers(s, n, q, ds, now, until); }
      assert Later(s, n) by { GrownLater(s, n, q, ds, now, until); }
    }
  }
}
