/** The steps of uploads and publishers keep the system invariant. */
module ProtocolUploads {
  import opened Common
  import opened LedgerTransactions
  import opened LedgerInvariant
  import opened BooksKept
  import opened Metadata
  import opened BinGroups
  import opened Protocol
  import opened ProtocolInvariant
  import opened ProtocolDbSteps
  import opened ProtocolLocal
  import opened ProtocolSteps

  // ------------------------------------------------------------------ requests

  lemma PhaseStep(s: State, q: Id, r: Request)
    requires Inv(s) && q in s.requests
    requires r.entries == s.requests[q].entries && r.committed == s.requests[q].committed
    requires PhaseMoves(s.requests[q].phase, r.phase) && (s.requests[q].cancelled ==> r.cancelled)
    requires NotCommitted(r.phase) ==> NotCommitted(s.requests[q].phase)
    requires r.phase != Finished(Committed) && r.phase != Finished(Acknowledged) && r.phase != Finished(RolledBack)
    requires r.phase == Ready && !r.cancelled ==>
      forall b :: b in r.entries && b in s.stagers ==> s.stagers[b].stage == Placed
    ensures StepOk(s, s.(requests := s.requests[q := r]))
  {
    var n := s.(requests := s.requests[q := r]);
    assert RequestOk(n, q) by {
      assert RequestOk(s, q);
      forall b | b in r.entries ensures EntryOk(n, q, b) { assert EntryOk(s, q, b); }
    }
    RequestStep(s, q, r);
  }

  lemma CancelOk(s: State, q: Id)
    requires Inv(s)
    ensures StepOk(s, Cancel(s, q))
  {
    if q in s.requests {
      var r := s.requests[q].(cancelled := true);
      var n := s.(requests := s.requests[q := r]);
      assert RequestOk(n, q) by {
        assert RequestOk(s, q);
        forall b | b in r.entries ensures EntryOk(n, q, b) { assert EntryOk(s, q, b); }
      }
      RequestStep(s, q, r);
    }
  }

  lemma ReturnOk(s: State, q: Id)
    requires Inv(s)
    ensures StepOk(s, Return(s, q))
  {
    if Return(s, q) != s { PhaseStep(s, q, s.requests[q].(phase := Ready)); }
  }

  lemma PublishLostOk(s: State, q: Id)
    requires Inv(s)
    ensures StepOk(s, PublishLost(s, q))
  {
    if InPhase(s, q, Ready) { PhaseStep(s, q, s.requests[q].(phase := Unsure)); }
  }

  lemma LoseLeaseOk(s: State, q: Id)
    requires Inv(s)
    ensures StepOk(s, LoseLease(s, q))
  {
    if InPhase(s, q, Ready) { PhaseStep(s, q, s.requests[q].(phase := Finished(LeaseLost))); }
  }

  lemma StartAbortOk(s: State, q: Id)
    requires Inv(s)
    ensures StepOk(s, StartAbort(s, q))
  {
    if InPhase(s, q, Collecting) { PhaseStep(s, q, s.requests[q].(phase := Aborting)); }
  }

  predicate Opened(s: State, n: State, q: Id) {
    && q !in s.requests
    && n == s.(requests := s.requests[q := Request(Collecting, false, [], false)], issued := s.issued + {q})
  }

  lemma OpenedRequests(s: State, n: State, q: Id)
    requires AllRequests(s) && Opened(s, n, q)
    ensures AllRequests(n)
  {
    forall x | x in n.requests ensures RequestOk(n, x) {
      if x != q {
        assert RequestOk(s, x);
        forall b | b in n.requests[x].entries ensures EntryOk(n, x, b) { assert EntryOk(s, x, b); }
      }
    }
  }

  lemma OpenedLater(s: State, n: State, q: Id)
    requires Opened(s, n, q)
    ensures Later(s, n)
  {
  }

  lemma OpenOk(s: State, q: Id)
    requires Inv(s)
    ensures StepOk(s, Open(s, q))
  {
    var n := Open(s, q);
    if FreshName(s, q) {
      assert q !in s.requests by { assert q in s.requests ==> RequestOk(s, q); }
      assert OthersOk(n) by { OthersFramed(s, n); }
      assert AllBlobs(n) by { BlobsFramed(s, n); }
      assert AllStagers(n) by { forall b | b in n.stagers ensures StagerOk(n, b) { assert StagerOk(s, b); } }
      assert AllApart(n) by { SameApart(s, n); }
      assert AllRequests(n) by { OpenedRequests(s, n, q); }
      assert Later(s, n) by { OpenedLater(s, n, q); }
    } else {
      Stays(s);
    }
  }

  // ------------------------------------------------------------- file by file

  lemma NotActiveYet(s: State, b: Id)
    requires Inv(s) && (StillStaging(s, b) || GivenUp(s, b))
    ensures b in s.db.ledger.blobs ==> s.db.ledger.blobs[b].status != Active
    ensures StagerOk(s, b)
  {
    assert StagerOk(s, b) && RequestOk(s, s.stagers[b].request);
    assert EntryOk(s, s.stagers[b].request, b);
  }

  lemma WriteOk(s: State, b: Id, total: nat)
    requires Inv(s)
    ensures StepOk(s, Write(s, b, total))
  {
    var n := Write(s, b, total);
    if n != s {
      NotActiveYet(s, b);
      assert n == s.(stagers := n.stagers, files := n.files);
      StagerStep(s, b, n.stagers[b], n.files);
    }
  }

  lemma EndWriteOk(s: State, b: Id)
    requires Inv(s)
    ensures StepOk(s, EndWrite(s, b))
  {
    var n := EndWrite(s, b);
    if n != s {
      NotActiveYet(s, b);
      StagerStep(s, b, n.stagers[b], n.files);
    }
  }

  lemma PlaceOk(s: State, b: Id)
    requires Inv(s)
    ensures StepOk(s, Place(s, b))
  {
    var n := Place(s, b);
    if n != s {
      NotActiveYet(s, b);
      StagerStep(s, b, n.stagers[b], n.files);
    }
  }

  lemma AbortDeleteOk(s: State, b: Id, staging: bool)
    requires Inv(s)
    ensures StepOk(s, AbortDelete(s, b, staging))
  {
    if GivenUp(s, b) {
      var n := AbortDelete(s, b, staging);
      NotActiveYet(s, b);
      assert n == s.(stagers := s.stagers[b := s.stagers[b]], files := n.files);
      StagerStep(s, b, s.stagers[b], n.files);
    }
  }

  lemma Heard(s: State, l: Ledger, b: Id, bytes: nat)
    requires bytes > 0 && Reserve(s.db.ledger, b, bytes) == Ok(l)
    requires b in s.stagers && s.stagers[b].stage != Placed && StagerOk(s, b) && StagerOk(WithLedger(s, l), b)
    ensures var st := s.stagers[b].(reserved := s.stagers[b].reserved + bytes);
      StagerOk(WithLedger(s, l).(stagers := s.stagers[b := st]), b)
  {
  }

  lemma HeardReservation(s: State, l: Ledger, b: Id, bytes: nat, st: Stager)
    requires bytes > 0 && Reserve(s.db.ledger, b, bytes) == Ok(l)
    requires Inv(WithLedger(s, l)) && StillStaging(WithLedger(s, l), b) && s.stagers[b].stage != Placed && StagerOk(s, b)
    requires st == s.stagers[b].(reserved := s.stagers[b].reserved + bytes)
    ensures StepOk(WithLedger(s, l), WithLedger(s, l).(stagers := s.stagers[b := st]))
  {
    var m := WithLedger(s, l);
    var n := m.(stagers := m.stagers[b := st], files := m.files);
    assert b in m.db.ledger.blobs ==> m.db.ledger.blobs[b].status != Active by { NotActiveYet(m, b); }
    assert n == m.(stagers := s.stagers[b := st]);
    assert StagerOk(n, b) by {
      assert StagerOk(m, b);
      Heard(s, l, b, bytes);
    }
    StagerStep(m, b, st, m.files);
  }

  lemma Reserved(s: State, l: Ledger, b: Id, bytes: nat)
    requires Inv(s) && Reserve(s.db.ledger, b, bytes) == Ok(l)
    ensures StepOk(s, WithLedger(s, l))
  {
    ReserveKeeps(s.db.ledger, Refs(s.db), b, bytes);
    LedgerStep(s, l, NOTHING);
  }

  lemma ReservedAndHeard(s: State, l: Ledger, b: Id, bytes: nat, st: Stager)
    requires Inv(s) && bytes > 0 && Reserve(s.db.ledger, b, bytes) == Ok(l)
    requires StillStaging(s, b) && s.stagers[b].stage != Placed
    requires st == s.stagers[b].(reserved := s.stagers[b].reserved + bytes)
    ensures StepOk(s, WithLedger(s, l).(stagers := s.stagers[b := st]))
  {
    var m := WithLedger(s, l);
    Reserved(s, l, b, bytes);
    assert StepOk(m, m.(stagers := s.stagers[b := st])) by {
      assert StagerOk(s, b);
      HeardReservation(s, l, b, bytes, st);
    }
    StepThen(s, m, m.(stagers := s.stagers[b := st]));
  }

  /** A reservation grows the row; what the client then counts on is still within it. */
  lemma ReserveOk(s: State, b: Id, bytes: nat, heard: bool)
    requires Inv(s)
    ensures StepOk(s, ReserveMore(s, b, bytes, heard))
  {
    var r := Reserve(s.db.ledger, b, bytes);
    if !StillStaging(s, b) || s.stagers[b].stage == Placed || r.Err? {
      Stays(s);
    } else if bytes == 0 || !heard {
      Reserved(s, r.ledger, b, bytes);
    } else {
      ReservedAndHeard(s, r.ledger, b, bytes, s.stagers[b].(reserved := s.stagers[b].reserved + bytes));
    }
  }
}
