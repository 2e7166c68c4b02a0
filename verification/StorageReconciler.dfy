/** The reconciler seals abandoned staging rows batch by batch, until a batch comes up short. */
module StorageReconciler {
  import opened Common
  import opened LedgerTransactions
  import opened LedgerBatches
  import opened StorageBlobRepository

  function ExpiredIds(blobs: map<Id, Blob>, before: Time, now: Time): set<Id> {
    set b | b in blobs && Expired(blobs[b], before, now)
  }

  /** The rows the query selects: expired ones, as many as the limit admits. Which of them
      come first does not matter here. */
  method SelectExpired(blobs: map<Id, Blob>, before: Time, now: Time, limit: nat) returns (selected: set<Id>)
    ensures selected <= ExpiredIds(blobs, before, now) && |selected| <= limit
    ensures |selected| < limit ==> selected == ExpiredIds(blobs, before, now)
  {
    selected := {};
    var left := ExpiredIds(blobs, before, now);
    while left != {} && |selected| < limit
      invariant selected + left == ExpiredIds(blobs, before, now) && selected !! left && |selected| <= limit
      decreases |left|
    {
      var b :| b in left;
      selected, left := selected + {b}, left - {b};
    }
  }

  /** Exactly the rows in `done` have been sealed. */
  ghost predicate SealedSoFar(l: Ledger, m: Ledger, done: set<Id>, before: Time, now: Time) {
    done <= ExpiredIds(l.blobs, before, now) && Expire(l, done, before, now) == Ok(m)
  }

  lemma StillExpired(l: Ledger, m: Ledger, done: set<Id>, before: Time, now: Time)
    requires SealedSoFar(l, m, done, before, now)
    ensures ExpiredIds(m.blobs, before, now) == ExpiredIds(l.blobs, before, now) - done
  {
  }

  /** The jobs that sealing opens. */
  function JobsOf(blobs: map<Id, Blob>, ids: set<Id>, now: Time): map<Id, Job> {
    map b | b in ids && b in blobs :: Job(blobs[b].storagePath, 0, now, None, None)
  }

  lemma JobsTogether(blobs: map<Id, Blob>, after: map<Id, Blob>, a: set<Id>, b: set<Id>, jobs: map<Id, Job>, now: Time)
    requires a !! b && after.Keys == blobs.Keys && forall x :: x in blobs ==> after[x].storagePath == blobs[x].storagePath
    ensures JobsOf(after, b, now) + (JobsOf(blobs, a, now) + jobs) == JobsOf(blobs, a + b, now) + jobs
  {
  }

  /** Sealing two batches one after the other is sealing them together. */
  lemma SealMore(l: Ledger, m: Ledger, n: Ledger, done: set<Id>, more: set<Id>, before: Time, now: Time)
    requires SealedSoFar(l, m, done, before, now) && more <= ExpiredIds(m.blobs, before, now)
    requires Expire(m, more, before, now) == Ok(n)
    ensures SealedSoFar(l, n, done + more, before, now)
  {
    StillExpired(l, m, done, before, now);
    var all := Expire(l, done + more, before, now);
    assert all.Ok?;
    assert n.blobs == all.ledger.blobs;
    assert n.jobs == all.ledger.jobs by { JobsTogether(l.blobs, m.blobs, done, more, l.jobs, now); }
  }

  lemma Counts(all: set<Id>, done: set<Id>, more: set<Id>)
    requires done <= all && more <= all - done
    ensures |done + more| == |done| + |more| && |all - (done + more)| == |all - done| - |more|
  {
    assert all - done == more + (all - (done + more));
  }

  /** sealExpiredStaging ends, for every batch size, with every expired row sealed and given
      a job, exactly as if one transaction had sealed them all. */
  method SealExpiredStaging(repo: Repository, before: Time, now: Time, batchSize: nat) returns (total: nat)
    requires repo.Valid() && batchSize > 0
    modifies repo`blobs, repo`jobs
    ensures repo.Valid() && ExpiredIds(repo.blobs, before, now) == {}
    ensures Expire(old(repo.Rows()), old(ExpiredIds(repo.blobs, before, now)), before, now) == Ok(repo.Rows())
    ensures total == |old(ExpiredIds(repo.blobs, before, now))|
  {
    total := 0;
    ghost var l := repo.Rows();
    ghost var all, done := ExpiredIds(repo.blobs, before, now), {};
    NoneSelected(l, {}, before, now);
    while true
      invariant repo.Valid() && SealedSoFar(l, repo.Rows(), done, before, now) && total == |done|
      decreases |all - done|
    {
      ghost var m := repo.Rows();
      StillExpired(l, m, done, before, now);
      var selected := SelectExpired(repo.blobs, before, now, batchSize);
      var count := repo.ExpireStaging(selected, before, now);
      SealMore(l, m, repo.Rows(), done, selected, before, now);
      Counts(all, done, selected);
      done := done + selected;
      total := total + count;
      if count < batchSize {
        StillExpired(l, repo.Rows(), done, before, now);
        assert done == all;
        return;
      }
    }
  }
}
