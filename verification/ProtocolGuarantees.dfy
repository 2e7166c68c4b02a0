/**
  What the system invariant means to callers. Every lemma here speaks of every run from an
  empty database (`Init`), or of every continuation of a run.
 */
module ProtocolGuarantees {
  import opened Common
  import opened LedgerTransactions
  import opened LedgerInvariant
  import opened BooksKept
  import opened FolderPaths
  import opened Metadata
  import opened BinGroups
  import opened References
  import opened Protocol
  import opened ProtocolInvariant
  import opened ProtocolLocal
  import opened ProtocolSteps
  import opened ProtocolPublish
  import opened ProtocolWorkers
  import opened ProtocolRuns

  /** A state that some run reaches from an empty database. */
  ghost predicate Reachable(s: State) {
    exists first: State, actions: seq<Action> :: Init(first) && s == Run(first, actions)
  }

  lemma ReachableOk(s: State)
    requires Reachable(s)
    ensures Inv(s)
  {
    var first: State, actions: seq<Action> :| Init(first) && s == Run(first, actions);
    InitOk(first);
    RunOk(first, actions);
  }

  lemma {:induction false} RunThen(s: State, actions: seq<Action>, a: Action)
    ensures Run(s, actions + [a]) == Next(Run(s, actions), a)
    decreases |actions|
  {
    if actions == [] {
      assert Run(Next(s, a), []) == Next(s, a);
      assert [] + [a] == [a];
    } else {
      assert (actions + [a])[1..] == actions[1..] + [a];
      RunThen(Next(s, actions[0]), actions[1..], a);
    }
  }

  lemma ReachableNext(s: State, a: Action)
    requires Reachable(s)
    ensures Reachable(Next(s, a))
  {
    var first: State, actions: seq<Action> :| Init(first) && s == Run(first, actions);
    RunThen(first, actions, a);
  }

  lemma {:induction false} ReachableRun(s: State, actions: seq<Action>)
    requires Reachable(s)
    ensures Reachable(Run(s, actions))
    decreases |actions|
  {
    if actions != [] {
      ReachableNext(s, actions[0]);
      ReachableRun(Next(s, actions[0]), actions[1..]);
    }
  }

  // ------------------------------------------------------------------- safety

  /** Physical safety: an active blob's file exists and has exactly the ledger size, and no
      staging blob has a cleanup job unless its owner has given it up. */
  lemma ActiveFileIsWhole(s: State, b: Id)
    requires Reachable(s) && b in s.db.ledger.blobs
    ensures var blob := s.db.ledger.blobs[b];
      && (blob.status == Active ==> blob.storagePath in s.files && s.files[blob.storagePath] == blob.size)
      && (blob.status == Staging && b in s.db.ledger.jobs ==> GivenUp(s, b))
  {
    ReachableOk(s);
    assert BlobOk(s, b);
    if s.db.ledger.blobs[b].status == Staging { assert StagerOk(s, b); }
  }

  /** Every reachable database passes the audit and keeps its delete groups in order. */
  lemma EveryStateAudited(s: State)
    requires Reachable(s)
    ensures Audited(s.db) && BinOk(s.db.bin, s.db.nextBinId)
  {
    ReachableOk(s);
  }

  /** Reference conservation: in every reachable state the count of an active blob is the
      number of object and recycle rows that name it, and no row names any other blob. */
  lemma ReferencesCounted(s: State, b: Id)
    requires Reachable(s) && b in s.db.ledger.blobs
    ensures var blob := s.db.ledger.blobs[b];
      var rows := |RowsAtPath(s.db.objects, Itself, blob.storagePath)| + |RowsAtPath(s.db.bin, FileOf, blob.storagePath)|;
      (blob.status == Active ==> blob.refCount == rows > 0) && (blob.status != Active ==> rows == 0)
  {
    ReachableOk(s);
    RefCountIsRowCount(s.db, b);
  }

  /** Reserve-ahead streaming: what is on disk for a staging blob never exceeds what its
      client counts on, and that never exceeds the size the ledger has reserved. */
  lemma StagedBytesReserved(s: State, b: Id)
    requires Reachable(s) && b in s.stagers && b in s.db.ledger.blobs && s.db.ledger.blobs[b].status == Staging
    ensures var st := s.stagers[b];
      && (st.stage != Placed && st.stagingPath in s.files ==> s.files[st.stagingPath] <= st.Limit())
      && st.Size() <= st.Limit() <= s.db.ledger.blobs[b].size
  {
    ReachableOk(s);
    assert StagerOk(s, b);
  }

  /** A file of declared size is published with exactly that size. */
  lemma DeclaredSizeKept(s: State, b: Id)
    requires Reachable(s) && b in s.stagers && s.stagers[b].declared.Some?
    requires b in s.db.ledger.blobs && s.db.ledger.blobs[b].status == Active
    ensures s.db.ledger.blobs[b].size == s.stagers[b].declared.value
  {
    ReachableOk(s);
    assert StagerOk(s, b);
  }

  // --------------------------------------------------- what can never be undone

  /** A blob that is gone stays gone; a pending one never becomes active again. */
  lemma NoWayBack(s: State, actions: seq<Action>, b: Id)
    requires Reachable(s) && b in s.issued
    ensures var n := Run(s, actions);
      && (b !in s.db.ledger.blobs ==> b !in n.db.ledger.blobs)
      && (b in s.db.ledger.blobs && s.db.ledger.blobs[b].status == PendingDelete && b in n.db.ledger.blobs ==>
           n.db.ledger.blobs[b].status == PendingDelete)
  {
    ReachableOk(s);
    RunOk(s, actions);
  }

  /** How many times along a run the row of a blob, and with it its bytes, left the ledger. */
  function Departures(s: State, actions: seq<Action>, b: Id): nat
    decreases |actions|
  {
    if actions == [] then 0
    else var n := Next(s, actions[0]);
      (if b in s.db.ledger.blobs && b !in n.db.ledger.blobs then 1 else 0) + Departures(n, actions[1..], b)
  }

  lemma {:induction false} LeavesAtMostOnce(s: State, actions: seq<Action>, b: Id)
    requires Inv(s)
    ensures Departures(s, actions, b) <= 1
    ensures b in s.issued && b !in s.db.ledger.blobs ==> Departures(s, actions, b) == 0
    decreases |actions|
  {
    if actions != [] {
      NextOk(s, actions[0]);
      LeavesAtMostOnce(Next(s, actions[0]), actions[1..], b);
      if b in s.db.ledger.blobs { assert BlobOk(s, b); }
    }
  }

  /** The quota row always equals the sum over the blob rows, so between any two reachable
      states the columns move by exactly what the rows moved. */
  lemma ColumnsFollowRows(s: State, n: State)
    requires Reachable(s) && Reachable(n)
    ensures n.db.ledger.quota.used - s.db.ledger.quota.used == Weigh(n.db.ledger.blobs).used - Weigh(s.db.ledger.blobs).used
    ensures n.db.ledger.quota.reserved - s.db.ledger.quota.reserved
         == Weigh(n.db.ledger.blobs).reserved - Weigh(s.db.ledger.blobs).reserved
  {
    ReachableOk(s);
    ReachableOk(n);
  }

  lemma LostForever(s: State, actions: seq<Action>, t: Id, until: Time, retryAt: Time)
    requires Inv(s) && t in s.workers && Lost(s, t)
    ensures var l := Run(s, actions).db.ledger;
      var job := s.workers[t].job;
      RenewJob(l, job, t, until).Err? && FailJob(l, job, t, retryAt).Err? && CompleteJob(l, job, t).Err?
  {
    RunOk(s, actions);
  }

  /** Fencing: a worker whose lease was taken over or reset can never again renew, fail or
      complete the job, whatever happens in between. */
  lemma LostTokenIsPowerless(s: State, actions: seq<Action>, t: Id, until: Time, retryAt: Time)
    requires Reachable(s) && t in s.workers && Lost(s, t)
    ensures var l := Run(s, actions).db.ledger;
      var job := s.workers[t].job;
      RenewJob(l, job, t, until).Err? && FailJob(l, job, t, retryAt).Err? && CompleteJob(l, job, t).Err?
  {
    ReachableOk(s);
    LostForever(s, actions, t, until, retryAt);
  }

  /** A takeover or a release of the blob makes the old token lost. */
  lemma TakeoverLosesToken(s: State, b: Id, t: Id, other: Id, now: Time, until: Time)
    requires Reachable(s) && t in s.workers && s.workers[t].job == b && other != t
    requires FreshName(s, other) && Claim(s.db.ledger, b, other, now, until).Ok?
    ensures t in ClaimJob(s, b, other, now, until).workers && Lost(ClaimJob(s, b, other, now, until), t)
  {
  }

  /** Fencing, from the takeover on: once another worker has claimed the job, the old token
      can never again renew, fail or complete it. */
  lemma TakeoverIsFinal(s: State, b: Id, t: Id, other: Id, now: Time, until: Time, actions: seq<Action>, u: Time, retryAt: Time)
    requires Reachable(s) && t in s.workers && s.workers[t].job == b && other != t
    requires FreshName(s, other) && Claim(s.db.ledger, b, other, now, until).Ok?
    ensures var l := Run(ClaimJob(s, b, other, now, until), actions).db.ledger;
      RenewJob(l, b, t, u).Err? && FailJob(l, b, t, retryAt).Err? && CompleteJob(l, b, t).Err?
  {
    var n := ClaimJob(s, b, other, now, until);
    assert Inv(n) by {
      ReachableOk(s);
      ClaimOk(s, b, other, now, until);
    }
    assert t in n.workers && n.workers[t].job == b && Lost(n, t) by { TakeoverLosesToken(s, b, t, other, now, until); }
    LostForever(n, actions, t, u, retryAt);
  }

  /** The worker's guard against referenced blobs is never needed: a claimed job's blob is
      never active and never referenced, at any point of any run. */
  lemma ClaimedBlobUnreferenced(s: State, t: Id)
    requires Reachable(s) && t in s.workers && s.workers[t].job in s.db.ledger.blobs
    ensures s.db.ledger.blobs[s.workers[t].job].status != Active
    ensures s.db.ledger.blobs[s.workers[t].job].refCount == 0
  {
    ReachableOk(s);
    NeverRefused(s, t);
  }

  // ------------------------------------------------------------ publish outcome

  /** `Committed` is reported only of a transaction that committed; `RolledBack` only of one
      that did not, and then none of its blobs is ever active again. */
  lemma ReportedOutcomeIsTrue(s: State, actions: seq<Action>, q: Id)
    requires Reachable(s) && q in s.requests
    ensures var r := s.requests[q];
      && (r.phase == Finished(Committed) || r.phase == Finished(Acknowledged) ==> r.committed)
      && (r.phase == Finished(RolledBack) ==> !r.committed)
      && (r.phase == Finished(RolledBack) ==> forall b :: b in r.entries ==> DoomedIn(Run(s, actions), b))
  {
    ReachableOk(s);
    RunOk(s, actions);
    assert RequestOk(s, q);
    var n := Run(s, actions);
    if s.requests[q].phase == Finished(RolledBack) {
      assert RequestOk(n, q);
      forall b | b in s.requests[q].entries ensures DoomedIn(n, b) {
        assert EntryOk(n, q, b);
        if b in n.db.ledger.blobs { assert RowOk(n.db.ledger, Refs(n.db), b); }
      }
    }
  }

  /** The blob has gone, or it is sealed and has its cleanup job. */
  predicate DoomedIn(s: State, b: Id) {
    b in s.db.ledger.blobs ==> s.db.ledger.blobs[b].status == PendingDelete && b in s.db.ledger.jobs
  }

  /** What a confirmation did to the database. */
  ghost predicate Untouched(s: State, n: State) { n.files == s.files && n.db == s.db }

  ghost predicate SealedAll(s: State, n: State, q: Id, now: Time)
    requires q in s.requests
  {
    && n.files == s.files && n.db == s.db.(ledger := n.db.ledger)
    && SealWithJobs(s.db.ledger, Entries(s, q), now) == Ok(n.db.ledger)
  }

  predicate Reports(n: State, q: Id, o: Outcome) { InPhase(n, q, Finished(o)) }

  /** The three ways a confirmation can go. */
  lemma ConfirmCases(s: State, q: Id, now: Time, reply: Reply)
    requires InPhase(s, q, Unsure)
    ensures var r := SealWithJobs(s.db.ledger, Entries(s, q), now);
      var n := Confirm(s, q, now, reply);
      || n == Report(s, q, Unknown, reply == Answered)
      || n == Report(s, q, Committed, reply == Answered)
      || (reply != Broken && r.Ok? && n == Report(WithLedger(s, r.ledger), q, RolledBack, reply == Answered))
  {
  }

  lemma StagingIsRolledBack(s: State, q: Id, b: Id)
    requires Inv(s) && q in s.requests && b in s.requests[q].entries
    requires b in s.db.ledger.blobs && s.db.ledger.blobs[b].status == Staging
    ensures SeenRolledBack(s, b) && !SeenCommitted(s, b)
  {
    assert RequestOk(s, q) && EntryOk(s, q, b) && StagerOk(s, b) && RowOk(s.db.ledger, Refs(s.db), b);
  }

  lemma AllStagingSeen(s: State, q: Id, now: Time)
    requires Inv(s) && q in s.requests && s.requests[q].entries != [] && AllStaging(s.db.ledger, Entries(s, q))
    ensures AllRolledBack(s, q) && !AllCommitted(s, q)
    ensures SealWithJobs(s.db.ledger, Entries(s, q), now).Ok?
  {
    var entries := s.requests[q].entries;
    forall b | b in entries ensures SeenRolledBack(s, b) && !SeenCommitted(s, b) {
      assert b in Entries(s, q);
      StagingIsRolledBack(s, q, b);
    }
    assert entries[0] in entries;
  }

  /** What a caller can check before it confirms: the rows of the upload are all still
      staging. */
  predicate StillAllStaging(s: State, q: Id)
    requires q in s.requests
  {
    s.requests[q].entries != [] && AllStaging(s.db.ledger, Entries(s, q))
  }

  lemma SealingConfirms(s: State, q: Id, now: Time, reply: Reply)
    requires Inv(s) && InPhase(s, q, Unsure) && StillAllStaging(s, q) && reply != Broken
    ensures var r := SealWithJobs(s.db.ledger, Entries(s, q), now);
      r.Ok? && Confirm(s, q, now, reply) == Report(WithLedger(s, r.ledger), q, RolledBack, reply == Answered)
  {
    AllStagingSeen(s, q, now);
  }

  lemma NothingSealed(s: State, q: Id, now: Time, reply: Reply)
    requires InPhase(s, q, Unsure) && (reply == Broken || s.requests[q].entries == [] || !AllRolledBack(s, q))
    ensures var n := Confirm(s, q, now, reply);
      Untouched(s, n) && !Reports(n, q, RolledBack)
  {
  }

  lemma SealedIsTouched(s: State, q: Id, now: Time)
    requires q in s.requests && StillAllStaging(s, q) && SealWithJobs(s.db.ledger, Entries(s, q), now).Ok?
    ensures SealWithJobs(s.db.ledger, Entries(s, q), now).ledger != s.db.ledger
  {
    var entries := s.requests[q].entries;
    assert entries[0] in Entries(s, q);
    assert SealWithJobs(s.db.ledger, Entries(s, q), now).ledger.blobs[entries[0]].status == PendingDelete;
  }

  lemma SealsThem(s: State, n: State, q: Id, now: Time, reply: Reply)
    requires Inv(s) && InPhase(s, q, Unsure) && n == Confirm(s, q, now, reply) && reply != Broken && StillAllStaging(s, q)
    ensures SealedAll(s, n, q, now) && !Untouched(s, n)
    ensures Reports(n, q, RolledBack) <==> reply == Answered
  {
    SealingConfirms(s, q, now, reply);
    SealedIsTouched(s, q, now);
  }

  lemma NotAllStaging(s: State, q: Id)
    requires q in s.requests && !StillAllStaging(s, q)
    ensures s.requests[q].entries == [] || !AllRolledBack(s, q)
  {
    assert AllRolledBack(s, q) ==> AllStaging(s.db.ledger, Entries(s, q));
  }

  lemma LeavesThem(s: State, q: Id, now: Time, reply: Reply)
    requires InPhase(s, q, Unsure) && (reply == Broken || !StillAllStaging(s, q))
    ensures Untouched(s, Confirm(s, q, now, reply)) && !Reports(Confirm(s, q, now, reply), q, RolledBack)
  {
    assert reply == Broken || s.requests[q].entries == [] || !AllRolledBack(s, q) by {
      if reply != Broken { NotAllStaging(s, q); }
    }
    NothingSealed(s, q, now, reply);
  }

  /** A confirmation seals every blob of the upload if and only if it commits and finds all of
      its rows still staging, and it reports a rollback if and only if its reply arrives too:
      the comparison of paths and counts adds nothing in a reachable state. In every other
      case it changes nothing. */
  lemma SealsIff(s: State, n: State, q: Id, now: Time, reply: Reply)
    requires Reachable(s) && InPhase(s, q, Unsure) && n == Confirm(s, q, now, reply)
    ensures if reply != Broken && StillAllStaging(s, q) then SealedAll(s, n, q, now) && !Untouched(s, n) else Untouched(s, n)
    ensures Reports(n, q, RolledBack) <==> reply == Answered && StillAllStaging(s, q)
  {
    if reply != Broken && StillAllStaging(s, q) {
      ReachableOk(s);
      SealsThem(s, n, q, now, reply);
    } else {
      LeavesThem(s, q, now, reply);
    }
  }

  /** An unknown outcome means that nothing was changed, except when the confirmation has
      committed, its reply is lost and every row was still staging: then all are sealed. */
  lemma UnknownSealsIff(s: State, n: State, q: Id, now: Time, reply: Reply)
    requires Reachable(s) && InPhase(s, q, Unsure) && n == Confirm(s, q, now, reply) && Reports(n, q, Unknown)
    ensures Untouched(s, n) <==> reply != Unanswered || !StillAllStaging(s, q)
    ensures Untouched(s, n) || SealedAll(s, n, q, now)
  {
    SealsIff(s, n, q, now, reply);
  }

  /** An unknown outcome that leaves the database as it is. */
  ghost predicate UnknownUntouched(s: State, q: Id, now: Time, reply: Reply) {
    Reports(Confirm(s, q, now, reply), q, Unknown) ==> Untouched(s, Confirm(s, q, now, reply))
  }

  /** What the caller can rely on before the call: an unknown outcome is sure to mean that
      nothing was changed if and only if some row is no longer staging (or none was staged).
      While all are staging, a failed confirmation and a lost reply look alike and differ in
      the database. */
  lemma UnknownIsSafeIff(s: State, q: Id, now: Time)
    requires Reachable(s) && InPhase(s, q, Unsure)
    ensures (forall reply :: UnknownUntouched(s, q, now, reply)) <==> !StillAllStaging(s, q)
    ensures Reports(Confirm(s, q, now, Broken), q, Unknown) && Untouched(s, Confirm(s, q, now, Broken))
    ensures Reports(Confirm(s, q, now, Unanswered), q, Unknown)
  {
    LeavesThem(s, q, now, Broken);
    LostReply(s, q, now, Broken);
    LostReply(s, q, now, Unanswered);
    if StillAllStaging(s, q) {
      SealsIff(s, Confirm(s, q, now, Unanswered), q, now, Unanswered);
      assert !UnknownUntouched(s, q, now, Unanswered);
    } else {
      forall reply ensures UnknownUntouched(s, q, now, reply) { LeavesThem(s, q, now, reply); }
    }
  }

  lemma LostReply(s: State, q: Id, now: Time, reply: Reply)
    requires InPhase(s, q, Unsure) && reply != Answered
    ensures Reports(Confirm(s, q, now, reply), q, Unknown)
  {
    ConfirmCases(s, q, now, reply);
  }

  /** The row of an upload as its publish leaves it: active, named once. */
  predicate StillPublished(s: State, b: Id) {
    b in s.db.ledger.blobs && s.db.ledger.blobs[b].status == Active && s.db.ledger.blobs[b].refCount == 1
  }

  lemma PublishedIsSeen(s: State, q: Id, b: Id)
    requires Inv(s) && q in s.requests && b in s.requests[q].entries
    ensures SeenCommitted(s, b) <==> StillPublished(s, b)
  {
    assert RequestOk(s, q) && EntryOk(s, q, b) && StagerOk(s, b);
  }

  predicate SeesCommit(s: State, q: Id, reply: Reply)
    requires q in s.requests
  {
    reply == Answered && s.requests[q].entries != [] && AllCommitted(s, q)
  }

  lemma CommitReported(s: State, q: Id, now: Time, reply: Reply)
    requires InPhase(s, q, Unsure) && SeesCommit(s, q, reply)
    ensures Confirm(s, q, now, reply) == Report(s, q, Committed, true)
  {
  }

  lemma AnsweredNoCommit(s: State, q: Id, now: Time)
    requires InPhase(s, q, Unsure) && !SeesCommit(s, q, Answered)
    ensures !Reports(Confirm(s, q, now, Answered), q, Committed)
  {
  }

  lemma NoCommitReported(s: State, q: Id, now: Time, reply: Reply)
    requires InPhase(s, q, Unsure) && !SeesCommit(s, q, reply)
    ensures !Reports(Confirm(s, q, now, reply), q, Committed)
  {
    if reply == Answered { AnsweredNoCommit(s, q, now); } else { LostReply(s, q, now, reply); }
  }

  /** A confirmation reports a commit if and only if its reply arrives and every row of the
      upload is active with one reference: paths and sizes add nothing in a reachable state. */
  lemma CommittedReportedIff(s: State, q: Id, now: Time, reply: Reply)
    requires Reachable(s) && InPhase(s, q, Unsure)
    ensures Reports(Confirm(s, q, now, reply), q, Committed) <==>
      reply == Answered && s.requests[q].entries != [] && forall b :: b in s.requests[q].entries ==> StillPublished(s, b)
  {
    assert AllCommitted(s, q) <==> forall b :: b in s.requests[q].entries ==> StillPublished(s, b) by {
      ReachableOk(s);
      forall b | b in s.requests[q].entries ensures SeenCommitted(s, b) <==> StillPublished(s, b) { PublishedIsSeen(s, q, b); }
    }
    if SeesCommit(s, q, reply) { CommitReported(s, q, now, reply); } else { NoCommitReported(s, q, now, reply); }
  }

  /** What a publish that has committed leaves behind. */
  lemma PublishLeaves(s: State, q: Id, keys: seq<Key>, attrs: seq<Attrs>, overwrite: bool, now: Time, heard: bool, b: Id)
    requires Inv(s) && InPhase(s, q, Ready) && b in s.requests[q].entries
    requires PublishUpload(s, q, keys, attrs, overwrite, now, heard).db != s.db
    ensures StillPublished(PublishUpload(s, q, keys, attrs, overwrite, now, heard), b)
  {
    var items := UploadItems(s, s.requests[q].entries, keys, attrs);
    UploadItemsOk(s, q, keys, attrs);
    PublishKeeps(s.db, items, overwrite, now);
    assert b in Entries(s, q);
    var t :| t in items && t.act.id == b;
    assert Published(s.db.ledger, Publish(s.db, items, overwrite, now).db.ledger, t);
  }

  lemma RunOnward(s: State, m: State, actions: seq<Action>, q: Id)
    requires Reachable(m) && Later(s, m) && q in s.requests
    ensures Reachable(Run(m, actions)) && q in Run(m, actions).requests && Onward(s.requests[q], Run(m, actions).requests[q])
  {
    assert Later(m, Run(m, actions)) by {
      ReachableOk(m);
      RunOk(m, actions);
    }
    ReachableRun(m, actions);
  }

  lemma PublishReachable(s: State, q: Id, keys: seq<Key>, attrs: seq<Attrs>, overwrite: bool, at: Time, heard: bool)
    requires Reachable(s)
    ensures Reachable(PublishUpload(s, q, keys, attrs, overwrite, at, heard))
    ensures Later(s, PublishUpload(s, q, keys, attrs, overwrite, at, heard))
  {
    ReachableNext(s, Publishing(PublishA(q, keys, attrs, overwrite, at, heard)));
    ReachableOk(s);
    PublishOk(s, q, keys, attrs, overwrite, at, heard);
  }

  /** Nothing has touched the rows of the upload between the two states. */
  predicate RowsUntouched(s: State, n: State, entries: seq<Id>) {
    forall b :: b in entries && b in s.db.ledger.blobs ==> b in n.db.ledger.blobs && n.db.ledger.blobs[b] == s.db.ledger.blobs[b]
  }

  lemma UntouchedPublished(s: State, q: Id, keys: seq<Key>, attrs: seq<Attrs>, overwrite: bool, at: Time, n: State)
    requires Inv(s) && InPhase(s, q, Ready) && PublishUpload(s, q, keys, attrs, overwrite, at, false).db != s.db
    requires RowsUntouched(PublishUpload(s, q, keys, attrs, overwrite, at, false), n, s.requests[q].entries)
    ensures forall b :: b in s.requests[q].entries ==> StillPublished(n, b)
  {
    forall b | b in s.requests[q].entries ensures StillPublished(n, b) { PublishLeaves(s, q, keys, attrs, overwrite, at, false, b); }
  }

  /** A commit whose reply was lost is recognised, whatever has happened since, as long as the
      rows of the upload are as the publish left them. */
  lemma CommitIsRecognised(s: State, q: Id, keys: seq<Key>, attrs: seq<Attrs>, overwrite: bool, at: Time, actions: seq<Action>, now: Time)
    requires Reachable(s) && InPhase(s, q, Ready) && s.requests[q].entries != []
    requires PublishUpload(s, q, keys, attrs, overwrite, at, false).db != s.db
    requires var m := PublishUpload(s, q, keys, attrs, overwrite, at, false);
      InPhase(Run(m, actions), q, Unsure) && RowsUntouched(m, Run(m, actions), s.requests[q].entries)
    ensures var n := Run(PublishUpload(s, q, keys, attrs, overwrite, at, false), actions);
      Reports(Confirm(n, q, now, Answered), q, Committed)
  {
    var n := Run(PublishUpload(s, q, keys, attrs, overwrite, at, false), actions);
    PublishReachable(s, q, keys, attrs, overwrite, at, false);
    RunOnward(s, PublishUpload(s, q, keys, attrs, overwrite, at, false), actions, q);
    assert forall b :: b in s.requests[q].entries ==> StillPublished(n, b) by {
      ReachableOk(s);
      UntouchedPublished(s, q, keys, attrs, overwrite, at, n);
    }
    CommittedReportedIff(n, q, now, Answered);
  }

  predicate NoneActive(s: State, q: Id)
    requires q in s.requests
  {
    forall b :: b in s.requests[q].entries && b in s.db.ledger.blobs ==> s.db.ledger.blobs[b].status != Active
  }

  /** An upload that was cancelled or given up, that lost its lease, or whose publish was lost
      before its commit never publishes anything later. */
  lemma NothingPublishedLater(s: State, actions: seq<Action>, q: Id)
    requires Reachable(s) && q in s.requests && !s.requests[q].committed
    requires s.requests[q].cancelled || !Publishable(s.requests[q].phase)
    ensures var n := Run(s, actions);
      q in n.requests && NoneActive(n, q)
  {
    ReachableOk(s);
    RunOk(s, actions);
    var n := Run(s, actions);
    assert RequestOk(n, q);
    forall b | b in n.requests[q].entries && b in n.db.ledger.blobs ensures n.db.ledger.blobs[b].status != Active {
      assert EntryOk(n, q, b);
    }
  }

  /** A heartbeat that fails before the publish ends the upload for good. */
  lemma LeaseLostIsFinal(s: State, actions: seq<Action>, q: Id)
    requires Reachable(s) && InPhase(s, q, Ready)
    ensures var n := Run(LoseLease(s, q), actions); Reports(n, q, LeaseLost) && NoneActive(n, q)
  {
    ReachableNext(s, Publishing(LoseLeaseA(q)));
    EndedForGood(LoseLease(s, q), actions, q);
  }

  lemma EndedForGood(m: State, actions: seq<Action>, q: Id)
    requires Reachable(m) && Reports(m, q, LeaseLost)
    ensures Reports(Run(m, actions), q, LeaseLost) && NoneActive(Run(m, actions), q)
  {
    assert !m.requests[q].committed by {
      ReachableOk(m);
      assert RequestOk(m, q);
    }
    assert Later(m, Run(m, actions)) by {
      ReachableOk(m);
      RunOk(m, actions);
    }
    NothingPublishedLater(m, actions, q);
  }

  /** So does a client that goes away before the commit. */
  lemma CancelIsFinal(s: State, actions: seq<Action>, q: Id)
    requires Reachable(s) && q in s.requests && !s.requests[q].committed
    ensures var n := Run(Cancel(s, q), actions); q in n.requests && NoneActive(n, q)
  {
    ReachableNext(s, Uploading(CancelA(q)));
    NothingPublishedLater(Cancel(s, q), actions, q);
  }

  // ------------------------------------------------- restore and permanent delete

  /** A recycle row that has been consumed never comes back. */
  lemma BinRowConsumedOnce(s: State, actions: seq<Action>, i: nat)
    requires Reachable(s) && i < s.db.nextBinId && i !in s.db.bin
    ensures i !in Run(s, actions).db.bin
  {
    ReachableOk(s);
    RunOk(s, actions);
  }

  /** A call whose rows are not all there any more changes nothing in the database. */
  lemma LoserChangesNothing(s: State, c: Id, now: Time)
    requires CallOpen(s, c) && !AllIn(s.db, s.calls[c].ids)
    ensures CommitRestore(s, c).db == s.db && CommitPurge(s, c, now).db == s.db
  {
  }

  lemma WinnerTakesRows(s: State, c: Id, i: nat, win: State, t: Time)
    requires CallOpen(s, c) && i in s.calls[c].ids && win.db != s.db
    requires win == CommitRestore(s, c) || win == CommitPurge(s, c, t)
    ensures i in s.db.bin && i !in win.db.bin
  {
  }

  /** Two calls on overlapping rows: once one has taken effect the other never does,
      whatever happens in between. */
  lemma OneWinner(s: State, c: Id, d: Id, i: nat, win: State, actions: seq<Action>, t1: Time, t2: Time)
    requires Reachable(s) && CallOpen(s, c) && i in s.calls[c].ids && win.db != s.db
    requires win == CommitRestore(s, c) || win == CommitPurge(s, c, t1)
    requires CallOpen(Run(win, actions), d) && i in Run(win, actions).calls[d].ids
    ensures var n := Run(win, actions); CommitRestore(n, d).db == n.db && CommitPurge(n, d, t2).db == n.db
  {
    WinnerTakesRows(s, c, i, win, t1);
    assert StepOk(s, win) && i < s.db.nextBinId by {
      ReachableOk(s);
      RestoreOk(s, c);
      PurgeOk(s, c, t1);
    }
    assert i !in Run(win, actions).db.bin by { RunOk(win, actions); }
    LoserChangesNothing(Run(win, actions), d, t2);
  }

  /** A committed upload writes exactly its own object rows and leaves the recycle bin alone. */
  lemma UploadWritesItsKeys(db: Db, n: Db, items: seq<Item>, overwrite: bool, now: Time)
    requires Publish(db, items, overwrite, now) == Done(n) && DistinctKeys(items)
    ensures n.bin == db.bin && n.buckets == db.buckets
    ensures forall t :: t in items ==> t.key in n.objects && n.objects[t.key] == t.file && t.key.bucket in db.buckets
    ensures forall k :: k in db.objects && !HasKey(items, k) ==> k in n.objects && n.objects[k] == db.objects[k]
    ensures forall k :: k in n.objects ==> k in db.objects || HasKey(items, k)
    ensures !overwrite ==> forall t :: t in items ==> t.key !in db.objects
  {
    PutItemsAre(db.objects, items);
    forall t | t in items ensures t.key in n.objects { assert HasKey(items, t.key); }
    if !overwrite { NothingOverwritten(db.objects, items); }
  }

  lemma {:induction false} NothingOverwritten(objects: map<Key, File>, items: seq<Item>)
    requires Overwritten(objects, items) == []
    ensures forall t :: t in items ==> t.key !in objects
  {
    if items != [] { NothingOverwritten(objects, items[1..]); }
  }

  /** Deleting a bucket removes all of its rows from both tables and no other. */
  lemma BucketGone(db: Db, n: Db, bucket: string, keys: seq<Key>, ids: seq<nat>, now: Time)
    requires ListsBucket(db, bucket, keys, ids) && DropBucket(db, bucket, keys, ids, now) == Done(n)
    ensures n.buckets == db.buckets - {bucket}
    ensures forall k :: k in n.objects <==> k in db.objects && k.bucket != bucket
    ensures forall i :: i in n.bin <==> i in db.bin && db.bin[i].key.bucket != bucket
    ensures (forall k :: k in n.objects ==> n.objects[k] == db.objects[k]) && forall i :: i in n.bin ==> n.bin[i] == db.bin[i]
  {
  }

  // ------------------------------------------------------ dead error branches

  /** The guards that report an inconsistent ledger never fire, and neither does any other
      refusal of a release: the tables name no blob that cannot be released. */
  lemma NeverInconsistent(s: State, q: Id, items: seq<Item>, overwrite: bool, ids: seq<Id>, c: Id, b: Id, t: Id, now: Time)
    requires Reachable(s)
    ensures ReleaseStagingAll(s.db.ledger, ids) != Err(Inconsistent)
    ensures Owns(s.db.ledger, b, t) ==> CompleteJob(s.db.ledger, b, t).Ok?
    ensures CallOpen(s, c) && AllIn(s.db, s.calls[c].ids) ==> Purge(s.db, s.calls[c].ids, s.calls[c].rows, now).Done?
    ensures InPhase(s, q, Ready) && UploadFits(s, q, items) ==> Publish(s.db, items, overwrite, now) != Failed(Inconsistent)
  {
    ReachableOk(s);
    ReleaseStagingAllKeeps(s.db.ledger, Refs(s.db), ids);
    CompleteJobKeeps(s.db.ledger, Refs(s.db), b, t);
    if CallOpen(s, c) && AllIn(s.db, s.calls[c].ids) {
      CallWhole(s, c);
      PurgeKeeps(s.db, s.calls[c].ids, s.calls[c].rows, now);
    }
    if InPhase(s, q, Ready) && UploadFits(s, q, items) { PublishKeeps(s.db, items, overwrite, now); }
  }
}
