/** Every ledger transaction keeps the books, and moves rows only along the lifecycle. */
module BooksKept {
  import opened Common
  import opened LedgerTransactions
  import opened LedgerInvariant

  /** What one transaction was entitled to do, beyond what any transaction may do. */
  datatype Change = Change(
    activated: set<Id>,           // staging blobs it published
    jobbed: set<Id>,              // blobs it gave a job while leaving them staging
    dropped: set<Id>,             // staging blobs it removed without a job
    created: set<Id>,             // rows it inserted
    newPaths: set<Path>,             // paths of the staging rows it inserted
    claim: Option<(Id, Id)>)      // job and token of the lease it granted

  const NOTHING: Change := Change({}, {}, {}, {}, {}, None)

  predicate RowMoves(was: Blob, becomes: Blob, activated: bool) {
    && becomes.storagePath == was.storagePath
    && (becomes.stagingPath == was.stagingPath || becomes.stagingPath.None?)
    && match becomes.status
       case Staging => was.status == Staging && becomes.stagingPath == was.stagingPath && was.size <= becomes.size
       case Active => (was.status == Active && becomes.size == was.size) || (activated && was.status == Staging)
       case Orphaned => was.status == Orphaned
       case PendingDelete => true
       case Unsupported(_) => was.status == becomes.status
  }

  /** Rows that are, or may still become, published. */
  predicate Live(b: Blob) { b.status == Staging || b.status == Active }

  /** The lifecycle: staging -> active -> pending_delete -> gone, and its two side paths. */
  ghost predicate Moves(l: Ledger, n: Ledger, c: Change) {
    && (forall b :: b in l.blobs && b !in n.blobs ==> b in c.dropped || b in l.jobs)
    && (forall b {:trigger RowMoves(l.blobs[b], n.blobs[b], b in c.activated)} :: b in l.blobs && b in n.blobs ==> RowMoves(l.blobs[b], n.blobs[b], b in c.activated))
    && (forall b :: b in l.jobs && b in n.blobs ==> b in n.jobs)
    && (forall b :: b in n.jobs && b !in l.jobs ==>
         b in c.jobbed || (b in n.blobs && n.blobs[b].status == PendingDelete))
    && (forall b :: b in n.blobs && b !in l.blobs ==>
         b in c.created && (Live(n.blobs[b]) ==> n.blobs[b].HoldsOnly(c.newPaths)))
    && (forall b :: b in n.jobs && n.jobs[b].owner.Some? ==>
         (b in l.jobs && l.jobs[b].owner == n.jobs[b].owner) || c.claim == Some((b, n.jobs[b].owner.value)))
  }

  predicate WithinMax(l: Ledger) { l.quota.used + l.quota.reserved <= l.quota.max }

  /** A transaction that keeps the books, the lifecycle and the quota ceiling, and whose
      refusal is never the "inconsistent" one. */
  ghost predicate Keeps(l: Ledger, r: Result, refs: multiset<Ref>, c: Change) {
    match r
    case Ok(n) => Books(n, refs) && Moves(l, n, c) && n.quota.max == l.quota.max && (WithinMax(l) ==> WithinMax(n))
    case Err(e) => e != Inconsistent
  }

  // ---------------------------------------------------------------- pieces

  /** Rows that keep their paths, or drop their staging path, or go away, stay apart. */
  lemma SamePaths(l: Ledger, n: Ledger)
    requires PathsOk(l)
    requires forall b :: b in n.blobs ==>
      b in l.blobs && n.blobs[b].storagePath == l.blobs[b].storagePath
      && (n.blobs[b].stagingPath == l.blobs[b].stagingPath || n.blobs[b].stagingPath.None?)
    ensures PathsOk(n)
  {
    forall a | a in n.blobs ensures NamedOnce(n.blobs[a]) { assert NamedOnce(l.blobs[a]); }
    forall a, b | a in n.blobs && b in n.blobs && a != b ensures Apart(n.blobs[a], n.blobs[b]) {
      assert Apart(l.blobs[a], l.blobs[b]);
    }
  }

  /** A new row that shares no path with the old ones. */
  lemma MorePaths(l: Ledger, n: Ledger, id: Id)
    requires PathsOk(l) && id !in l.blobs && id in n.blobs
    requires n.blobs - {id} == l.blobs && NamedOnce(n.blobs[id])
    requires forall b :: b in l.blobs ==> Apart(l.blobs[b], n.blobs[id])
    ensures PathsOk(n)
  {
    forall a | a in n.blobs && a != id ensures a in l.blobs && n.blobs[a] == l.blobs[a] {
      assert a in (n.blobs - {id});
    }
    forall a | a in n.blobs ensures NamedOnce(n.blobs[a]) {
      if a != id { assert NamedOnce(l.blobs[a]); }
    }
    forall a, b | a in n.blobs && b in n.blobs && a != b ensures Apart(n.blobs[a], n.blobs[b]) {
      if a != id && b != id { assert Apart(l.blobs[a], l.blobs[b]); }
      else if a == id { assert Apart(l.blobs[b], n.blobs[id]); }
      else { assert Apart(l.blobs[a], n.blobs[id]); }
    }
  }

  /** References stay backed when every active row survives as it is. */
  lemma SameActive(l: Ledger, n: Ledger, refs: multiset<Ref>)
    requires RefsOk(l, refs)
    requires forall b :: b in l.blobs && l.blobs[b].status == Active ==>
      b in n.blobs && n.blobs[b].status == Active
      && n.blobs[b].storagePath == l.blobs[b].storagePath && n.blobs[b].size == l.blobs[b].size
    ensures RefsOk(n, refs)
  {
    forall q | q in refs ensures ActiveAt(n, q) {
      assert ActiveAt(l, q);
      var b :| b in l.blobs && l.blobs[b].status == Active && l.blobs[b].storagePath == q.path && l.blobs[b].size == q.size;
      assert n.blobs[b].status == Active;
    }
  }

  function Join(c: Change, d: Change): Change {
    Change(c.activated + d.activated, c.jobbed + d.jobbed, c.dropped + d.dropped,
           c.created + d.created, c.newPaths + d.newPaths, None)
  }

  /** Composing two transactions that remove no row they gave a job to. */
  lemma MovesCompose(l: Ledger, m: Ledger, n: Ledger, c: Change, d: Change)
    requires Moves(l, m, c) && Moves(m, n, d) && JobsOk(l) && JobsOk(m) && JobsOk(n)
    requires c.claim.None? && d.claim.None?
    requires m.jobs.Keys <= l.jobs.Keys || m.blobs.Keys <= n.blobs.Keys
    requires forall b :: b in d.created ==> b !in l.blobs
    ensures Moves(l, n, Join(c, d))
  {
    forall b | b in l.blobs && b in n.blobs
      ensures RowMoves(l.blobs[b], n.blobs[b], b in c.activated + d.activated)
    {
      assert b in m.blobs;
      assert RowMoves(l.blobs[b], m.blobs[b], b in c.activated);
      assert RowMoves(m.blobs[b], n.blobs[b], b in d.activated);
    }
    forall b | b in n.jobs && b !in l.jobs
      ensures b in c.jobbed + d.jobbed || (b in n.blobs && n.blobs[b].status == PendingDelete)
    {
      if b in m.jobs && b in m.blobs { assert RowMoves(m.blobs[b], n.blobs[b], b in d.activated); }
    }
    forall b | b in n.blobs && b !in l.blobs
      ensures b in c.created + d.created && (Live(n.blobs[b]) ==> n.blobs[b].HoldsOnly(c.newPaths + d.newPaths))
    {
      if b in m.blobs { assert RowMoves(m.blobs[b], n.blobs[b], b in d.activated); }
    }
  }

  // ---------------------------------------------------------------- staging

  predicate FreshRow(l: Ledger, n: NewBlob) {
    && n.id !in l.blobs && n.id !in l.jobs
    && n.storagePath != Empty && n.stagingPath != Empty && n.storagePath != n.stagingPath
    && (forall b :: b in l.blobs ==> !l.blobs[b].Holds(n.storagePath) && !l.blobs[b].Holds(n.stagingPath))
  }

  lemma CreateOneKeeps(l: Ledger, refs: multiset<Ref>, n: NewBlob, now: Time, until: Time)
    requires Books(l, refs) && FreshRow(l, n) && l.quota.max <= MAX_U64
    ensures Keeps(l, CreateOne(l, n, now, until), refs,
                  NOTHING.(created := {n.id}, newPaths := {n.storagePath, n.stagingPath}))
  {
    var r := CreateOne(l, n, now, until);
    if r.Ok? {
      assert TotalsOk(r.ledger) by {
        RowWeighed(l, r.ledger, n.id, StagingRow(n, now, until));
      }
      assert PathsOk(r.ledger) by { MorePaths(l, r.ledger, n.id); }
      assert RefsOk(r.ledger, refs) by { SameActive(l, r.ledger, refs); }
      assert RowsOk(r.ledger, refs) by {
        forall b | b in r.ledger.blobs ensures RowOk(r.ledger, refs, b) {
          if b != n.id { assert RowOk(l, refs, b); }
        }
      }
    }
  }

  lemma RenewLeaseKeeps(l: Ledger, refs: multiset<Ref>, ids: set<Id>, until: Time)
    requires Books(l, refs)
    ensures Keeps(l, RenewLease(l, ids, until), refs, NOTHING)
  {
    var r := RenewLease(l, ids, until);
    if r.Ok? {
      assert TotalsOk(r.ledger) by { WeighSame(l.blobs, r.ledger.blobs); }
      assert PathsOk(r.ledger) by { SamePaths(l, r.ledger); }
      assert RefsOk(r.ledger, refs) by { SameActive(l, r.ledger, refs); }
      assert RowsOk(r.ledger, refs) by {
        forall b | b in r.ledger.blobs ensures RowOk(r.ledger, refs, b) { assert RowOk(l, refs, b); }
      }
    }
  }

  lemma ReserveKeeps(l: Ledger, refs: multiset<Ref>, id: Id, bytes: nat)
    requires Books(l, refs) && l.quota.max <= MAX_U64
    ensures Keeps(l, Reserve(l, id, bytes), refs, NOTHING)
  {
    var r := Reserve(l, id, bytes);
    if r.Ok? && bytes > 0 {
      assert TotalsOk(r.ledger) by { RowReweighed(l, r.ledger, id, l.blobs[id].(size := l.blobs[id].size + bytes)); }
      assert PathsOk(r.ledger) by { SamePaths(l, r.ledger); }
      assert RefsOk(r.ledger, refs) by { SameActive(l, r.ledger, refs); }
      assert RowsOk(r.ledger, refs) by {
        forall b | b in r.ledger.blobs ensures RowOk(r.ledger, refs, b) { assert RowOk(l, refs, b); }
      }
    }
  }

  // ------------------------------------------------------------- activation

  lemma OneHolder(l: Ledger, a: Id, b: Id)
    requires PathsOk(l) && a in l.blobs && b in l.blobs && l.blobs[a].storagePath == l.blobs[b].storagePath
    ensures a == b
  {
    assert a != b ==> Apart(l.blobs[a], l.blobs[b]);
  }

  /** Nothing refers to a blob that is not active. */
  lemma NoRefYet(l: Ledger, refs: multiset<Ref>, id: Id, size: int)
    requires PathsOk(l) && RefsOk(l, refs) && id in l.blobs && l.blobs[id].status != Active
    ensures Ref(l.blobs[id].storagePath, size) !in refs
  {
    var mine := Ref(l.blobs[id].storagePath, size);
    if mine in refs {
      assert ActiveAt(l, mine);
      var b :| b in l.blobs && l.blobs[b].status == Active && l.blobs[b].storagePath == mine.path;
      OneHolder(l, b, id);
    }
  }

  lemma ActivatedTotals(l: Ledger, a: Activation, n: Ledger)
    requires TotalsOk(l) && ActivateOne(l, a) == Ok(n)
    ensures TotalsOk(n)
  {
    RowReweighed(l, n, a.id, Activated(l.blobs[a.id], a.actual));
  }

  lemma ActivatedRefs(l: Ledger, refs: multiset<Ref>, a: Activation, n: Ledger)
    requires RefsOk(l, refs) && ActivateOne(l, a) == Ok(n)
    ensures RefsOk(n, refs + multiset{Ref(l.blobs[a.id].storagePath, a.actual)})
  {
    var mine := Ref(l.blobs[a.id].storagePath, a.actual);
    SameActive(l, n, refs);
    assert ActiveAt(n, mine) by { assert n.blobs[a.id].status == Active; }
    forall q | q in refs + multiset{mine} ensures ActiveAt(n, q) { assert q == mine || q in refs; }
  }

  lemma ActivatedRows(l: Ledger, refs: multiset<Ref>, a: Activation, n: Ledger)
    requires RowsOk(l, refs) && RefsOk(l, refs) && PathsOk(l) && a.id !in l.jobs && ActivateOne(l, a) == Ok(n)
    ensures RowsOk(n, refs + multiset{Ref(l.blobs[a.id].storagePath, a.actual)})
  {
    var refs' := refs + multiset{Ref(l.blobs[a.id].storagePath, a.actual)};
    NoRefYet(l, refs, a.id, a.actual);
    forall b | b in n.blobs ensures RowOk(n, refs', b) {
      assert RowOk(l, refs, b);
      assert b != a.id ==> Apart(l.blobs[b], l.blobs[a.id]);
    }
  }

  lemma ActivateOneKeeps(l: Ledger, refs: multiset<Ref>, a: Activation)
    requires Books(l, refs) && a.id in l.blobs && (l.blobs[a.id].status == Staging ==> a.id !in l.jobs)
    ensures Keeps(l, ActivateOne(l, a), refs + multiset{Ref(l.blobs[a.id].storagePath, a.actual)}, NOTHING.(activated := {a.id}))
  {
    var r := ActivateOne(l, a);
    if l.blobs[a.id].status == Staging {
      WeighMember(l, a.id);
    }
    if r.Ok? {
      ActivatedTotals(l, a, r.ledger);
      ActivatedRefs(l, refs, a, r.ledger);
      ActivatedRows(l, refs, a, r.ledger);
      SamePaths(l, r.ledger);
    }
  }

  // ---------------------------------------------------------------- release

  ghost predicate Counted(b: Blob, gone: multiset<Ref>, counts: multiset<Path>) {
    counts[b.storagePath] == gone[Ref(b.storagePath, b.size)]
  }

  ghost predicate Names(gone: multiset<Ref>, p: Path) { exists r :: r in gone && r.path == p }

  /** The released paths are those of the references taken away, with their counts. */
  ghost predicate Backs(l: Ledger, refs: multiset<Ref>, gone: multiset<Ref>, counts: multiset<Path>) {
    && gone <= refs
    && (forall b {:trigger Counted(l.blobs[b], gone, counts)} ::
         b in l.blobs && l.blobs[b].status == Active ==> Counted(l.blobs[b], gone, counts))
    && (forall p {:trigger Names(gone, p)} :: p in counts ==> Names(gone, p))
  }

  lemma HolderOf(l: Ledger, refs: multiset<Ref>, gone: multiset<Ref>, counts: multiset<Path>, p: Path) returns (b: Id)
    requires Books(l, refs) && Backs(l, refs, gone, counts) && p in counts
    ensures b in l.blobs && l.blobs[b].status == Active && l.blobs[b].storagePath == p
    ensures l.blobs[b].refCount >= counts[p]
    ensures forall a :: a in l.blobs && l.blobs[a].storagePath == p ==> a == b
  {
    assert Names(gone, p);
    var r :| r in gone && r.path == p;
    assert ActiveAt(l, r);
    b :| b in l.blobs && l.blobs[b].status == Active && l.blobs[b].storagePath == r.path && l.blobs[b].size == r.size;
    assert RowOk(l, refs, b) && Counted(l.blobs[b], gone, counts);
    assert gone[r] <= refs[r];
    forall a | a in l.blobs && l.blobs[a].storagePath == p ensures a == b { OneHolder(l, a, b); }
  }

  lemma ReleaseRefsOk(l: Ledger, refs: multiset<Ref>, gone: multiset<Ref>, counts: multiset<Path>, now: Time)
    requires Books(l, refs) && Backs(l, refs, gone, counts)
    ensures ReleaseRefs(l, counts, now).Ok?
    ensures forall b :: b in l.blobs && counts[l.blobs[b].storagePath] > 0 ==> l.blobs[b].status == Active
  {
    forall p | p in counts ensures PathTaken(l, p) && Releasable(l, p, counts[p]) {
      var b := HolderOf(l, refs, gone, counts, p);
    }
    forall b | b in l.blobs && counts[l.blobs[b].storagePath] > 0 ensures l.blobs[b].status == Active {
      var a := HolderOf(l, refs, gone, counts, l.blobs[b].storagePath);
    }
  }

  lemma ReleasedRows(l: Ledger, refs: multiset<Ref>, gone: multiset<Ref>, counts: multiset<Path>, now: Time, n: Ledger)
    requires RowsOk(l, refs) && Backs(l, refs, gone, counts) && n == AfterRelease(l, counts, now)
    requires forall b :: b in l.blobs && counts[l.blobs[b].storagePath] > 0 ==> l.blobs[b].status == Active
    ensures RowsOk(n, refs - gone)
  {
    forall b | b in n.blobs ensures RowOk(n, refs - gone, b) {
      assert RowOk(l, refs, b);
      assert l.blobs[b].status == Active ==> Counted(l.blobs[b], gone, counts);
    }
  }

  lemma ReleasedRefs(l: Ledger, refs: multiset<Ref>, gone: multiset<Ref>, counts: multiset<Path>, now: Time, n: Ledger)
    requires RowsOk(l, refs) && RefsOk(l, refs) && Backs(l, refs, gone, counts) && n == AfterRelease(l, counts, now)
    ensures RefsOk(n, refs - gone)
  {
    forall r | r in refs - gone ensures ActiveAt(n, r) {
      assert ActiveAt(l, r);
      var b :| b in l.blobs && l.blobs[b].status == Active && l.blobs[b].storagePath == r.path && l.blobs[b].size == r.size;
      assert RowOk(l, refs, b) && Counted(l.blobs[b], gone, counts);
      assert n.blobs[b].status == Active;
    }
  }

  lemma ReleasedTotals(l: Ledger, refs: multiset<Ref>, counts: multiset<Path>, now: Time, n: Ledger)
    requires RowsOk(l, refs) && TotalsOk(l) && n == AfterRelease(l, counts, now)
    requires forall b :: b in l.blobs && counts[l.blobs[b].storagePath] > 0 ==> l.blobs[b].status == Active
    ensures TotalsOk(n)
  {
    forall b | b in l.blobs ensures WeightOf(n.blobs[b]) == WeightOf(l.blobs[b]) { assert RowOk(l, refs, b); }
    WeighSame(l.blobs, n.blobs);
  }

  lemma ReleasedMoves(l: Ledger, counts: multiset<Path>, now: Time, n: Ledger)
    requires n == AfterRelease(l, counts, now)
    requires forall b :: b in l.blobs && counts[l.blobs[b].storagePath] > 0 ==> l.blobs[b].status == Active
    requires forall b :: b in l.jobs ==> b in l.blobs
    requires forall b :: b in l.blobs && l.blobs[b].status == Active ==> b !in l.jobs
    ensures Moves(l, n, NOTHING)
  {
  }

  lemma ReleasedJobs(l: Ledger, refs: multiset<Ref>, counts: multiset<Path>, now: Time, n: Ledger)
    requires Books(l, refs) && n == AfterRelease(l, counts, now)
    requires forall b :: b in l.blobs && counts[l.blobs[b].storagePath] > 0 ==> l.blobs[b].status == Active
    ensures Moves(l, n, NOTHING) && JobsOk(n) && PathsOk(n)
  {
    forall b | b in l.blobs && l.blobs[b].status == Active ensures b !in l.jobs { assert RowOk(l, refs, b); }
    ReleasedMoves(l, counts, now, n);
    SamePaths(l, n);
  }

  lemma ReleaseRefsKeeps(l: Ledger, refs: multiset<Ref>, gone: multiset<Ref>, counts: multiset<Path>, now: Time)
    requires Books(l, refs) && Backs(l, refs, gone, counts)
    ensures ReleaseRefs(l, counts, now) == Ok(AfterRelease(l, counts, now))
    ensures Keeps(l, Ok(AfterRelease(l, counts, now)), refs - gone, NOTHING)
  {
    var n := AfterRelease(l, counts, now);
    assert ReleaseRefs(l, counts, now) == Ok(n) by { ReleaseRefsOk(l, refs, gone, counts, now); }
    assert RowsOk(n, refs - gone) by {
      ReleaseRefsOk(l, refs, gone, counts, now);
      ReleasedRows(l, refs, gone, counts, now, n);
    }
    assert RefsOk(n, refs - gone) by { ReleasedRefs(l, refs, gone, counts, now, n); }
    assert TotalsOk(n) by {
      ReleaseRefsOk(l, refs, gone, counts, now);
      ReleasedTotals(l, refs, counts, now, n);
    }
    assert Moves(l, n, NOTHING) && JobsOk(n) && PathsOk(n) by {
      ReleaseRefsOk(l, refs, gone, counts, now);
      ReleasedJobs(l, refs, counts, now, n);
    }
  }

  /** Taking a row, and with it its job, out of the books. */
  lemma RemoveRow(l: Ledger, refs: multiset<Ref>, n: Ledger, id: Id)
    requires Books(l, refs) && id in l.blobs && l.blobs[id].status != Active
    requires n.blobs == l.blobs - {id} && n.jobs == l.jobs - {id}
    requires n.quota.used + WeightOf(l.blobs[id]).used == l.quota.used
    requires n.quota.reserved + WeightOf(l.blobs[id]).reserved == l.quota.reserved
    ensures Books(n, refs)
  {
    assert TotalsOk(n) by { WeighRemove(l.blobs, id); }
    assert PathsOk(n) by { SamePaths(l, n); }
    assert RefsOk(n, refs) by { SameActive(l, n, refs); }
    assert RowsOk(n, refs) by {
      forall b | b in n.blobs ensures RowOk(n, refs, b) { assert RowOk(l, refs, b); }
    }
  }

  lemma ReleaseStagingOneKeeps(l: Ledger, refs: multiset<Ref>, id: Id)
    requires Books(l, refs)
    ensures Keeps(l, ReleaseStagingOne(l, id), refs, NOTHING.(dropped := {id}))
  {
    if id in l.blobs && l.blobs[id].status == Staging {
      WeighMember(l, id);
      RemoveRow(l, refs, ReleaseStagingOne(l, id).ledger, id);
    }
  }

  // ------------------------------------------------------------ cleanup jobs

  /** Changing lease and retry columns of jobs, or the quota ceiling, keeps the books. */
  lemma SameRows(l: Ledger, n: Ledger, refs: multiset<Ref>)
    requires Books(l, refs)
    requires n.blobs == l.blobs && n.quota.used == l.quota.used && n.quota.reserved == l.quota.reserved
    requires n.jobs.Keys == l.jobs.Keys
    requires forall b :: b in l.jobs ==> n.jobs[b].storagePath == l.jobs[b].storagePath
    ensures Books(n, refs)
  {
    assert PathsOk(n) by { SamePaths(l, n); }
    assert RefsOk(n, refs) by { SameActive(l, n, refs); }
    assert RowsOk(n, refs) by {
      forall b | b in n.blobs ensures RowOk(n, refs, b) { assert RowOk(l, refs, b); }
    }
  }

  lemma ClaimKeeps(l: Ledger, refs: multiset<Ref>, id: Id, owner: Id, now: Time, until: Time)
    requires Books(l, refs)
    ensures Keeps(l, Claim(l, id, owner, now, until), refs, NOTHING.(claim := Some((id, owner))))
  {
    var r := Claim(l, id, owner, now, until);
    if r.Ok? { SameRows(l, r.ledger, refs); }
  }

  lemma RenewJobKeeps(l: Ledger, refs: multiset<Ref>, id: Id, owner: Id, until: Time)
    requires Books(l, refs)
    ensures Keeps(l, RenewJob(l, id, owner, until), refs, NOTHING)
  {
    var r := RenewJob(l, id, owner, until);
    if r.Ok? { SameRows(l, r.ledger, refs); }
  }

  lemma FailJobKeeps(l: Ledger, refs: multiset<Ref>, id: Id, owner: Id, retryAt: Time)
    requires Books(l, refs)
    ensures Keeps(l, FailJob(l, id, owner, retryAt), refs, NOTHING)
  {
    var r := FailJob(l, id, owner, retryAt);
    if r.Ok? { SameRows(l, r.ledger, refs); }
  }

  /** Completion takes exactly the blob's bytes out of exactly the column that held them;
      in sound books an owner's completion always succeeds. */
  lemma CompleteJobKeeps(l: Ledger, refs: multiset<Ref>, id: Id, owner: Id)
    requires Books(l, refs)
    ensures Keeps(l, CompleteJob(l, id, owner), refs, NOTHING)
    ensures CompleteJob(l, id, owner).Ok? <==> Owns(l, id, owner)
    ensures Owns(l, id, owner) ==>
      var n := CompleteJob(l, id, owner).ledger;
      id in l.blobs && n.blobs == l.blobs - {id} && n.jobs == l.jobs - {id}
      && Plus(Weight(n.quota.used, n.quota.reserved), WeightOf(l.blobs[id])) == Weight(l.quota.used, l.quota.reserved)
  {
    if Owns(l, id, owner) {
      assert RowOk(l, refs, id);
      WeighMember(l, id);
      RemoveRow(l, refs, CompleteJob(l, id, owner).ledger, id);
    }
  }

  lemma EnqueueKeeps(l: Ledger, refs: multiset<Ref>, paths: map<Id, Path>, now: Time)
    requires Books(l, refs)
    requires forall b :: b in paths && b in l.blobs ==>
      l.blobs[b].storagePath == paths[b] && (l.blobs[b].status == Staging || l.blobs[b].status == PendingDelete)
    ensures Keeps(l, Enqueue(l, paths, now), refs, NOTHING.(jobbed := paths.Keys))
  {
    var r := Enqueue(l, paths, now);
    if r.Ok? {
      assert PathsOk(r.ledger) by { SamePaths(l, r.ledger); }
      assert RefsOk(r.ledger, refs) by { SameActive(l, r.ledger, refs); }
      assert RowsOk(r.ledger, refs) by {
        forall b | b in r.ledger.blobs ensures RowOk(r.ledger, refs, b) { assert RowOk(l, refs, b); }
      }
    }
  }

  // ---------------------------------------------------------- reconciliation

  lemma SealKeeps(l: Ledger, refs: multiset<Ref>, ids: set<Id>, now: Time)
    requires Books(l, refs)
    ensures Keeps(l, SealWithJobs(l, ids, now), refs, NOTHING)
  {
    var r := SealWithJobs(l, ids, now);
    if r.Ok? {
      assert TotalsOk(r.ledger) by {
        forall b | b in l.blobs ensures WeightOf(r.ledger.blobs[b]) == WeightOf(l.blobs[b]) { assert RowOk(l, refs, b); }
        WeighSame(l.blobs, r.ledger.blobs);
      }
      assert PathsOk(r.ledger) by { SamePaths(l, r.ledger); }
      assert RefsOk(r.ledger, refs) by { SameActive(l, r.ledger, refs); }
      assert RowsOk(r.ledger, refs) by {
        forall b | b in r.ledger.blobs ensures RowOk(r.ledger, refs, b) { assert RowOk(l, refs, b); }
      }
    }
  }

  /** Expiry is sealing: in sound books no staging blob has references. */
  lemma ExpireKeeps(l: Ledger, refs: multiset<Ref>, ids: set<Id>, before: Time, now: Time)
    requires Books(l, refs)
    ensures Keeps(l, Expire(l, ids, before, now), refs, NOTHING)
  {
    if Expire(l, ids, before, now).Ok? {
      forall b | b in ids ensures b in l.blobs && l.blobs[b].status == Staging && l.blobs[b].refCount == 0 {
        assert RowOk(l, refs, b);
      }
      SealKeeps(l, refs, ids, now);
    }
  }

  lemma OrphanBooks(l: Ledger, refs: multiset<Ref>, n: Ledger, id: Id, b: Blob)
    requires Books(l, refs) && id !in l.blobs && id !in l.jobs
    requires b.status == Orphaned && b.stagingPath.None? && b.lease.None? && b.refCount == 0 && b.storagePath != Empty
    requires forall x :: x in l.blobs ==> !l.blobs[x].Holds(b.storagePath)
    requires n == l.(quota := l.quota.(used := l.quota.used + b.size), blobs := l.blobs[id := b]) && n.quota.used <= MAX_U64
    ensures Books(n, refs)
  {
    assert TotalsOk(n) by { RowWeighed(l, n, id, b); }
    assert PathsOk(n) by { MorePaths(l, n, id); }
    assert RefsOk(n, refs) by { SameActive(l, n, refs); }
    assert RowsOk(n, refs) by {
      forall x | x in n.blobs ensures RowOk(n, refs, x) {
        if x != id { assert RowOk(l, refs, x); }
      }
    }
  }

  lemma RegisterOrphanKeeps(l: Ledger, refs: multiset<Ref>, id: Id, path: Path, size: nat, now: Time)
    requires Books(l, refs) && path != Empty
    requires id !in l.jobs && forall b :: b in l.blobs ==> l.blobs[b].stagingPath != Some(path)
    ensures var r := RegisterOrphan(l, id, path, size, now);
      match r
      case Ok(n) => Books(n, refs) && Moves(l, n, NOTHING.(created := {id})) && n.quota.max == l.quota.max
      case Err(e) => e != Inconsistent
  {
    var r := RegisterOrphan(l, id, path, size, now);
    if r.Ok? {
      assert Books(r.ledger, refs) by { OrphanBooks(l, refs, r.ledger, id, Blob(path, None, size, 0, Orphaned, None, now)); }
    }
  }

  lemma ScheduledBooks(l: Ledger, refs: multiset<Ref>, n: Ledger, id: Id)
    requires Books(l, refs) && id in l.blobs && l.blobs[id].refCount == 0 && l.blobs[id].lease.None? && id in n.jobs
    requires l.blobs[id].status == Orphaned || l.blobs[id].status == PendingDelete
    requires l.blobs[id].status == Orphaned ==> !l.blobs[id].HasStaging()
    requires n.quota == l.quota && n.blobs == l.blobs[id := l.blobs[id].(status := PendingDelete)]
    requires n.jobs == l.jobs[id := n.jobs[id]] && n.jobs[id].storagePath == l.blobs[id].storagePath
    ensures Books(n, refs)
  {
    assert TotalsOk(n) by { RowReweighed(l, n, id, l.blobs[id].(status := PendingDelete)); }
    assert PathsOk(n) by { SamePaths(l, n); }
    assert RefsOk(n, refs) by { SameActive(l, n, refs); }
    assert RowsOk(n, refs) by {
      forall b | b in n.blobs ensures RowOk(n, refs, b) { assert RowOk(l, refs, b); }
    }
  }

  lemma ScheduleOrphanKeeps(l: Ledger, refs: multiset<Ref>, id: Id, now: Time)
    requires Books(l, refs)
    ensures Keeps(l, ScheduleOrphan(l, id, now), refs, NOTHING)
  {
    var r := ScheduleOrphan(l, id, now);
    if r.Ok? {
      assert RowOk(l, refs, id);
      assert Books(r.ledger, refs) by { ScheduledBooks(l, refs, r.ledger, id); }
    }
  }

  // ------------------------------------------------------------------ batches

  lemma {:induction false} ReleaseStagingAllKeeps(l: Ledger, refs: multiset<Ref>, ids: seq<Id>)
    requires Books(l, refs)
    ensures Keeps(l, ReleaseStagingAll(l, ids), refs, NOTHING.(dropped := set b | b in ids))
    ensures ReleaseStagingAll(l, ids).Ok? ==> ReleaseStagingAll(l, ids).ledger.jobs.Keys <= l.jobs.Keys
    decreases |ids|
  {
    if ids == [] {
      assert Moves(l, l, NOTHING.(dropped := set b | b in ids));
    } else {
      var first := if ids[0] == Empty then Ok(l) else ReleaseStagingOne(l, ids[0]);
      ReleaseStagingOneKeeps(l, refs, ids[0]);
      if first.Ok? {
        var m := first.ledger;
        ReleaseStagingAllKeeps(m, refs, ids[1..]);
        var rest := ReleaseStagingAll(m, ids[1..]);
        if rest.Ok? {
          var d := NOTHING.(dropped := set b | b in ids[1..]);
          assert Moves(l, m, NOTHING.(dropped := {ids[0]}));
          MovesCompose(l, m, rest.ledger, NOTHING.(dropped := {ids[0]}), d);
          assert (set b | b in ids) == {ids[0]} + (set b | b in ids[1..]);
          assert Join(NOTHING.(dropped := {ids[0]}), d) == NOTHING.(dropped := set b | b in ids);
        }
      }
    }
  }

  predicate NoNameShared(a: NewBlob, b: NewBlob) {
    && a.id != b.id
    && a.storagePath != b.storagePath && a.storagePath != b.stagingPath
    && a.stagingPath != b.storagePath && a.stagingPath != b.stagingPath
  }

  predicate FreshRows(l: Ledger, rows: seq<NewBlob>) {
    && (forall n :: n in rows ==> FreshRow(l, n))
    && (forall i, j :: 0 <= i < j < |rows| ==> NoNameShared(rows[i], rows[j]))
  }

  function RowIds(rows: seq<NewBlob>): set<Id> { set n | n in rows :: n.id }

  function RowPaths(rows: seq<NewBlob>): set<Path> {
    (set n | n in rows :: n.storagePath) + (set n | n in rows :: n.stagingPath)
  }

  lemma {:induction false} CreateAllKeeps(l: Ledger, refs: multiset<Ref>, rows: seq<NewBlob>, now: Time, until: Time)
    requires Books(l, refs) && FreshRows(l, rows) && l.quota.max <= MAX_U64
    ensures Keeps(l, CreateAll(l, rows, now, until), refs, NOTHING.(created := RowIds(rows), newPaths := RowPaths(rows)))
    ensures CreateAll(l, rows, now, until).Ok? ==>
      var n := CreateAll(l, rows, now, until).ledger;
      n.jobs == l.jobs
      && (forall b :: b in n.blobs <==> b in l.blobs || b in RowIds(rows))
      && (forall b :: b in l.blobs ==> n.blobs[b] == l.blobs[b])
      && (forall r :: r in rows ==> n.blobs[r.id] == StagingRow(r, now, until))
    decreases |rows|
  {
    if rows == [] {
      assert Moves(l, l, NOTHING.(created := RowIds(rows), newPaths := RowPaths(rows)));
    } else {
      var r := rows[0];
      assert r in rows;
      CreateOneKeeps(l, refs, r, now, until);
      var first := CreateOne(l, r, now, until);
      if first.Ok? {
        var m := first.ledger;
        forall n | n in rows[1..] ensures FreshRow(m, n) {
          var i :| 0 <= i < |rows[1..]| && rows[1..][i] == n;
          assert n in rows && NoNameShared(rows[0], rows[i + 1]);
        }
        forall i, j | 0 <= i < j < |rows[1..]| ensures NoNameShared(rows[1..][i], rows[1..][j]) {
          assert NoNameShared(rows[i + 1], rows[j + 1]);
        }
        CreateAllKeeps(m, refs, rows[1..], now, until);
        var rest := CreateAll(m, rows[1..], now, until);
        if rest.Ok? {
          CreatedMoves(l, m, rest.ledger, rows);
          CreatedThen(l, m, rest.ledger, rows, now, until);
        }
      }
    }
  }

  lemma CreatedMoves(l: Ledger, m: Ledger, n: Ledger, rows: seq<NewBlob>)
    requires rows != [] && JobsOk(l) && JobsOk(m) && JobsOk(n) && n.jobs == m.jobs == l.jobs
    requires Moves(m, n, NOTHING.(created := RowIds(rows[1..]), newPaths := RowPaths(rows[1..])))
    requires Moves(l, m, NOTHING.(created := {rows[0].id}, newPaths := {rows[0].storagePath, rows[0].stagingPath}))
    requires forall b :: b in RowIds(rows[1..]) ==> b !in l.blobs
    ensures Moves(l, n, NOTHING.(created := RowIds(rows), newPaths := RowPaths(rows)))
  {
    var c := NOTHING.(created := {rows[0].id}, newPaths := {rows[0].storagePath, rows[0].stagingPath});
    var d := NOTHING.(created := RowIds(rows[1..]), newPaths := RowPaths(rows[1..]));
    assert Join(c, d) == NOTHING.(created := RowIds(rows), newPaths := RowPaths(rows)) by {
      assert rows == [rows[0]] + rows[1..];
      assert RowIds(rows) == c.created + d.created && RowPaths(rows) == c.newPaths + d.newPaths;
    }
    MovesCompose(l, m, n, c, d);
  }

  lemma CreatedThen(l: Ledger, m: Ledger, n: Ledger, rows: seq<NewBlob>, now: Time, until: Time)
    requires rows != [] && CreateOne(l, rows[0], now, until) == Ok(m) && rows[0].id !in RowIds(rows[1..])
    requires forall b :: b in n.blobs <==> b in m.blobs || b in RowIds(rows[1..])
    requires forall b :: b in m.blobs ==> n.blobs[b] == m.blobs[b]
    requires forall r :: r in rows[1..] ==> n.blobs[r.id] == StagingRow(r, now, until)
    requires forall r :: r in rows[1..] ==> r.id !in l.blobs
    ensures forall b :: b in n.blobs <==> b in l.blobs || b in RowIds(rows)
    ensures forall b :: b in l.blobs ==> n.blobs[b] == l.blobs[b]
    ensures forall r :: r in rows ==> n.blobs[r.id] == StagingRow(r, now, until)
  {
    assert rows == [rows[0]] + rows[1..];
    assert RowIds(rows) == {rows[0].id} + RowIds(rows[1..]);
    forall r | r in rows ensures n.blobs[r.id] == StagingRow(r, now, until) {
      assert r == rows[0] || r in rows[1..];
    }
  }
}
