/**
  The repository as the code runs it: the quota row, the blob rows and the job rows updated
  in place, in batches. Each method is proved against the ledger transaction it implements,
  for every batch size.
 */
module StorageBlobRepository {
  import opened Common
  import opened LedgerTransactions
  import opened LedgerBatches

  function Normalized(batchSize: int): (r: nat)
    ensures r > 0
  {
    if batchSize <= 0 then 100 else batchSize
  }

  // --------------------------------------------------------- counting matches

  lemma {:induction false} CountOf(ids: seq<Id>)
    requires DistinctIds(ids)
    ensures |IdSet(ids)| == |ids|
  {
    if ids != [] {
      var rest := ids[1..];
      forall i, j | 0 <= i < j < |rest| ensures rest[i] != rest[j] { assert ids[i + 1] != ids[j + 1]; }
      CountOf(rest);
      assert ids == [ids[0]] + rest;
      assert forall i :: 0 <= i < |rest| ==> rest[i] == ids[i + 1] != ids[0];
      assert IdSet(ids) == {ids[0]} + IdSet(rest);
    }
  }

  lemma Included(a: set<Id>, b: set<Id>)
    requires a <= b
    ensures |a| <= |b| && (|a| == |b| ==> a == b)
  {
    assert b == a + (b - a);
    if |a| == |b| { assert |b - a| == 0; }
  }

  /** An UPDATE that matched as many rows as it listed matched all of them. */
  lemma AllMatched(matched: set<Id>, ids: seq<Id>)
    requires DistinctIds(ids) && matched <= IdSet(ids)
    ensures |matched| == |ids| <==> matched == IdSet(ids)
  {
    CountOf(ids);
    Included(matched, IdSet(ids));
  }

  lemma Chunk(ids: seq<Id>, start: nat, end: nat)
    requires start <= end <= |ids|
    ensures IdSet(ids[..end]) == IdSet(ids[..start]) + IdSet(ids[start..end])
    ensures DistinctIds(ids) ==> DistinctIds(ids[start..end]) && IdSet(ids[..start]) !! IdSet(ids[start..end])
  {
    assert ids[..end] == ids[..start] + ids[start..end];
  }

  /** The distinct identifiers of a list, in order, unless one of them is empty. */
  method DistinctNonEmpty(blobIds: seq<Id>) returns (ok: bool, ids: seq<Id>)
    ensures ok <==> Empty !in blobIds
    ensures ok ==> DistinctIds(ids) && IdSet(ids) == IdSet(blobIds)
  {
    ids := [];
    var seen: set<Id> := {};
    for i := 0 to |blobIds|
      invariant Empty !in blobIds[..i] && seen == IdSet(blobIds[..i]) == IdSet(ids) && DistinctIds(ids)
    {
      if blobIds[i] == Empty { return false, ids; }
      assert blobIds[..i + 1] == blobIds[..i] + [blobIds[i]];
      if blobIds[i] !in seen {
        seen := seen + {blobIds[i]};
        assert IdSet(ids + [blobIds[i]]) == IdSet(ids) + {blobIds[i]};
        ids := ids + [blobIds[i]];
      }
    }
    assert blobIds[..|blobIds|] == blobIds;
    return true, ids;
  }

  // ---------------------------------------------------------- batched updates

  /** UPDATE of the rows in `ids`. */
  function Updated(blobs: map<Id, Blob>, ids: set<Id>, change: (Id, Blob) -> Blob): map<Id, Blob> {
    map b | b in blobs :: if b in ids then change(b, blobs[b]) else blobs[b]
  }

  /** The rows that an UPDATE of `ids` with the condition `on` matches. */
  function Matched(blobs: map<Id, Blob>, ids: set<Id>, on: Blob -> bool): set<Id> {
    set b | b in ids && b in blobs && on(blobs[b])
  }

  lemma UpdatedMore(blobs: map<Id, Blob>, done: set<Id>, more: set<Id>, change: (Id, Blob) -> Blob)
    requires done !! more
    ensures Updated(Updated(blobs, done, change), more, change) == Updated(blobs, done + more, change)
  {
  }

  lemma MatchedMore(blobs: map<Id, Blob>, done: set<Id>, more: set<Id>, on: Blob -> bool, change: (Id, Blob) -> Blob)
    requires done !! more
    ensures Matched(Updated(blobs, done, change), more, on) == Matched(blobs, more, on)
  {
  }

  lemma BatchCounts(blobs: map<Id, Blob>, ids: seq<Id>, start: nat, end: nat, on: Blob -> bool)
    requires DistinctIds(ids) && start <= end <= |ids|
    ensures var matched := Matched(blobs, IdSet(ids[start..end]), on);
      && matched <= Matched(blobs, IdSet(ids), on)
      && (|matched| == end - start ==> IdSet(ids[..start]) + matched == IdSet(ids[..end]))
      && (|matched| != end - start ==> Matched(blobs, IdSet(ids), on) != IdSet(ids))
  {
    var batch := ids[start..end];
    var matched := Matched(blobs, IdSet(batch), on);
    Chunk(ids, start, end);
    AllMatched(matched, batch);
    assert IdSet(batch) <= IdSet(ids);
    if |matched| != end - start {
      var missing :| missing in IdSet(batch) && missing !in matched;
      assert missing in IdSet(ids) && missing !in Matched(blobs, IdSet(ids), on);
    }
  }

  /** One batch of an UPDATE, after the batches before it have matched all their rows. */
  lemma NextBatch(blobs: map<Id, Blob>, mid: map<Id, Blob>, ids: seq<Id>, start: nat, end: nat, matched: set<Id>,
                  on: Blob -> bool, change: (Id, Blob) -> Blob)
    requires DistinctIds(ids) && start <= end <= |ids|
    requires mid == Updated(blobs, IdSet(ids[..start]), change)
    requires matched == Matched(mid, IdSet(ids[start..end]), on)
    ensures matched == Matched(blobs, IdSet(ids[start..end]), on) <= Matched(blobs, IdSet(ids), on)
    ensures Updated(mid, matched, change) == Updated(blobs, IdSet(ids[..start]) + matched, change)
    ensures |matched| == end - start ==> IdSet(ids[..start]) + matched == IdSet(ids[..end])
    ensures |matched| != end - start ==> Matched(blobs, IdSet(ids), on) != IdSet(ids)
  {
    var done, more := IdSet(ids[..start]), IdSet(ids[start..end]);
    assert done !! more by { Chunk(ids, start, end); }
    MatchedMore(blobs, done, more, on, change);
    UpdatedMore(blobs, done, matched, change);
    BatchCounts(blobs, ids, start, end, on);
  }

  function JobsFor(blobs: map<Id, Blob>, ids: set<Id>, now: Time): map<Id, Job> {
    map b | b in ids && b in blobs :: Job(blobs[b].storagePath, 0, now, None, None)
  }

  // -------------------------------------------------------- batched inserts

  /** One row of an insert into the jobs table. */
  datatype NewJob = NewJob(blob: Id, path: Path)

  /** The path each listed blob gets; the first row for a blob wins, as the later ones then
      meet an existing job. */
  function FirstPaths(rows: seq<NewJob>): map<Id, Path>
    decreases |rows|
  {
    if rows == [] then map[] else FirstPaths(rows[1..])[rows[0].blob := rows[0].path]
  }

  lemma {:induction false} FirstPathsConcat(a: seq<NewJob>, b: seq<NewJob>)
    ensures FirstPaths(a + b) == FirstPaths(b) + FirstPaths(a)
    decreases |a|
  {
    if a == [] {
      assert a + b == b;
    } else {
      assert (a + b)[1..] == a[1..] + b;
      FirstPathsConcat(a[1..], b);
    }
  }

  lemma {:induction false} FirstPathsAre(rows: seq<NewJob>)
    ensures forall b :: b in FirstPaths(rows) <==> exists i :: 0 <= i < |rows| && rows[i].blob == b
    ensures forall i {:trigger IsFirst(rows, i)} :: IsFirst(rows, i) ==>
      rows[i].blob in FirstPaths(rows) && FirstPaths(rows)[rows[i].blob] == rows[i].path
    decreases |rows|
  {
    if rows != [] {
      var rest := rows[1..];
      FirstPathsAre(rest);
      forall b ensures b in FirstPaths(rows) <==> exists i :: 0 <= i < |rows| && rows[i].blob == b {
        if b in FirstPaths(rest) { var i :| 0 <= i < |rest| && rest[i].blob == b; assert rows[i + 1].blob == b; }
        if i :| 0 <= i < |rows| && rows[i].blob == b { assert i > 0 ==> rest[i - 1].blob == b; }
      }
      forall i | IsFirst(rows, i)
        ensures rows[i].blob in FirstPaths(rows) && FirstPaths(rows)[rows[i].blob] == rows[i].path
      {
        if i > 0 {
          assert rows[0].blob != rows[i].blob && rest[i - 1] == rows[i];
          assert IsFirst(rest, i - 1) by { assert forall j :: 0 <= j < i - 1 ==> rest[j] == rows[j + 1]; }
        }
      }
    }
  }

  function OpenJobs(paths: map<Id, Path>, now: Time): map<Id, Job> {
    map b | b in paths :: Job(paths[b], 0, now, None, None)
  }

  predicate AllThere(rows: seq<NewJob>, blobs: map<Id, Blob>) {
    forall i :: 0 <= i < |rows| ==> rows[i].blob in blobs
  }

  /** Inserting some rows, then some more. */
  lemma MoreJobs(a: seq<NewJob>, b: seq<NewJob>, jobs: map<Id, Job>, now: Time)
    ensures OpenJobs(FirstPaths(a + b), now) + jobs == OpenJobs(FirstPaths(b), now) + (OpenJobs(FirstPaths(a), now) + jobs)
  {
    FirstPathsConcat(a, b);
  }

  lemma OneJob(row: NewJob, have: map<Id, Job>, now: Time)
    ensures OpenJobs(FirstPaths([row]), now) + have
         == if row.blob in have then have else have[row.blob := Job(row.path, 0, now, None, None)]
  {
    assert [row][1..] == [];
  }

  /** No earlier row is for the same blob. */
  predicate IsFirst(rows: seq<NewJob>, i: int) {
    0 <= i < |rows| && forall j :: 0 <= j < i ==> rows[j].blob != rows[i].blob
  }

  /** Existing jobs are as they were, every other listed blob has the job of its first row,
      and no other blob got one. */
  ghost predicate Enqueued(was: map<Id, Job>, jobs: map<Id, Job>, rows: seq<NewJob>, now: Time) {
    && (forall b :: b in was ==> b in jobs && jobs[b] == was[b])
    && (forall b :: b in jobs && b !in was ==> exists i :: 0 <= i < |rows| && rows[i].blob == b)
    && (forall i {:trigger IsFirst(rows, i)} :: IsFirst(rows, i) && rows[i].blob !in was ==>
         rows[i].blob in jobs && jobs[rows[i].blob] == Job(rows[i].path, 0, now, None, None))
  }

  lemma EnqueueIs(l: Ledger, rows: seq<NewJob>, now: Time)
    ensures Enqueue(l, FirstPaths(rows), now)
         == if AllThere(rows, l.blobs) then Ok(l.(jobs := OpenJobs(FirstPaths(rows), now) + l.jobs)) else Err(NotFound)
    ensures Enqueued(l.jobs, OpenJobs(FirstPaths(rows), now) + l.jobs, rows, now)
  {
    FirstPathsAre(rows);
    if !AllThere(rows, l.blobs) {
      var i :| 0 <= i < |rows| && rows[i].blob !in l.blobs;
      assert rows[i].blob in FirstPaths(rows);
    }
  }

  /** The transaction did what its specification says: on success the new ledger, on
      refusal the same error and the ledger as it was. */
  predicate Did(before: Ledger, after: Ledger, r: Option<Error>, spec: Result) {
    match spec
    case Ok(n) => r == None && after == n
    case Err(e) => r == Some(e) && after == before
  }

  /** As `Did`, where the batch may name another reason for the same refusal. */
  predicate DidAll(before: Ledger, after: Ledger, r: Option<Error>, spec: Result) {
    match spec
    case Ok(n) => r == None && after == n
    case Err(_) => r.Some? && after == before
  }

  /** The loop that adds up the declared sizes and collects the identifiers. */
  method TotalOf(rows: seq<NewBlob>) returns (fits: bool, total: nat, ids: seq<Id>)
    ensures fits <==> TotalNew(rows) <= MAX_U64
    ensures fits ==> total == TotalNew(rows) && |ids| == |rows| && forall j :: 0 <= j < |rows| ==> ids[j] == rows[j].id
  {
    total, ids := 0, [];
    for i := 0 to |rows|
      invariant total == TotalNew(rows[..i]) <= MAX_U64 && |ids| == i && forall j :: 0 <= j < i ==> ids[j] == rows[j].id
    {
      assert rows[..i + 1] == rows[..i] + [rows[i]] && rows == rows[..i + 1] + rows[i + 1..];
      TotalNewAppend(rows[..i], [rows[i]]);
      TotalNewAppend(rows[..i + 1], rows[i + 1..]);
      assert TotalNew([rows[i]]) == rows[i].size by { assert [rows[i]][1..] == []; }
      if MAX_U64 - total < rows[i].size { return false, total, ids; }
      total := total + rows[i].size;
      ids := ids + [rows[i].id];
    }
    assert rows[..|rows|] == rows;
    return true, total, ids;
  }

  lemma IdsInserted(rows: seq<NewBlob>, ids: seq<Id>)
    requires |ids| == |rows| && forall j :: 0 <= j < |rows| ==> ids[j] == rows[j].id
    ensures IdSet(ids) == NewIds(rows)
  {
    forall b | b in ids ensures b in NewIds(rows) {
      var j :| 0 <= j < |ids| && ids[j] == b;
      assert rows[j] in rows;
    }
    forall b | b in NewIds(rows) ensures b in ids {
      var n :| n in rows && n.id == b;
      var j :| 0 <= j < |rows| && rows[j] == n;
      assert ids[j] == b;
    }
  }

  /** Leasing the rows of an insert. */
  lemma LeasedAfterInsert(blobs: map<Id, Blob>, rows: seq<NewBlob>, ids: seq<Id>, now: Time, until: Time)
    requires NoDuplicates(blobs, rows) && |ids| == |rows| && forall j :: 0 <= j < |rows| ==> ids[j] == rows[j].id
    ensures var n := Inserted(blobs, rows, now, None);
      && (forall b :: b in ids ==> b in n && n[b].status == Staging)
      && (map b | b in n :: if b in IdSet(ids) then n[b].(lease := Some(until)) else n[b]) == Inserted(blobs, rows, now, Some(until))
    ensures Empty in ids <==> exists n :: n in rows && n.id == Empty
  {
    IdsInserted(rows, ids);
    InsertedRows(blobs, rows, now, None);
    InsertedRows(blobs, rows, now, Some(until));
    forall b | b in ids ensures b in NewIds(rows) { assert b in IdSet(ids); }
    forall b | b in NewIds(rows)
      ensures var n := Inserted(blobs, rows, now, None);
        n[b].status == Staging && n[b].(lease := Some(until)) == Inserted(blobs, rows, now, Some(until))[b]
    {
      var n :| n in rows && n.id == b;
    }
    assert Empty in IdSet(ids) <==> exists n :: n in rows && n.id == Empty;
  }

  lemma FoundAll(blobs: map<Id, Blob>, ids: seq<Id>, found: map<Id, Blob>)
    requires DistinctIds(ids) && found == (map b | b in IdSet(ids) && b in blobs :: blobs[b])
    ensures |found| == |ids| <==> forall b :: b in ids ==> b in blobs
  {
    CountOf(ids);
    Included(found.Keys, IdSet(ids));
    assert |found| == |found.Keys|;
    if |found| == |ids| {
      forall b | b in ids ensures b in blobs { assert b in IdSet(ids); }
    }
    assert (forall b :: b in ids ==> b in blobs) ==> found.Keys == IdSet(ids);
  }

  lemma FoundEach(l: Ledger, acts: seq<Activation>, ids: seq<Id>, found: map<Id, Blob>)
    requires DistinctIds(ids) && IdSet(ids) == ActIds(acts) && found == (map b | b in IdSet(ids) && b in l.blobs :: l.blobs[b])
    ensures |found| != |ids| ==> !Batchable(l, acts) && exists a :: a in acts && a.id !in l.blobs
    ensures |found| == |ids| ==> forall a :: a in acts ==> a.id in found && a.id in l.blobs && found[a.id] == l.blobs[a.id]
  {
    FoundAll(l.blobs, ids, found);
    forall a | a in acts ensures a.id in ids { assert a.id in ActIds(acts) && a.id in IdSet(ids); }
    if |found| != |ids| {
      var b :| b in ids && b !in l.blobs;
      assert b in ActIds(acts);
      var a :| a in acts && a.id == b;
      assert !Activatable(l, a);
    }
  }

  /** One size for each identifier of the activations so far. */
  ghost predicate SizesById(acts: seq<Activation>, ids: seq<Id>, sizes: map<Id, nat>) {
    && DistinctActs(acts) && Empty !in ActIds(acts)
    && DistinctIds(ids) && IdSet(ids) == ActIds(acts) && sizes.Keys == ActIds(acts) && SizesOf(sizes, acts)
  }

  lemma OneActMore(acts: seq<Activation>, ids: seq<Id>, sizes: map<Id, nat>, a: Activation)
    requires SizesById(acts, ids, sizes) && a.id != Empty && a.id !in sizes
    ensures SizesById(acts + [a], ids + [a.id], sizes[a.id := a.actual])
  {
    assert ActIds(acts + [a]) == ActIds(acts) + {a.id};
    assert IdSet(ids + [a.id]) == IdSet(ids) + {a.id};
    assert forall x :: x in acts ==> x.id in ActIds(acts);
  }

  lemma Repeated(acts: seq<Activation>, i: nat)
    requires i < |acts| && acts[i].id in ActIds(acts[..i])
    ensures !DistinctActs(acts)
  {
    var x :| x in acts[..i] && x.id == acts[i].id;
    var j :| 0 <= j < i && acts[..i][j] == x;
    assert acts[j].id == acts[i].id;
  }

  /** The first loop of the batch: one size for each identifier, refusing an empty or a
      repeated one. */
  method ActivationsById(acts: seq<Activation>) returns (ok: bool, ids: seq<Id>, sizes: map<Id, nat>)
    ensures ok <==> DistinctActs(acts) && Empty !in ActIds(acts)
    ensures ok ==> SizesById(acts, ids, sizes)
  {
    ids, sizes := [], map[];
    for i := 0 to |acts|
      invariant SizesById(acts[..i], ids, sizes)
    {
      var a := acts[i];
      assert a in acts;
      if a.id == Empty { return false, ids, sizes; }
      if a.id in sizes {
        Repeated(acts, i);
        return false, ids, sizes;
      }
      OneActMore(acts[..i], ids, sizes, a);
      assert acts[..i + 1] == acts[..i] + [a];
      sizes := sizes[a.id := a.actual];
      ids := ids + [a.id];
    }
    assert acts[..|acts|] == acts;
    return true, ids, sizes;
  }

  /** What the loop over the rows has against row i, given the sums up to it. */
  function RowRefusal(l: Ledger, acts: seq<Activation>, i: nat): Option<Error>
    requires i < |acts|
  {
    var a := acts[i];
    if a.id !in l.blobs then Some(NotFound)
    else if l.blobs[a.id].status != Staging then Some(WrongStatus)
    else if a.actual > l.blobs[a.id].size then Some(ExceedsReservation)
    else if ReservedOf(l.blobs, acts[..i + 1]) > MAX_U64 || ActualOf(acts[..i + 1]) > MAX_U64 then Some(Overflow)
    else None
  }

  ghost predicate FirstRefused(l: Ledger, acts: seq<Activation>, i: nat) {
    i < |acts| && RowRefusal(l, acts, i).Some? && forall j {:trigger RowRefusal(l, acts, j)} :: 0 <= j < i ==> RowRefusal(l, acts, j).None?
  }

  /** The one error a batch is refused with, whichever others apply too: an unusable list of
      identifiers, a missing row, the first row with an error, the two columns. */
  ghost predicate RefusedWith(l: Ledger, acts: seq<Activation>, e: Error) {
    if !DistinctActs(acts) || Empty in ActIds(acts) then e == Duplicate
    else if exists a :: a in acts && a.id !in l.blobs then e == NotFound
    else if exists i :: FirstRefused(l, acts, i) then exists i :: FirstRefused(l, acts, i) && RowRefusal(l, acts, i) == Some(e)
    else if ReservedOf(l.blobs, acts) > l.quota.reserved then e == Inconsistent
    else e == Overflow && l.quota.used + ActualOf(acts) > MAX_U64
  }

  /** The second loop: check each row and add up both totals. */
  method Totals(acts: seq<Activation>, found: map<Id, Blob>, ghost l: Ledger)
    returns (failed: Option<Error>, totalReserved: nat, totalActual: nat)
    requires l.quota.reserved <= MAX_U64
    requires forall a :: a in acts ==> a.id in found && a.id in l.blobs && found[a.id] == l.blobs[a.id]
    ensures failed.Some? ==> !Batchable(l, acts) && exists i :: FirstRefused(l, acts, i) && RowRefusal(l, acts, i) == failed
    ensures failed.None? ==> (forall a :: a in acts ==> Activatable(l, a)) && forall i :: !FirstRefused(l, acts, i)
    ensures failed.None? ==> totalReserved == ReservedOf(l.blobs, acts) && totalActual == ActualOf(acts)
  {
    totalReserved, totalActual := 0, 0;
    for i := 0 to |acts|
      invariant forall j :: 0 <= j < i ==> Activatable(l, acts[j])
      invariant forall j {:trigger RowRefusal(l, acts, j)} :: 0 <= j < i ==> RowRefusal(l, acts, j).None?
      invariant totalReserved == ReservedOf(l.blobs, acts[..i]) <= MAX_U64 && totalActual == ActualOf(acts[..i]) <= MAX_U64
    {
      var a := acts[i];
      assert a in acts;
      var blob := found[a.id];
      ReservedStep(l.blobs, acts, i);
      if blob.status != Staging { failed := Some(WrongStatus); }
      else if a.actual > blob.size { failed := Some(ExceedsReservation); }
      else if MAX_U64 - totalReserved < blob.size || MAX_U64 - totalActual < a.actual { failed := Some(Overflow); }
      else { failed := None; }
      assert failed == RowRefusal(l, acts, i);
      if failed.Some? {
        assert FirstRefused(l, acts, i);
        return;
      }
      totalReserved, totalActual := totalReserved + blob.size, totalActual + a.actual;
    }
    assert acts[..|acts|] == acts;
    return None, totalReserved, totalActual;
  }

  predicate IsStaging(b: Blob) { b.status == Staging }

  function SetSizes(sizes: map<Id, nat>): (Id, Blob) -> Blob {
    (id, b: Blob) => if id in sizes then Activated(b, sizes[id]) else b
  }

  /** Rows that can be activated all match the batched update, which activates them. */
  lemma ActivatedAll(l: Ledger, acts: seq<Activation>, ids: seq<Id>, sizes: map<Id, nat>)
    requires Sound(l) && Batchable(l, acts) && SizesById(acts, ids, sizes)
    ensures Matched(l.blobs, IdSet(ids), IsStaging) == IdSet(ids)
    ensures Updated(l.blobs, IdSet(ids), SetSizes(sizes)) == ActivatedMap(l.blobs, ActIds(acts), sizes)
    ensures ActivateAll(l, acts).Ok? && Sound(ActivateAll(l, acts).ledger)
  {
    forall b | b in IdSet(ids) ensures b in l.blobs && l.blobs[b].status == Staging {
      var a :| a in acts && a.id == b;
      assert Activatable(l, a);
    }
    SoundActivated(l, acts, sizes);
  }

  /** Rows of the list that exist, in order. */
  function Present(blobs: map<Id, Blob>, ids: seq<Id>): seq<Id> {
    if ids == [] then []
    else Present(blobs, ids[..|ids| - 1]) + (if ids[|ids| - 1] in blobs then [ids[|ids| - 1]] else [])
  }

  lemma {:induction false} PresentIs(blobs: map<Id, Blob>, ids: seq<Id>)
    ensures forall b :: b in Present(blobs, ids) <==> b in ids && b in blobs
  {
    if ids != [] {
      PresentIs(blobs, ids[..|ids| - 1]);
      assert ids == ids[..|ids| - 1] + [ids[|ids| - 1]];
    }
  }

  lemma SizesStep(blobs: map<Id, Blob>, ids: seq<Id>, i: nat)
    requires i < |ids|
    ensures SizesIn(blobs, ids[..i + 1]) == SizesIn(blobs, ids[..i]) + SizeIn(blobs, ids[i]) <= SizesIn(blobs, ids)
  {
    assert ids[..i + 1] == ids[..i] + [ids[i]] && ids == ids[..i + 1] + ids[i + 1..];
    SizesAppend(blobs, ids[..i], [ids[i]]);
    SizesAppend(blobs, ids[..i + 1], ids[i + 1..]);
  }

  lemma {:induction false} NothingPresent(l: Ledger, ids: seq<Id>)
    requires (forall b :: b in ids ==> b !in l.blobs) && forall b :: b in l.jobs ==> b in l.blobs
    ensures SizesIn(l.blobs, ids) == 0 && WithoutRows(l, ids) == l
  {
    if ids != [] { NothingPresent(l, ids[1..]); }
    assert l.blobs - IdSet(ids) == l.blobs && l.jobs - IdSet(ids) == l.jobs;
  }

  /** The loop that skips empty and repeated identifiers. */
  method DistinctIdsOf(blobIds: seq<Id>) returns (ids: seq<Id>)
    ensures ids == Dedup(blobIds, {})
  {
    ids := [];
    var seen: set<Id> := {};
    for i := 0 to |blobIds|
      invariant Dedup(blobIds, {}) == ids + Dedup(blobIds[i..], seen)
    {
      assert blobIds[i..][1..] == blobIds[i + 1..];
      if blobIds[i] != Empty && blobIds[i] !in seen {
        seen := seen + {blobIds[i]};
        ids := ids + [blobIds[i]];
      }
    }
  }

  // ------------------------------------------------------ releasing references

  datatype ReferenceUpdate = ReferenceUpdate(refCount: nat, status: Status)

  /** The counts so far, for the paths seen so far. */
  ghost predicate Counting(all: multiset<Path>, paths: seq<Path>, counts: map<Path, nat>) {
    DistinctIds(paths) && (forall p :: p in paths <==> p in counts) && CountsAre(counts, all)
  }

  lemma CountOneMore(all: multiset<Path>, paths: seq<Path>, counts: map<Path, nat>, p: Path)
    requires Counting(all, paths, counts)
    ensures p in counts ==> Counting(all + multiset{p}, paths, counts[p := counts[p] + 1])
    ensures p !in counts ==> Counting(all + multiset{p}, paths + [p], counts[p := 1])
  {
    assert p !in counts ==> all[p] == 0;
  }

  lemma OneOccurrenceMore(storagePaths: seq<Path>, p: Path)
    ensures Occurrences(storagePaths + [p]) == Occurrences(storagePaths) + (if p == Empty then multiset{} else multiset{p})
  {
    OccurrencesAppend(storagePaths, [p]);
    assert [p][1..] == [];
  }

  /** countStoragePaths, and the distinct paths it counts. */
  method CountStoragePaths(storagePaths: seq<Path>) returns (paths: seq<Path>, counts: map<Path, nat>)
    ensures Counting(Occurrences(storagePaths), paths, counts)
  {
    paths, counts := [], map[];
    for i := 0 to |storagePaths|
      invariant Counting(Occurrences(storagePaths[..i]), paths, counts)
    {
      var p := storagePaths[i];
      CountOneMore(Occurrences(storagePaths[..i]), paths, counts, p);
      OneOccurrenceMore(storagePaths[..i], p);
      assert storagePaths[..i + 1] == storagePaths[..i] + [p];
      if p != Empty {
        if p !in counts { paths := paths + [p]; }
        counts := counts[p := (if p in counts then counts[p] else 0) + 1];
      }
    }
    assert storagePaths[..|storagePaths|] == storagePaths;
  }

  predicate Suffices(b: Blob, count: nat) { b.status == Active && b.refCount >= count }

  function UpdateFor(b: Blob, count: nat): ReferenceUpdate
    requires Suffices(b, count)
  {
    ReferenceUpdate(b.refCount - count, if b.refCount == count then PendingDelete else Active)
  }

  predicate PlannedFor(b: Blob, u: ReferenceUpdate, counts: map<Path, nat>) {
    b.storagePath in counts && Suffices(b, counts[b.storagePath]) && u == UpdateFor(b, counts[b.storagePath])
  }

  /** The rows that hold the paths done so far are listed, with what each is left with. */
  ghost predicate Planned(blobs: map<Id, Blob>, done: seq<Path>, counts: map<Path, nat>, ids: seq<Id>, updates: map<Id, ReferenceUpdate>) {
    && DistinctIds(ids) && IdSet(ids) == updates.Keys
    && (forall b :: b in updates ==> b in blobs && blobs[b].storagePath in done && PlannedFor(blobs[b], updates[b], counts))
    && (forall b :: b in blobs && blobs[b].storagePath in done ==> b in updates)
  }

  /** The counts of the loop are those of the list. */
  predicate CountsAre(counts: map<Path, nat>, all: multiset<Path>) {
    (forall p :: p in counts ==> counts[p] == all[p] > 0) && forall p :: p in all ==> p in counts
  }

  lemma NothingReleased(l: Ledger, all: multiset<Path>, now: Time)
    requires all == multiset{}
    ensures ReleaseRefs(l, all, now) == Ok(l)
  {
    assert AfterRelease(l, all, now) == l;
  }

  lemma HeldOrNot(l: Ledger, paths: seq<Path>, counts: map<Path, nat>, all: multiset<Path>, holders: map<Path, Id>, now: Time)
    requires DistinctIds(paths) && CountsAre(counts, all) && forall p :: p in paths <==> p in counts
    requires forall p :: p in holders <==> p in paths && PathTaken(l, p)
    ensures |holders| == |paths| ==> forall p :: p in paths ==> p in holders
    ensures |holders| != |paths| ==> ReleaseRefs(l, all, now) == Err(NotFound)
  {
    CountOf(paths);
    Included(holders.Keys, IdSet(paths));
    assert |holders| == |holders.Keys|;
    if |holders| != |paths| {
      var p :| p in IdSet(paths) && p !in holders.Keys;
      assert p in all && !PathTaken(l, p);
    } else {
      forall p | p in paths ensures p in holders { assert p in IdSet(paths); }
    }
  }

  lemma NotReleasable(l: Ledger, counts: map<Path, nat>, all: multiset<Path>, b: Id, now: Time)
    requires UniquePaths(l.blobs) && CountsAre(counts, all) && (forall p :: p in all ==> PathTaken(l, p))
    requires b in l.blobs && l.blobs[b].storagePath in counts && !Suffices(l.blobs[b], counts[l.blobs[b].storagePath])
    ensures ReleaseRefs(l, all, now) == Err(Inconsistent)
  {
    var p := l.blobs[b].storagePath;
    assert p in all && !Releasable(l, p, all[p]) by {
      if Releasable(l, p, all[p]) { TheHolder(l, p, all[p]); }
    }
  }

  lemma PlanReleasable(l: Ledger, paths: seq<Path>, counts: map<Path, nat>, all: multiset<Path>, ids: seq<Id>,
                       updates: map<Id, ReferenceUpdate>, now: Time)
    requires CountsAre(counts, all) && (forall p :: p in paths <==> p in counts) && Planned(l.blobs, paths, counts, ids, updates)
    requires forall p :: p in paths ==> PathTaken(l, p)
    ensures ReleaseRefs(l, all, now) == Ok(AfterRelease(l, all, now))
    ensures Matched(l.blobs, IdSet(ids), (b: Blob) => b.status == Active) == IdSet(ids)
  {
    forall p | p in all ensures PathTaken(l, p) && Releasable(l, p, all[p]) {
      var b :| b in l.blobs && l.blobs[b].storagePath == p;
      assert b in updates && PlannedFor(l.blobs[b], updates[b], counts);
    }
  }

  /** Row b after the batched update and the upsert is row b after the release. */
  ghost predicate AppliedAt(blobs: map<Id, Blob>, all: multiset<Path>, updates: map<Id, ReferenceUpdate>, b: Id)
    requires b in blobs
  {
    && Released(blobs[b], all) == (if b in updates then SetReferences(updates)(b, blobs[b]) else blobs[b])
    && (HitsZero(blobs[b], all) <==> b in LeftWithNone(updates))
  }

  lemma PlanApplied(blobs: map<Id, Blob>, paths: seq<Path>, counts: map<Path, nat>, all: multiset<Path>, ids: seq<Id>,
                    updates: map<Id, ReferenceUpdate>, b: Id)
    requires CountsAre(counts, all) && (forall p :: p in paths <==> p in counts) && Planned(blobs, paths, counts, ids, updates)
    requires b in blobs
    ensures AppliedAt(blobs, all, updates, b)
  {
    assert b in updates ==> PlannedFor(blobs[b], updates[b], counts);
  }

  /** The rows of the upsert: the blobs left without references, each once. */
  predicate Opens(rows: seq<NewJob>, blobs: map<Id, Blob>, ids: set<Id>) {
    && (forall i :: 0 <= i < |rows| ==> rows[i].blob in blobs && rows[i] == NewJob(rows[i].blob, blobs[rows[i].blob].storagePath))
    && (forall i, j :: 0 <= i < j < |rows| ==> rows[i].blob != rows[j].blob)
    && JobBlobs(rows) == ids
  }

  function JobBlobs(rows: seq<NewJob>): set<Id> { set r | r in rows :: r.blob }

  /** The jobs after an upsert for the blobs in `ids`. */
  function Reopen(l: Ledger, ids: set<Id>, now: Time): map<Id, Job> {
    l.jobs + map b | b in ids && b in l.blobs :: Reopened(l, b, l.blobs[b].storagePath, now)
  }

  lemma ReopenOne(l: Ledger, ids: set<Id>, b: Id, now: Time)
    requires b in l.blobs
    ensures Reopen(l, ids + {b}, now) == Reopen(l, ids, now)[b := Reopened(l, b, l.blobs[b].storagePath, now)]
  {
  }

  /** One row of the upsert: an existing job is due at once and loses its owner. */
  function UpsertJob(jobs: map<Id, Job>, row: NewJob, now: Time): map<Id, Job> {
    jobs[row.blob := if row.blob in jobs then jobs[row.blob].(nextRetryAt := now, owner := None, ownedUntil := None)
                     else Job(row.path, 0, now, None, None)]
  }

  /** One more row, for a blob that has not had one. */
  lemma ReopenMore(l: Ledger, rows: seq<NewJob>, i: nat, now: Time)
    requires Opens(rows, l.blobs, JobBlobs(rows)) && i < |rows|
    ensures Reopen(l, JobBlobs(rows[..i + 1]), now) == UpsertJob(Reopen(l, JobBlobs(rows[..i]), now), rows[i], now)
  {
    assert JobBlobs(rows[..i + 1]) == JobBlobs(rows[..i]) + {rows[i].blob} by {
      assert rows[..i + 1] == rows[..i] + [rows[i]];
    }
    forall j | 0 <= j < i ensures rows[..i][j].blob != rows[i].blob {}
    ReopenOne(l, JobBlobs(rows[..i]), rows[i].blob, now);
  }

  lemma OpensMore(rows: seq<NewJob>, blobs: map<Id, Blob>, ids: set<Id>, id: Id)
    requires Opens(rows, blobs, ids) && id in blobs && id !in ids
    ensures Opens(rows + [NewJob(id, blobs[id].storagePath)], blobs, ids + {id})
  {
    assert forall i :: 0 <= i < |rows| ==> rows[i] in rows && rows[i].blob in JobBlobs(rows);
  }

  /** An update that keeps the rows and their paths does not change what an upsert does. */
  lemma SamePathsOpen(rows: seq<NewJob>, a: map<Id, Blob>, b: map<Id, Blob>)
    requires Opens(rows, a, JobBlobs(rows))
    requires forall k :: k in a ==> k in b && b[k].storagePath == a[k].storagePath
    ensures Opens(rows, b, JobBlobs(rows))
  {
  }

  lemma SameReopen(l: Ledger, n: Ledger, ids: set<Id>, now: Time)
    requires n.jobs == l.jobs && n.blobs.Keys == l.blobs.Keys
    requires forall k :: k in l.blobs ==> n.blobs[k].storagePath == l.blobs[k].storagePath
    ensures Reopen(n, ids, now) == Reopen(l, ids, now)
  {
  }

  function LeftWithNone(updates: map<Id, ReferenceUpdate>): set<Id> {
    set b | b in updates && updates[b].refCount == 0
  }

  lemma PlannedMore(blobs: map<Id, Blob>, done: seq<Path>, counts: map<Path, nat>, ids: seq<Id>, updates: map<Id, ReferenceUpdate>, id: Id)
    requires Planned(blobs, done, counts, ids, updates) && UniquePaths(blobs)
    requires id in blobs && blobs[id].storagePath in counts && blobs[id].storagePath !in done
    requires Suffices(blobs[id], counts[blobs[id].storagePath])
    ensures Planned(blobs, done + [blobs[id].storagePath], counts, ids + [id],
                    updates[id := UpdateFor(blobs[id], counts[blobs[id].storagePath])])
    ensures LeftWithNone(updates[id := UpdateFor(blobs[id], counts[blobs[id].storagePath])]) ==
      LeftWithNone(updates) + (if blobs[id].refCount == counts[blobs[id].storagePath] then {id} else {})
  {
    assert id !in updates && id !in IdSet(ids);
    forall b | b in blobs && blobs[b].storagePath == blobs[id].storagePath ensures b == id { assert OnePath(blobs, b, id); }
    assert IdSet(ids + [id]) == IdSet(ids) + {id};
  }

  function SetReferences(updates: map<Id, ReferenceUpdate>): (Id, Blob) -> Blob {
    (id, b: Blob) => if id in updates then b.(refCount := updates[id].refCount, status := updates[id].status) else b
  }

  lemma JobsApplied(l: Ledger, all: multiset<Path>, updates: map<Id, ReferenceUpdate>, now: Time)
    requires forall b {:trigger AppliedAt(l.blobs, all, updates, b)} :: b in l.blobs ==> AppliedAt(l.blobs, all, updates, b)
    ensures (map b | b in LeftWithNone(updates) && b in l.blobs :: Reopened(l, b, l.blobs[b].storagePath, now))
         == (map b | b in l.blobs && HitsZero(l.blobs[b], all) :: Reopened(l, b, l.blobs[b].storagePath, now))
  {
    forall b | b in l.blobs ensures HitsZero(l.blobs[b], all) <==> b in LeftWithNone(updates) {
      assert AppliedAt(l.blobs, all, updates, b);
    }
  }

  lemma BlobsApplied(l: Ledger, all: multiset<Path>, ids: seq<Id>, updates: map<Id, ReferenceUpdate>)
    requires forall b {:trigger AppliedAt(l.blobs, all, updates, b)} :: b in l.blobs ==> AppliedAt(l.blobs, all, updates, b)
    requires IdSet(ids) == updates.Keys
    ensures Updated(l.blobs, IdSet(ids), SetReferences(updates)) == (map b | b in l.blobs :: Released(l.blobs[b], all))
  {
    forall b | b in l.blobs
      ensures Released(l.blobs[b], all) == (if b in IdSet(ids) then SetReferences(updates)(b, l.blobs[b]) else l.blobs[b])
    {
      assert AppliedAt(l.blobs, all, updates, b);
    }
  }

  /** The batched update and the upsert of the jobs amount to the release. */
  lemma AllApplied(l: Ledger, n: Ledger, paths: seq<Path>, counts: map<Path, nat>, all: multiset<Path>, ids: seq<Id>,
                   updates: map<Id, ReferenceUpdate>, now: Time)
    requires CountsAre(counts, all) && (forall p :: p in paths <==> p in counts) && Planned(l.blobs, paths, counts, ids, updates)
    requires n.quota == l.quota && n.blobs == Updated(l.blobs, IdSet(ids), SetReferences(updates))
    requires n.jobs == Reopen(l, LeftWithNone(updates), now)
    ensures n == AfterRelease(l, all, now)
  {
    forall b | b in l.blobs ensures AppliedAt(l.blobs, all, updates, b) {
      PlanApplied(l.blobs, paths, counts, all, ids, updates, b);
    }
    JobsApplied(l, all, updates, now);
    BlobsApplied(l, all, ids, updates);
  }

  /** The columns are unsigned 64-bit, no row has an empty primary key, storage paths are
      unique, and the foreign key of the jobs holds. */
  ghost predicate Sound(l: Ledger) {
    && l.quota.used <= MAX_U64 && l.quota.reserved <= MAX_U64 && l.quota.max <= MAX_U64
    && Empty !in l.blobs && UniquePaths(l.blobs) && (forall b :: b in l.jobs ==> b in l.blobs)
  }

  lemma SoundRows(l: Ledger, n: Ledger)
    requires Sound(l) && (forall b :: b in n.jobs ==> b in n.blobs)
    requires n.quota.used <= MAX_U64 && n.quota.reserved <= MAX_U64 && n.quota.max <= MAX_U64
    requires forall b :: b in n.blobs ==> b in l.blobs && n.blobs[b].storagePath == l.blobs[b].storagePath
    ensures Sound(n)
  {
    SameUnique(l.blobs, n.blobs);
  }

  lemma SoundInserted(l: Ledger, rows: seq<NewBlob>, now: Time, until: Time)
    requires Sound(l) && CreateAll(l, rows, now, until).Ok? && forall n :: n in rows ==> n.id != Empty
    ensures Sound(CreateAll(l, rows, now, until).ledger)
  {
    CreateAllIs(l, rows, now, until);
    InsertedRows(l.blobs, rows, now, Some(until));
    InsertedUnique(l.blobs, rows, now, Some(until));
  }

  lemma SoundReleased(l: Ledger, counts: multiset<Path>, now: Time)
    requires Sound(l)
    ensures Sound(AfterRelease(l, counts, now))
  {
    SoundRows(l, AfterRelease(l, counts, now));
  }

  lemma SoundActivated(l: Ledger, acts: seq<Activation>, sizes: map<Id, nat>)
    requires Sound(l) && SizesOf(sizes, acts) && Batchable(l, acts)
    ensures ActivateAll(l, acts).Ok? && Sound(ActivateAll(l, acts).ledger)
  {
    ActivateAllIs(l, acts, sizes);
    SoundRows(l, ActivateAll(l, acts).ledger);
  }

  /** Sealing succeeds exactly when the batched update matches every row. */
  lemma SealIs(l: Ledger, ids: set<Id>, now: Time)
    ensures SealWithJobs(l, ids, now).Ok? <==> Matched(l.blobs, ids, SealableRow) == ids
    ensures SealWithJobs(l, ids, now).Err? ==> SealWithJobs(l, ids, now) == Err(Changed)
    ensures SealWithJobs(l, ids, now).Ok? ==> SealWithJobs(l, ids, now).ledger.blobs == Updated(l.blobs, ids, SealRow)
    ensures Sound(l) && SealWithJobs(l, ids, now).Ok? ==> Sound(SealWithJobs(l, ids, now).ledger)
  {
    if SealWithJobs(l, ids, now).Ok? && Sound(l) { SoundRows(l, SealWithJobs(l, ids, now).ledger); }
    if Matched(l.blobs, ids, SealableRow) == ids {
      forall b | b in ids ensures b in l.blobs && l.blobs[b].status == Staging && l.blobs[b].refCount == 0 {
        assert b in Matched(l.blobs, ids, SealableRow);
      }
    }
  }

  lemma SealedJobs(l: Ledger, ids: set<Id>, now: Time)
    requires SealWithJobs(l, ids, now).Ok?
    ensures SealWithJobs(l, ids, now).ledger == Ledger(l.quota, Updated(l.blobs, ids, SealRow),
      JobsFor(Updated(l.blobs, ids, SealRow), ids, now) + l.jobs)
  {
    assert JobsFor(Updated(l.blobs, ids, SealRow), ids, now) == JobsFor(l.blobs, ids, now);
  }

  /** Between the seal and its jobs, in the same transaction. */
  function Halfway(l: Ledger, ids: set<Id>): Ledger { l.(blobs := Updated(l.blobs, ids, SealRow)) }

  lemma SealedSound(l: Ledger, ids: set<Id>, now: Time)
    requires Sound(l) && SealWithJobs(l, ids, now).Ok?
    ensures Sound(Halfway(l, ids))
  {
    SoundRows(l, Halfway(l, ids));
  }

  lemma SealedThere(l: Ledger, blobIds: seq<Id>, now: Time)
    requires SealWithJobs(l, IdSet(blobIds), now).Ok?
    ensures forall i :: 0 <= i < |blobIds| ==> blobIds[i] in Halfway(l, IdSet(blobIds)).blobs
  {
    forall i | 0 <= i < |blobIds| ensures blobIds[i] in l.blobs { assert blobIds[i] in IdSet(blobIds); }
  }

  /** One row for each blob, with the path of the blob. */
  predicate JobRows(rows: seq<NewJob>, blobIds: seq<Id>, blobs: map<Id, Blob>) {
    && |rows| == |blobIds|
    && forall i :: 0 <= i < |rows| ==> blobIds[i] in blobs && rows[i] == NewJob(blobIds[i], blobs[blobIds[i]].storagePath)
  }

  lemma JobRowsPaths(rows: seq<NewJob>, blobIds: seq<Id>, blobs: map<Id, Blob>)
    requires DistinctIds(blobIds) && JobRows(rows, blobIds, blobs)
    ensures FirstPaths(rows) == map b | b in IdSet(blobIds) && b in blobs :: blobs[b].storagePath
  {
    FirstPathsAre(rows);
    forall b ensures b in FirstPaths(rows) <==> b in IdSet(blobIds) {
      if b in IdSet(blobIds) { var i :| 0 <= i < |blobIds| && blobIds[i] == b; assert rows[i].blob == b; }
    }
    forall b | b in IdSet(blobIds) ensures b in blobs && FirstPaths(rows)[b] == blobs[b].storagePath {
      var i :| 0 <= i < |blobIds| && blobIds[i] == b;
      assert IsFirst(rows, i) by { forall j | 0 <= j < i ensures rows[j].blob != rows[i].blob {} }
    }
  }

  lemma JobRowsOpen(rows: seq<NewJob>, blobIds: seq<Id>, l: Ledger, now: Time)
    requires DistinctIds(blobIds) && JobRows(rows, blobIds, l.blobs)
    ensures Enqueue(l, FirstPaths(rows), now) == Ok(l.(jobs := JobsFor(l.blobs, IdSet(blobIds), now) + l.jobs))
  {
    EnqueueIs(l, rows, now);
    JobRowsPaths(rows, blobIds, l.blobs);
    assert OpenJobs(FirstPaths(rows), now) == JobsFor(l.blobs, IdSet(blobIds), now);
  }

  lemma ExpiredRows(l: Ledger, ids: set<Id>, before: Time, now: Time)
    requires forall b :: b in ids ==> b in l.blobs && Expired(l.blobs[b], before, now)
    ensures var n := Ledger(l.quota, Updated(l.blobs, ids, SealRow), JobsFor(Updated(l.blobs, ids, SealRow), ids, now) + l.jobs);
      Expire(l, ids, before, now) == Ok(n) && (Sound(l) ==> Sound(n))
  {
    assert JobsFor(Updated(l.blobs, ids, SealRow), ids, now) == JobsFor(l.blobs, ids, now);
    if Sound(l) { SoundRows(l, Expire(l, ids, before, now).ledger); }
  }

  lemma NoneSelected(l: Ledger, ids: set<Id>, before: Time, now: Time)
    requires ids == {}
    ensures Expire(l, ids, before, now) == Ok(l)
  {
    assert Expire(l, {}, before, now).ledger.blobs == l.blobs;
  }

  predicate NoneElsewhere(l: Ledger, ids: seq<Id>) {
    forall b :: b in ids && b in l.blobs ==> l.blobs[b].status == Staging
  }

  /** The error a release is refused with. Where a row has the wrong status and the sum
      overflows, the order in which the database returns the rows decides between the two. */
  predicate Unreleasable(l: Ledger, ids: seq<Id>, e: Error) {
    if NoneElsewhere(l, ids) && SizesIn(l.blobs, ids) <= MAX_U64 then e == Inconsistent && SizesIn(l.blobs, ids) > l.quota.reserved
    else (e == WrongStatus && !NoneElsewhere(l, ids)) || (e == Overflow && SizesIn(l.blobs, ids) > MAX_U64)
  }

  predicate SealableRow(b: Blob) { b.status == Staging && b.refCount == 0 }

  function SealRow(id: Id, b: Blob): Blob { Sealed(b) }

  class Repository {
    var quota: Quota
    var blobs: map<Id, Blob>
    var jobs: map<Id, Job>

    ghost predicate Valid()
      reads this
    {
      Sound(Rows())
    }

    ghost function Rows(): Ledger
      reads this
    {
      Ledger(quota, blobs, jobs)
    }

    /** The loop every batched UPDATE runs: batch by batch, until one of them affects fewer
        rows than it lists. */
    method UpdateInBatches(ids: seq<Id>, on: Blob -> bool, change: (Id, Blob) -> Blob, batchSize: int)
      returns (ok: bool, ghost done: set<Id>)
      requires DistinctIds(ids)
      modifies this`blobs
      ensures done <= Matched(old(blobs), IdSet(ids), on) && blobs == Updated(old(blobs), done, change)
      ensures ok <==> Matched(old(blobs), IdSet(ids), on) == IdSet(ids)
      ensures ok ==> done == IdSet(ids)
    {
      done := {};
      assert blobs == Updated(blobs, {}, change);
      var size := Normalized(batchSize);
      var start := 0;
      while start < |ids|
        invariant 0 <= start <= |ids| && done == IdSet(ids[..start]) <= Matched(old(blobs), IdSet(ids), on)
        invariant blobs == Updated(old(blobs), done, change)
        decreases |ids| - start
      {
        var end := if start + size < |ids| then start + size else |ids|;
        var matched := Matched(blobs, IdSet(ids[start..end]), on);
        NextBatch(old(blobs), blobs, ids, start, end, matched, on, change);
        blobs := Updated(blobs, matched, change);
        done := done + matched;
        if |matched| != end - start { return false, done; }
        start := end;
      }
      assert ids[..|ids|] == ids;
      return true, done;
    }

    /** RenewStagingLease, outside a transaction: a refusal may leave some of the leases
        renewed, never one of a row that is not staging. */
    method RenewStagingLease(blobIds: seq<Id>, until: Time, batchSize: int) returns (r: Option<Error>, ghost renewed: set<Id>)
      modifies this`blobs
      ensures renewed <= IdSet(blobIds) && RenewLease(old(Rows()), renewed, until) == Ok(Rows())
      ensures r.None? <==> Empty !in blobIds && AllStaging(old(Rows()), IdSet(blobIds))
      ensures r.Some? ==> r.value == if Empty in blobIds then MissingId else Changed
      ensures r.None? ==> renewed == IdSet(blobIds)
    {
      assert RenewLease(Rows(), {}, until) == Ok(Rows());
      var distinct, ids := DistinctNonEmpty(blobIds);
      if !distinct { return Some(MissingId), {}; }
      var ok;
      ok, renewed := UpdateInBatches(ids, (b: Blob) => b.status == Staging, (id, b: Blob) => b.(lease := Some(until)), batchSize);
      return if ok then None else Some(Changed), renewed;
    }

    method Reserve(id: Id, bytes: nat) returns (r: Option<Error>)
      requires Valid()
      modifies this`quota, this`blobs
      ensures Valid() && Did(old(Rows()), Rows(), r, LedgerTransactions.Reserve(old(Rows()), id, bytes))
      ensures r.None? && bytes > 0 ==> id in blobs && id in old(blobs) && blobs[id].size == old(blobs)[id].size + bytes
      ensures r.None? ==> quota.reserved == old(quota).reserved + bytes && quota.used == old(quota).used
      ensures r.None? && bytes > 0 ==> quota.used + quota.reserved <= quota.max
    {
      if bytes == 0 { return None; }
      if id !in blobs || blobs[id].status != Staging { return Some(NotFound); }
      if !quota.Admits(bytes) { return Some(QuotaExceeded); }
      quota := quota.(reserved := quota.reserved + bytes);
      blobs := blobs[id := blobs[id].(size := blobs[id].size + bytes)];
      SoundRows(old(Rows()), Rows());
      return None;
    }

    /** The rows of `ids` that exist, fetched batch by batch. */
    method FetchInBatches(ids: seq<Id>, batchSize: int) returns (found: map<Id, Blob>)
      ensures found == (map b | b in IdSet(ids) && b in blobs :: blobs[b])
    {
      found := map[];
      var size := Normalized(batchSize);
      var start := 0;
      while start < |ids|
        invariant 0 <= start <= |ids| && found == (map b | b in IdSet(ids[..start]) && b in blobs :: blobs[b])
        decreases |ids| - start
      {
        var end := if start + size < |ids| then start + size else |ids|;
        Chunk(ids, start, end);
        found := found + map b | b in ids[start..end] && b in blobs :: blobs[b];
        start := end;
      }
      assert ids[..|ids|] == ids;
    }

    // ---------------------------------------------------------------- staging

    method InsertInBatches(rows: seq<NewBlob>, now: Time, batchSize: int) returns (ok: bool)
      modifies this`blobs
      ensures ok <==> NoDuplicates(old(blobs), rows)
      ensures ok ==> blobs == Inserted(old(blobs), rows, now, None)
    {
      var size := Normalized(batchSize);
      var start := 0;
      while start < |rows|
        invariant 0 <= start <= |rows| && NoDuplicates(old(blobs), rows[..start])
        invariant blobs == Inserted(old(blobs), rows[..start], now, None)
        decreases |rows| - start
      {
        var end := if start + size < |rows| then start + size else |rows|;
        assert rows[..end] == rows[..start] + rows[start..end];
        assert rows == rows[..end] + rows[end..];
        InsertedAppend(old(blobs), rows[..start], rows[start..end], now, None);
        InsertedAppend(old(blobs), rows[..end], rows[end..], now, None);
        if !NoDuplicates(blobs, rows[start..end]) { return false; }
        blobs := Inserted(blobs, rows[start..end], now, None);
        start := end;
      }
      assert rows[..|rows|] == rows;
      return true;
    }

    /** createStagingBatch with a lease: one sum against the quota, batched inserts, then the
        leases, all in one transaction. It has the effect of inserting the rows one by one. */
    method CreateStagingBatch(rows: seq<NewBlob>, now: Time, until: Time, batchSize: int) returns (r: Option<Error>)
      requires Valid()
      modifies this
      ensures if exists n :: n in rows && n.id == Empty then r.Some? && Rows() == old(Rows())
              else DidAll(old(Rows()), Rows(), r, CreateAll(old(Rows()), rows, now, until))
      ensures r == Some(Overflow) <==> TotalNew(rows) > MAX_U64
      ensures r == Some(QuotaExceeded) <==> TotalNew(rows) <= MAX_U64 && Lacks(old(quota), TotalNew(rows))
      ensures r == Some(Duplicate) <==>
        TotalNew(rows) <= MAX_U64 && !Lacks(old(quota), TotalNew(rows)) && !NoDuplicates(old(blobs), rows)
      ensures r.Some? && r.value !in {Overflow, QuotaExceeded, Duplicate} ==>
        r.value == MissingId && exists n :: n in rows && n.id == Empty
      ensures Valid()
    {
      CreateAllIs(Rows(), rows, now, until);
      if |rows| == 0 { return None; }
      var fits, total, ids := TotalOf(rows);
      if !fits { return Some(Overflow); }
      var q, b := quota, blobs;
      if total > 0 {
        if !quota.Admits(total) { return Some(QuotaExceeded); }
        quota := quota.(reserved := quota.reserved + total);
      }
      var inserted := InsertInBatches(rows, now, batchSize);
      if !inserted {
        quota, blobs := q, b;
        return Some(Duplicate);
      }
      var renewal, renewed := RenewStagingLease(ids, until, batchSize);
      LeasedAfterInsert(b, rows, ids, now, until);
      if renewal.Some? {
        quota, blobs := q, b;
        return renewal;
      }
      SoundInserted(old(Rows()), rows, now, until);
      return None;
    }

    // ------------------------------------------------------------- activation

    method ActivateStaging(id: Id, actual: nat) returns (r: Option<Error>)
      requires Valid()
      modifies this`quota, this`blobs
      ensures Valid() && Did(old(Rows()), Rows(), r, ActivateOne(old(Rows()), Activation(id, actual)))
    {
      if id !in blobs { return Some(NotFound); }
      var blob := blobs[id];
      if blob.status != Staging { return Some(WrongStatus); }
      if actual > blob.size { return Some(ExceedsReservation); }
      if quota.reserved < blob.size { return Some(Inconsistent); }
      if quota.used + actual > MAX_U64 { return Some(Overflow); }
      quota := quota.(reserved := quota.reserved - blob.size, used := quota.used + actual);
      blobs := blobs[id := blob.(size := actual, refCount := 1, status := Active, stagingPath := None, lease := None)];
      SoundRows(old(Rows()), Rows());
      return None;
    }

    /** The checks of the batch, before anything is written. */
    method PlanActivations(acts: seq<Activation>, batchSize: int)
      returns (failed: Option<Error>, ids: seq<Id>, sizes: map<Id, nat>, totalReserved: nat, totalActual: nat)
      requires Valid()
      ensures failed.None? <==> Batchable(Rows(), acts) && Empty !in ActIds(acts)
      ensures failed.Some? ==> RefusedWith(Rows(), acts, failed.value)
      ensures failed.None? ==>
        SizesById(acts, ids, sizes) && totalReserved == ReservedOf(blobs, acts) && totalActual == ActualOf(acts)
    {
      var distinct;
      totalReserved, totalActual := 0, 0;
      distinct, ids, sizes := ActivationsById(acts);
      if !distinct { return Some(Duplicate), ids, sizes, 0, 0; }
      var blobsById := FetchInBatches(ids, batchSize);
      FoundEach(Rows(), acts, ids, blobsById);
      if |blobsById| != |ids| { return Some(NotFound), ids, sizes, 0, 0; }
      failed, totalReserved, totalActual := Totals(acts, blobsById, Rows());
      if failed.Some? { return; }
      if quota.reserved < totalReserved { failed := Some(Inconsistent); }
      else if quota.used + totalActual > MAX_U64 { failed := Some(Overflow); }
    }

    /** ActivateStagingBatch has the all-or-nothing effect of one activation per blob. */
    method ActivateStagingBatch(acts: seq<Activation>, batchSize: int) returns (r: Option<Error>)
      requires Valid()
      modifies this`quota, this`blobs
      ensures Valid() && DidAll(old(Rows()), Rows(), r, ActivateAll(old(Rows()), acts))
      ensures r.Some? ==> RefusedWith(old(Rows()), acts, r.value)
    {
      if |acts| == 0 { return None; }
      var failed, ids, sizes, totalReserved, totalActual := PlanActivations(acts, batchSize);
      ActivateAllIs(Rows(), acts, sizes);
      if failed.Some? { return failed; }
      quota := quota.(reserved := quota.reserved - totalReserved, used := quota.used + totalActual);
      ActivatedAll(old(Rows()), acts, ids, sizes);
      var ok, done := UpdateInBatches(ids, IsStaging, SetSizes(sizes), batchSize);
      return if ok then None else Some(Inconsistent);
    }

    // ---------------------------------------------------------------- release

    method ReleaseStaging(id: Id) returns (r: Option<Error>)
      requires Valid()
      modifies this
      ensures Valid() && Did(old(Rows()), Rows(), r, ReleaseStagingOne(old(Rows()), id))
    {
      if id !in blobs {
        return None;
      }
      var blob := blobs[id];
      if blob.status != Staging { return Some(WrongStatus); }
      if blob.size > 0 {
        if quota.reserved < blob.size { return Some(Inconsistent); }
        quota := quota.(reserved := quota.reserved - blob.size);
      }
      blobs, jobs := blobs - {id}, jobs - {id};
      SoundRows(old(Rows()), Rows());
      return None;
    }

    /** The first loop of the batch: fetch the rows, check each, add up their sizes. */
    method ScanStaging(ids: seq<Id>, batchSize: int) returns (failed: Option<Error>, total: nat, found: seq<Id>)
      requires Valid()
      ensures failed.Some? ==> !ReleasableAll(Rows(), ids) && Unreleasable(Rows(), ids, failed.value)
      ensures failed.None? ==>
        NoneElsewhere(Rows(), ids) && total == SizesIn(blobs, ids) <= MAX_U64
      ensures failed.None? ==> found == Present(blobs, ids)
    {
      total, found := 0, [];
      var size := Normalized(batchSize);
      var start := 0;
      while start < |ids|
        invariant 0 <= start <= |ids| && found == Present(blobs, ids[..start])
        invariant total == SizesIn(blobs, ids[..start]) <= MAX_U64
        invariant forall b :: b in ids[..start] && b in blobs ==> blobs[b].status == Staging
        decreases |ids| - start
      {
        var end := if start + size < |ids| then start + size else |ids|;
        for i := start to end
          invariant found == Present(blobs, ids[..i])
          invariant total == SizesIn(blobs, ids[..i]) <= MAX_U64
          invariant forall b :: b in ids[..i] && b in blobs ==> blobs[b].status == Staging
        {
          SizesStep(blobs, ids, i);
          assert ids[..i + 1] == ids[..i] + [ids[i]];
          if ids[i] in blobs {
            var blob := blobs[ids[i]];
            if blob.status != Staging { return Some(WrongStatus), total, found; }
            if MAX_U64 - total < blob.size { return Some(Overflow), total, found; }
            total := total + blob.size;
            found := found + [ids[i]];
          }
        }
        start := end;
      }
      assert ids[..|ids|] == ids;
      return None, total, found;
    }

    /** ReleaseStagingBatch: repeated, empty and missing identifiers are skipped, and all the
        others are released together or not at all, as by releasing each on its own. */
    method ReleaseStagingBatch(blobIds: seq<Id>, batchSize: int) returns (r: Option<Error>)
      requires Valid()
      modifies this
      ensures Valid() && DidAll(old(Rows()), Rows(), r, ReleaseStagingAll(old(Rows()), blobIds))
      ensures r.Some? ==> Unreleasable(old(Rows()), Dedup(blobIds, {}), r.value)
    {
      ReleaseBatchIs(Rows(), blobIds);
      if |blobIds| == 0 { return None; }
      var ids := DistinctIdsOf(blobIds);
      var failed, totalReserved, found := ScanStaging(ids, batchSize);
      if failed.Some? { return failed; }
      PresentIs(blobs, ids);
      if |found| == 0 {
        NothingPresent(Rows(), ids);
        return None;
      }
      if totalReserved > 0 {
        if quota.reserved < totalReserved { return Some(Inconsistent); }
        quota := quota.(reserved := quota.reserved - totalReserved);
      }
      DeleteInBatches(found, batchSize);
      assert blobs == old(blobs) - IdSet(ids) && jobs == old(jobs) - IdSet(ids);
      SoundRows(old(Rows()), Rows());
      return None;
    }

    /** Delete rows, batch by batch, and with them their jobs. */
    method DeleteInBatches(ids: seq<Id>, batchSize: int)
      modifies this`blobs, this`jobs
      ensures blobs == old(blobs) - IdSet(ids) && jobs == old(jobs) - IdSet(ids)
    {
      var size := Normalized(batchSize);
      var start := 0;
      while start < |ids|
        invariant 0 <= start <= |ids|
        invariant blobs == old(blobs) - IdSet(ids[..start]) && jobs == old(jobs) - IdSet(ids[..start])
        decreases |ids| - start
      {
        var end := if start + size < |ids| then start + size else |ids|;
        Chunk(ids, start, end);
        var batch := IdSet(ids[start..end]);
        blobs, jobs := blobs - batch, jobs - batch;
        start := end;
      }
      assert ids[..|ids|] == ids;
    }

    /** The holder of each path that has one, fetched batch by batch. */
    method HoldersInBatches(paths: seq<Path>, batchSize: int) returns (holders: map<Path, Id>)
      requires Valid()
      ensures forall p :: p in holders <==> p in paths && PathTaken(Rows(), p)
      ensures forall p :: p in holders ==> holders[p] in blobs && blobs[holders[p]].storagePath == p
    {
      holders := map[];
      var size := Normalized(batchSize);
      var start := 0;
      while start < |paths|
        invariant 0 <= start <= |paths|
        invariant forall p :: p in holders <==> p in paths[..start] && PathTaken(Rows(), p)
        invariant forall p :: p in holders ==> holders[p] in blobs && blobs[holders[p]].storagePath == p
        decreases |paths| - start
      {
        var end := if start + size < |paths| then start + size else |paths|;
        for i := start to end
          invariant forall p :: p in holders <==> p in paths[..i] && PathTaken(Rows(), p)
          invariant forall p :: p in holders ==> holders[p] in blobs && blobs[holders[p]].storagePath == p
        {
          assert paths[..i + 1] == paths[..i] + [paths[i]];
          if b :| b in blobs && blobs[b].storagePath == paths[i] {
            holders := holders[paths[i] := b];
          }
        }
        start := end;
      }
      assert paths[..|paths|] == paths;
    }

    /** The second loop: what each holder is left with, and the jobs of those left with none. */
    method PlanReleases(paths: seq<Path>, counts: map<Path, nat>, holders: map<Path, Id>)
      returns (refused: Option<Id>, ids: seq<Id>, updates: map<Id, ReferenceUpdate>, rows: seq<NewJob>)
      requires Valid() && DistinctIds(paths) && forall p :: p in paths ==> p in counts && p in holders
      requires forall p :: p in holders ==> holders[p] in blobs && blobs[holders[p]].storagePath == p
      ensures match refused
        case Some(b) => b in blobs && blobs[b].storagePath in counts && !Suffices(blobs[b], counts[blobs[b].storagePath])
        case None => Planned(blobs, paths, counts, ids, updates) && Opens(rows, blobs, LeftWithNone(updates))
    {
      ids, updates, rows := [], map[], [];
      for i := 0 to |paths|
        invariant Planned(blobs, paths[..i], counts, ids, updates)
        invariant Opens(rows, blobs, LeftWithNone(updates))
      {
        var p := paths[i];
        assert p in paths && p !in paths[..i] && paths[..i + 1] == paths[..i] + [p];
        var id := holders[p];
        var blob := blobs[id];
        if blob.status != Active || blob.refCount < counts[p] { return Some(id), ids, updates, rows; }
        var remaining := blob.refCount - counts[p];
        var status := if remaining == 0 then PendingDelete else Active;
        PlannedMore(blobs, paths[..i], counts, ids, updates, id);
        assert ReferenceUpdate(remaining, status) == UpdateFor(blob, counts[p]);
        if remaining == 0 {
          OpensMore(rows, blobs, LeftWithNone(updates), id);
          rows := rows + [NewJob(id, blob.storagePath)];
        }
        updates := updates[id := ReferenceUpdate(remaining, status)];
        ids := ids + [id];
      }
      assert paths[..|paths|] == paths;
      return None, ids, updates, rows;
    }

    /** The upsert of the jobs, batch by batch: an existing job is due at once and loses its
        owner. */
    method UpsertJobs(rows: seq<NewJob>, now: Time, batchSize: int)
      requires Opens(rows, blobs, JobBlobs(rows))
      modifies this`jobs
      ensures jobs == Reopen(old(Rows()), JobBlobs(rows), now)
    {
      ghost var l := Rows();
      var size := Normalized(batchSize);
      var start := 0;
      while start < |rows|
        invariant 0 <= start <= |rows| && jobs == Reopen(l, JobBlobs(rows[..start]), now)
        decreases |rows| - start
      {
        var end := if start + size < |rows| then start + size else |rows|;
        for i := start to end
          invariant jobs == Reopen(l, JobBlobs(rows[..i]), now)
        {
          ReopenMore(l, rows, i, now);
          jobs := UpsertJob(jobs, rows[i], now);
        }
        start := end;
      }
      assert rows[..|rows|] == rows;
    }

    /** The third loop and the upsert of the jobs. */
    method ApplyReleases(ids: seq<Id>, updates: map<Id, ReferenceUpdate>, rows: seq<NewJob>, now: Time, batchSize: int) returns (ok: bool)
      requires DistinctIds(ids) && Matched(blobs, IdSet(ids), (b: Blob) => b.status == Active) == IdSet(ids)
      requires Opens(rows, blobs, LeftWithNone(updates))
      modifies this`blobs, this`jobs
      ensures ok && blobs == Updated(old(blobs), IdSet(ids), SetReferences(updates))
      ensures jobs == Reopen(old(Rows()), LeftWithNone(updates), now)
    {
      ghost var done;
      ok, done := UpdateInBatches(ids, (b: Blob) => b.status == Active, SetReferences(updates), batchSize);
      SamePathsOpen(rows, old(blobs), blobs);
      if |rows| > 0 { UpsertJobs(rows, now, batchSize); }
      SameReopen(old(Rows()), Rows().(jobs := old(jobs)), LeftWithNone(updates), now);
    }

    /** Everything ReleaseReferences checks before it writes. */
    method CheckReleases(paths: seq<Path>, counts: map<Path, nat>, batchSize: int, ghost all: multiset<Path>, ghost now: Time)
      returns (refused: Option<Error>, ids: seq<Id>, updates: map<Id, ReferenceUpdate>, rows: seq<NewJob>)
      requires Valid() && DistinctIds(paths) && CountsAre(counts, all) && forall p :: p in paths <==> p in counts
      ensures refused.Some? ==> ReleaseRefs(Rows(), all, now) == Err(refused.value)
      ensures refused.None? ==> ReleaseRefs(Rows(), all, now) == Ok(AfterRelease(Rows(), all, now))
      ensures refused.None? ==> Planned(blobs, paths, counts, ids, updates) && Opens(rows, blobs, LeftWithNone(updates))
      ensures refused.None? ==> Matched(blobs, IdSet(ids), (b: Blob) => b.status == Active) == IdSet(ids)
    {
      var holders := HoldersInBatches(paths, batchSize);
      HeldOrNot(Rows(), paths, counts, all, holders, now);
      if |holders| != |paths| { return Some(NotFound), [], map[], []; }
      var culprit;
      culprit, ids, updates, rows := PlanReleases(paths, counts, holders);
      if culprit.Some? {
        NotReleasable(Rows(), counts, all, culprit.value, now);
        return Some(Inconsistent), ids, updates, rows;
      }
      PlanReleasable(Rows(), paths, counts, all, ids, updates, now);
      return None, ids, updates, rows;
    }

    /** ReleaseReferences, for any batch size, is one counted release of every path. */
    method ReleaseReferences(storagePaths: seq<Path>, now: Time, batchSize: int) returns (r: Option<Error>)
      requires Valid()
      modifies this`blobs, this`jobs
      ensures Valid() && Did(old(Rows()), Rows(), r, ReleaseRefs(old(Rows()), Occurrences(storagePaths), now))
    {
      var paths, counts := CountStoragePaths(storagePaths);
      ghost var l, all := Rows(), Occurrences(storagePaths);
      if |paths| == 0 {
        NothingReleased(l, all, now);
        return None;
      }
      var refused, ids, updates, rows := CheckReleases(paths, counts, batchSize, all, now);
      if refused.Some? { return refused; }
      var ok := ApplyReleases(ids, updates, rows, now, batchSize);
      AllApplied(l, Rows(), paths, counts, all, ids, updates, now);
      SoundReleased(l, all, now);
      return if ok then None else Some(Changed);
    }

    // ----------------------------------------------------------- cleanup jobs

    method ClaimCleanupJob(id: Id, owner: Id, now: Time, until: Time) returns (claimed: bool)
      requires Valid()
      modifies this`jobs
      ensures Valid() && Did(old(Rows()), Rows(), if claimed then None else Some(Changed), Claim(old(Rows()), id, owner, now, until))
      ensures claimed <==> id in old(jobs) && Due(old(jobs)[id], now)
      ensures claimed ==> Owns(Rows(), id, owner) && jobs[id].retries == old(jobs)[id].retries
      ensures claimed ==> forall other, later, u :: later < until ==> Claim(Rows(), id, other, later, u).Err?
    {
      if id !in jobs || jobs[id].nextRetryAt > now { return false; }
      if jobs[id].ownedUntil.Some? && jobs[id].ownedUntil.value > now { return false; }
      jobs := jobs[id := jobs[id].(owner := Some(owner), ownedUntil := Some(until))];
      return true;
    }

    method RenewCleanupJobLease(id: Id, owner: Id, until: Time) returns (renewed: bool)
      requires Valid()
      modifies this`jobs
      ensures Valid() && Did(old(Rows()), Rows(), if renewed then None else Some(Changed), RenewJob(old(Rows()), id, owner, until))
      ensures renewed <==> Owns(old(Rows()), id, owner)
      ensures renewed ==> Owns(Rows(), id, owner) && forall other, now, u :: now < until ==> Claim(Rows(), id, other, now, u).Err?
    {
      if id !in jobs || jobs[id].owner != Some(owner) { return false; }
      jobs := jobs[id := jobs[id].(ownedUntil := Some(until))];
      return true;
    }

    method FailCleanupJob(id: Id, owner: Id, retryAt: Time) returns (r: Option<Error>)
      requires Valid()
      modifies this`jobs
      ensures Valid() && Did(old(Rows()), Rows(), r, FailJob(old(Rows()), id, owner, retryAt))
      ensures r.None? <==> Owns(old(Rows()), id, owner)
      ensures r.None? ==> id in jobs && jobs[id].retries == old(jobs)[id].retries + 1
      ensures r.None? ==> (forall t :: !Owns(Rows(), id, t)) && forall other, now, u :: Claim(Rows(), id, other, now, u).Err? <==> now < retryAt
    {
      if id !in jobs || jobs[id].owner != Some(owner) { return Some(NotFound); }
      var job := jobs[id];
      jobs := jobs[id := job.(retries := job.retries + 1, nextRetryAt := retryAt, owner := None, ownedUntil := None)];
      return None;
    }

    method CompleteCleanupJob(id: Id, owner: Id) returns (r: Option<Error>)
      requires Valid()
      modifies this
      ensures Valid() && Did(old(Rows()), Rows(), r, CompleteJob(old(Rows()), id, owner))
    {
      if id !in jobs || jobs[id].owner != Some(owner) { return Some(NotFound); }
      var blob := blobs[id];
      if blob.status == Active || blob.refCount != 0 { return Some(WrongStatus); }
      var reservedColumn := blob.stagingPath.Some? && blob.stagingPath.value != Empty;
      if blob.size > 0 {
        if (if reservedColumn then quota.reserved else quota.used) < blob.size { return Some(Inconsistent); }
        if reservedColumn { quota := quota.(reserved := quota.reserved - blob.size); }
        else { quota := quota.(used := quota.used - blob.size); }
      }
      blobs, jobs := blobs - {id}, jobs - {id};
      SoundRows(old(Rows()), Rows());
      return None;
    }

    /** One INSERT that ignores a blob with a job; a missing blob fails the statement. */
    method InsertJobs(rows: seq<NewJob>, now: Time) returns (ok: bool)
      modifies this`jobs
      ensures ok <==> AllThere(rows, blobs)
      ensures jobs == if ok then OpenJobs(FirstPaths(rows), now) + old(jobs) else old(jobs)
    {
      var before := jobs;
      for i := 0 to |rows|
        invariant AllThere(rows[..i], blobs)
        invariant jobs == OpenJobs(FirstPaths(rows[..i]), now) + old(jobs)
      {
        if rows[i].blob !in blobs {
          jobs := before;
          return false;
        }
        assert rows[..i + 1] == rows[..i] + [rows[i]];
        MoreJobs(rows[..i], [rows[i]], old(jobs), now);
        OneJob(rows[i], jobs, now);
        if rows[i].blob !in jobs { jobs := jobs[rows[i].blob := Job(rows[i].path, 0, now, None, None)]; }
      }
      assert rows[..|rows|] == rows;
      return true;
    }

    /** CreateInBatches: one statement a batch, all in one transaction. */
    method InsertJobsInBatches(rows: seq<NewJob>, now: Time, batchSize: int) returns (ok: bool)
      modifies this`jobs
      ensures ok <==> AllThere(rows, blobs)
      ensures jobs == if ok then OpenJobs(FirstPaths(rows), now) + old(jobs) else old(jobs)
    {
      var before, size, start := jobs, Normalized(batchSize), 0;
      while start < |rows|
        invariant 0 <= start <= |rows| && AllThere(rows[..start], blobs)
        invariant jobs == OpenJobs(FirstPaths(rows[..start]), now) + before
        decreases |rows| - start
      {
        var end := if start + size < |rows| then start + size else |rows|;
        assert rows[..end] == rows[..start] + rows[start..end];
        MoreJobs(rows[..start], rows[start..end], before, now);
        ok := InsertJobs(rows[start..end], now);
        if !ok {
          jobs := before;
          return;
        }
        start := end;
      }
      assert rows[..|rows|] == rows;
      return true;
    }

    /** EnqueueCleanupBatch, for every batch size: a blob that has a job keeps it, the first
        row of a new one wins, and a missing blob undoes every batch. */
    method EnqueueCleanupBatch(rows: seq<NewJob>, now: Time, batchSize: int) returns (r: Option<Error>)
      requires Valid()
      modifies this`jobs
      ensures Valid() && Did(old(Rows()), Rows(), r, Enqueue(old(Rows()), FirstPaths(rows), now))
      ensures r.None? <==> AllThere(rows, blobs)
      ensures if r.None? then Enqueued(old(jobs), jobs, rows, now) else jobs == old(jobs)
    {
      EnqueueIs(Rows(), rows, now);
      if |rows| == 0 { return None; }
      var ok := InsertJobsInBatches(rows, now, batchSize);
      return if ok then None else Some(NotFound);
    }

    // --------------------------------------------------------- reconciliation

    /** SealStagingForCleanupBatch and the jobs of its blobs, as the confirmation of a lost
        publish runs them in one transaction. */
    method SealForCleanup(blobIds: seq<Id>, now: Time, batchSize: int) returns (r: Option<Error>)
      requires Valid() && DistinctIds(blobIds)
      modifies this`blobs, this`jobs
      ensures Valid() && Did(old(Rows()), Rows(), r, SealWithJobs(old(Rows()), IdSet(blobIds), now))
    {
      var before := blobs;
      SealIs(Rows(), IdSet(blobIds), now);
      var ok, done := UpdateInBatches(blobIds, SealableRow, SealRow, batchSize);
      if !ok {
        blobs := before;
        return Some(Changed);
      }
      SealedSound(old(Rows()), IdSet(blobIds), now);
      SealedThere(old(Rows()), blobIds, now);
      var rows: seq<NewJob> := [];
      for i := 0 to |blobIds|
        invariant JobRows(rows, blobIds[..i], blobs)
      {
        assert blobIds[i] in blobs;
        rows := rows + [NewJob(blobIds[i], blobs[blobIds[i]].storagePath)];
      }
      assert blobIds[..|blobIds|] == blobIds;
      JobRowsOpen(rows, blobIds, Rows(), now);
      r := EnqueueCleanupBatch(rows, now, batchSize);
      SealedJobs(old(Rows()), IdSet(blobIds), now);
    }

    /** expireStagingForCleanup, on the rows its query selected: some or all of the staging
        rows that are old enough and whose lease has run out. */
    method ExpireStaging(selected: set<Id>, before: Time, now: Time) returns (count: nat)
      requires Valid() && forall b :: b in selected ==> b in blobs && Expired(blobs[b], before, now)
      modifies this`blobs, this`jobs
      ensures Valid() && Expire(old(Rows()), selected, before, now) == Ok(Rows()) && count == |selected|
    {
      if |selected| == 0 {
        NoneSelected(Rows(), selected, before, now);
        return 0;
      }
      ExpiredRows(Rows(), selected, before, now);
      blobs := Updated(blobs, selected, SealRow);
      jobs := JobsFor(blobs, selected, now) + jobs;
      return |selected|;
    }

    method RegisterOrphan(id: Id, path: Path, size: nat, now: Time) returns (r: Option<Error>)
      requires Valid() && id != Empty
      modifies this`quota, this`blobs
      ensures Valid() && Did(old(Rows()), Rows(), r, LedgerTransactions.RegisterOrphan(old(Rows()), id, path, size, now))
      ensures r.None? ==> quota.used == old(quota).used + size && quota.reserved == old(quota).reserved
      ensures r.None? ==> !PathTaken(old(Rows()), path) && id !in jobs
      ensures r.None? ==> id in blobs && blobs[id] == Blob(path, None, size, 0, Orphaned, None, now)
    {
      if id in blobs || exists b :: b in blobs && blobs[b].storagePath == path { return Some(Duplicate); }
      if quota.used + size > MAX_U64 { return Some(Overflow); }
      blobs := blobs[id := Blob(path, None, size, 0, Orphaned, None, now)];
      assert blobs[id].storagePath == path;
      quota := quota.(used := quota.used + size);
      forall a, b ensures OnePath(blobs, a, b) { assert OnePath(old(blobs), a, b); }
      return None;
    }

    method ScheduleOrphanCleanup(id: Id, now: Time) returns (r: Option<Error>)
      requires Valid()
      modifies this`blobs, this`jobs
      ensures Valid() && Did(old(Rows()), Rows(), r, ScheduleOrphan(old(Rows()), id, now))
      ensures r.None? ==> id in blobs && blobs[id].status == PendingDelete && id in jobs && jobs[id].owner.None? && Due(jobs[id], now)
    {
      if id !in blobs { return Some(NotFound); }
      var blob := blobs[id];
      if blob.refCount != 0 { return Some(WrongStatus); }
      match blob.status {
        case Orphaned =>
          if blob.stagingPath.Some? && blob.stagingPath.value != Empty { return Some(WrongStatus); }
          blobs := blobs[id := blob.(status := PendingDelete)];
        case PendingDelete =>
          assert blobs[id := blob.(status := PendingDelete)] == blobs;
        case _ => return Some(WrongStatus);
      }
      if id in jobs {
        jobs := jobs[id := jobs[id].(storagePath := blob.storagePath, nextRetryAt := now, owner := None, ownedUntil := None)];
      } else {
        jobs := jobs[id := Job(blob.storagePath, 0, now, None, None)];
      }
      SoundRows(old(Rows()), Rows());
      return None;
    }

    // ------------------------------------------------------------------- quota

    method UpdateMaxBytes(max: nat) returns (r: Option<Error>)
      requires Valid() && max <= MAX_U64
      modifies this`quota
      ensures Valid() && Did(old(Rows()), Rows(), r, UpdateMax(old(Rows()), max))
      ensures r.None? <==> quota.used + quota.reserved <= max
      ensures quota.max == if r.None? then max else old(quota).max
      ensures quota.used == old(quota).used && quota.reserved == old(quota).reserved
    {
      if quota.used <= max && quota.reserved <= max && quota.used + quota.reserved <= max {
        quota := quota.(max := max);
        return None;
      }
      return Some(BelowUsage);
    }
  }
}
