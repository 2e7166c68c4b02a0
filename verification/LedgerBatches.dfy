/**
  What the batch transactions do, said without a loop: each all-or-nothing run of a single
  operation has an effect that depends only on which rows it names.
 */
module LedgerBatches {
  import opened Common
  import opened LedgerTransactions

  // ------------------------------------------------------------- activation

  predicate Activatable(l: Ledger, a: Activation) {
    a.id in l.blobs && l.blobs[a.id].status == Staging && a.actual <= l.blobs[a.id].size
  }

  function ActIds(acts: seq<Activation>): set<Id> { set a | a in acts :: a.id }

  predicate DistinctActs(acts: seq<Activation>) {
    forall i, j :: 0 <= i < j < |acts| ==> acts[i].id != acts[j].id
  }

  function SizeIn(blobs: map<Id, Blob>, id: Id): nat { if id in blobs then blobs[id].size else 0 }

  function ReservedOf(blobs: map<Id, Blob>, acts: seq<Activation>): nat {
    if acts == [] then 0 else SizeIn(blobs, acts[0].id) + ReservedOf(blobs, acts[1..])
  }

  function ActualOf(acts: seq<Activation>): nat {
    if acts == [] then 0 else acts[0].actual + ActualOf(acts[1..])
  }

  /** The sizes column of the batch update. */
  predicate SizesOf(sizes: map<Id, nat>, acts: seq<Activation>) {
    forall a :: a in acts ==> a.id in sizes && sizes[a.id] == a.actual
  }

  function ActivatedMap(blobs: map<Id, Blob>, ids: set<Id>, sizes: map<Id, nat>): map<Id, Blob> {
    map b | b in blobs :: if b in ids && b in sizes then Activated(blobs[b], sizes[b]) else blobs[b]
  }

  predicate Batchable(l: Ledger, acts: seq<Activation>) {
    && DistinctActs(acts) && (forall a :: a in acts ==> Activatable(l, a))
    && ReservedOf(l.blobs, acts) <= l.quota.reserved && l.quota.used + ActualOf(acts) <= MAX_U64
  }

  lemma {:induction false} SameReserved(a: map<Id, Blob>, b: map<Id, Blob>, acts: seq<Activation>)
    requires forall x :: x in acts ==> SizeIn(a, x.id) == SizeIn(b, x.id)
    ensures ReservedOf(a, acts) == ReservedOf(b, acts)
  {
    if acts != [] {
      assert acts[0] in acts;
      SameReserved(a, b, acts[1..]);
    }
  }

  /** One activation leaves the rest of a batch exactly as able to run as before. */
  lemma BatchableRest(l: Ledger, acts: seq<Activation>)
    requires acts != [] && ActivateOne(l, acts[0]).Ok?
    ensures Batchable(l, acts) <==> Batchable(ActivateOne(l, acts[0]).ledger, acts[1..])
  {
    var m := ActivateOne(l, acts[0]).ledger;
    var rest := acts[1..];
    assert acts == [acts[0]] + rest;
    if Batchable(l, acts) {
      forall a | a in rest ensures a.id != acts[0].id && Activatable(m, a) {
        var i :| 0 <= i < |rest| && rest[i] == a;
        assert acts[i + 1] == a && Activatable(l, a);
      }
      forall i, j | 0 <= i < j < |rest| ensures rest[i].id != rest[j].id { assert acts[i + 1].id != acts[j + 1].id; }
      SameReserved(l.blobs, m.blobs, rest);
    }
    if Batchable(m, rest) {
      forall a | a in rest ensures a.id != acts[0].id && Activatable(l, a) { assert Activatable(m, a); }
      forall i, j | 0 <= i < j < |acts| ensures acts[i].id != acts[j].id {
        assert acts[j] == rest[j - 1] && (i > 0 ==> acts[i] == rest[i - 1]);
      }
      SameReserved(l.blobs, m.blobs, rest);
    }
  }

  /** The batch activates all of its blobs or none, and which it is depends only on the rows
      it names: a run of single activations succeeds exactly when the batch can. */
  lemma {:induction false} ActivateAllIs(l: Ledger, acts: seq<Activation>, sizes: map<Id, nat>)
    requires l.quota.used <= MAX_U64
    ensures ActivateAll(l, acts).Ok? <==> Batchable(l, acts)
    ensures Batchable(l, acts) && SizesOf(sizes, acts) ==>
      ActivateAll(l, acts) == Ok(l.(
        quota := l.quota.(reserved := l.quota.reserved - ReservedOf(l.blobs, acts), used := l.quota.used + ActualOf(acts)),
        blobs := ActivatedMap(l.blobs, ActIds(acts), sizes)))
    decreases |acts|
  {
    if acts == [] {
      assert ActivatedMap(l.blobs, ActIds(acts), sizes) == l.blobs;
    } else {
      var r := ActivateOne(l, acts[0]);
      assert acts[0] in acts;
      if r.Ok? {
        BatchableRest(l, acts);
        ActivateAllIs(r.ledger, acts[1..], sizes);
        if Batchable(l, acts) && SizesOf(sizes, acts) { ActivatedMapStep(l, acts, sizes); }
      }
    }
  }

  lemma ActivatedMapStep(l: Ledger, acts: seq<Activation>, sizes: map<Id, nat>)
    requires acts != [] && ActivateOne(l, acts[0]).Ok? && Batchable(l, acts) && SizesOf(sizes, acts)
    ensures var m := ActivateOne(l, acts[0]).ledger;
      && ActivatedMap(m.blobs, ActIds(acts[1..]), sizes) == ActivatedMap(l.blobs, ActIds(acts), sizes)
      && ReservedOf(m.blobs, acts[1..]) == ReservedOf(l.blobs, acts[1..])
  {
    var m := ActivateOne(l, acts[0]).ledger;
    var rest := acts[1..];
    assert acts == [acts[0]] + rest && acts[0] in acts;
    forall a | a in rest ensures a.id != acts[0].id {
      var i :| 0 <= i < |rest| && rest[i] == a;
      assert acts[i + 1] == a;
    }
    SameReserved(l.blobs, m.blobs, rest);
    assert ActIds(acts) == {acts[0].id} + ActIds(rest);
  }

  // ------------------------------------------------------------- releasing

  function SizesIn(blobs: map<Id, Blob>, ids: seq<Id>): nat {
    if ids == [] then 0 else SizeIn(blobs, ids[0]) + SizesIn(blobs, ids[1..])
  }

  predicate DistinctIds(ids: seq<Id>) { forall i, j :: 0 <= i < j < |ids| ==> ids[i] != ids[j] }

  lemma {:induction false} SameSizes(a: map<Id, Blob>, b: map<Id, Blob>, ids: seq<Id>)
    requires forall x :: x in ids ==> SizeIn(a, x) == SizeIn(b, x)
    ensures SizesIn(a, ids) == SizesIn(b, ids)
  {
    if ids != [] { SameSizes(a, b, ids[1..]); }
  }

  predicate ReleasableAll(l: Ledger, ids: seq<Id>) {
    && (forall b :: b in ids && b in l.blobs ==> l.blobs[b].status == Staging)
    && SizesIn(l.blobs, ids) <= l.quota.reserved
  }

  function IdSet(ids: seq<Id>): set<Id> { set b | b in ids }

  function WithoutRows(l: Ledger, ids: seq<Id>): Ledger
    requires SizesIn(l.blobs, ids) <= l.quota.reserved
  {
    Ledger(l.quota.(reserved := l.quota.reserved - SizesIn(l.blobs, ids)), l.blobs - IdSet(ids), l.jobs - IdSet(ids))
  }

  lemma ReleasableRest(l: Ledger, ids: seq<Id>)
    requires DistinctIds(ids) && ids != [] && ids[0] != Empty && ReleaseStagingOne(l, ids[0]).Ok?
    requires forall b :: b in l.jobs ==> b in l.blobs
    ensures var m := ReleaseStagingOne(l, ids[0]).ledger;
      && (ReleasableAll(l, ids) <==> ReleasableAll(m, ids[1..]))
      && (ReleasableAll(l, ids) ==> WithoutRows(l, ids) == WithoutRows(m, ids[1..]))
  {
    var m := ReleaseStagingOne(l, ids[0]).ledger;
    var rest := ids[1..];
    assert ids == [ids[0]] + rest;
    forall b | b in rest ensures b != ids[0] {
      var i :| 0 <= i < |rest| && rest[i] == b;
      assert ids[i + 1] == b;
    }
    SameSizes(l.blobs, m.blobs, rest);
    assert IdSet(ids) == {ids[0]} + IdSet(rest);
    if ReleasableAll(l, ids) {
      assert l.blobs - IdSet(ids) == m.blobs - IdSet(rest);
      assert l.jobs - IdSet(ids) == m.jobs - IdSet(rest);
    }
  }

  /** Releasing a list of distinct staging rows one by one succeeds exactly when all that
      still exist are staging and the reservation covers their sum. */
  lemma {:induction false} ReleaseDistinctIs(l: Ledger, ids: seq<Id>)
    requires DistinctIds(ids) && Empty !in ids && forall b :: b in l.jobs ==> b in l.blobs
    ensures ReleaseStagingAll(l, ids).Ok? <==> ReleasableAll(l, ids)
    ensures ReleasableAll(l, ids) ==> ReleaseStagingAll(l, ids) == Ok(WithoutRows(l, ids))
    decreases |ids|
  {
    if ids == [] {
      assert WithoutRows(l, ids) == l;
    } else {
      assert ids[0] in ids;
      assert Empty !in ids[1..] && DistinctIds(ids[1..]) by {
        forall i, j | 0 <= i < j < |ids[1..]| ensures ids[1..][i] != ids[1..][j] { assert ids[i + 1] != ids[j + 1]; }
      }
      var r := ReleaseStagingOne(l, ids[0]);
      if r.Ok? {
        ReleasableRest(l, ids);
        ReleaseDistinctIs(r.ledger, ids[1..]);
      } else {
        assert SizesIn(l.blobs, ids) >= SizeIn(l.blobs, ids[0]);
      }
    }
  }

  /** Skipping empty identifiers and keeping the first of equal ones, as the batch does. */
  function Dedup(ids: seq<Id>, seen: set<Id>): seq<Id> {
    if ids == [] then []
    else if ids[0] == Empty || ids[0] in seen then Dedup(ids[1..], seen)
    else [ids[0]] + Dedup(ids[1..], seen + {ids[0]})
  }

  lemma {:induction false} DedupIs(ids: seq<Id>, seen: set<Id>)
    ensures DistinctIds(Dedup(ids, seen)) && Empty !in Dedup(ids, seen)
    ensures forall b :: b in Dedup(ids, seen) <==> b in ids && b != Empty && b !in seen
  {
    if ids != [] {
      if ids[0] == Empty || ids[0] in seen {
        DedupIs(ids[1..], seen);
      } else {
        DedupIs(ids[1..], seen + {ids[0]});
        var rest := Dedup(ids[1..], seen + {ids[0]});
        forall i, j | 0 <= i < j < |[ids[0]] + rest| ensures ([ids[0]] + rest)[i] != ([ids[0]] + rest)[j] {
          assert ([ids[0]] + rest)[j] in rest;
        }
      }
    }
  }

  /** Dropping repeated and empty identifiers does not change what the run does. */
  lemma {:induction false} DedupSameRelease(l: Ledger, ids: seq<Id>, seen: set<Id>)
    requires forall b :: b in seen ==> b !in l.blobs
    ensures ReleaseStagingAll(l, ids) == ReleaseStagingAll(l, Dedup(ids, seen))
    decreases |ids|
  {
    if ids != [] {
      if ids[0] == Empty || ids[0] in seen {
        DedupSameRelease(l, ids[1..], seen);
      } else {
        var r := ReleaseStagingOne(l, ids[0]);
        if r.Ok? {
          DedupSameRelease(r.ledger, ids[1..], seen + {ids[0]});
          assert Dedup(ids, seen)[1..] == Dedup(ids[1..], seen + {ids[0]});
        }
      }
    }
  }

  /** ReleaseStagingBatch has the effect of releasing each listed blob on its own. */
  lemma ReleaseBatchIs(l: Ledger, ids: seq<Id>)
    requires forall b :: b in l.jobs ==> b in l.blobs
    ensures var distinct := Dedup(ids, {});
      && (ReleaseStagingAll(l, ids).Ok? <==> ReleasableAll(l, distinct))
      && (ReleasableAll(l, distinct) ==> ReleaseStagingAll(l, ids) == Ok(WithoutRows(l, distinct)))
  {
    DedupIs(ids, {});
    DedupSameRelease(l, ids, {});
    ReleaseDistinctIs(l, Dedup(ids, {}));
  }

  // -------------------------------------------------------------- creating

  function TotalNew(rows: seq<NewBlob>): nat { if rows == [] then 0 else rows[0].size + TotalNew(rows[1..]) }

  function Leased(n: NewBlob, now: Time, lease: Option<Time>): Blob {
    Blob(n.storagePath, Some(n.stagingPath), n.size, 0, Staging, lease, now)
  }

  function Inserted(blobs: map<Id, Blob>, rows: seq<NewBlob>, now: Time, lease: Option<Time>): map<Id, Blob>
    decreases |rows|
  {
    if rows == [] then blobs else Inserted(blobs[rows[0].id := Leased(rows[0], now, lease)], rows[1..], now, lease)
  }

  predicate NoClash(a: NewBlob, b: NewBlob) { a.id != b.id && a.storagePath != b.storagePath }

  predicate NewTo(blobs: map<Id, Blob>, n: NewBlob) {
    n.id !in blobs && forall b :: b in blobs ==> blobs[b].storagePath != n.storagePath
  }

  /** No unique index refuses the rows: identifiers and storage paths are all new. */
  predicate NoDuplicates(blobs: map<Id, Blob>, rows: seq<NewBlob>) {
    && (forall i {:trigger rows[i]} :: 0 <= i < |rows| ==> NewTo(blobs, rows[i]))
    && (forall i, j :: 0 <= i < j < |rows| ==> NoClash(rows[i], rows[j]))
  }

  predicate Room(q: Quota, bytes: nat) { bytes == 0 || q.Admits(bytes) }

  lemma NoDuplicatesRest(blobs: map<Id, Blob>, rows: seq<NewBlob>, now: Time, lease: Option<Time>)
    requires rows != [] && NewTo(blobs, rows[0])
    ensures NoDuplicates(blobs, rows) <==> NoDuplicates(blobs[rows[0].id := Leased(rows[0], now, lease)], rows[1..])
  {
    var m := blobs[rows[0].id := Leased(rows[0], now, lease)];
    var rest := rows[1..];
    if NoDuplicates(blobs, rows) {
      forall i | 0 <= i < |rest| ensures NewTo(m, rest[i]) {
        assert rest[i] == rows[i + 1] && NoClash(rows[0], rows[i + 1]) && NewTo(blobs, rows[i + 1]);
      }
      forall i, j | 0 <= i < j < |rest| ensures NoClash(rest[i], rest[j]) { assert NoClash(rows[i + 1], rows[j + 1]); }
    }
    if NoDuplicates(m, rest) {
      forall i | 0 <= i < |rows| ensures NewTo(blobs, rows[i]) {
        if i > 0 {
          assert NewTo(m, rest[i - 1]);
          forall b | b in blobs ensures blobs[b].storagePath != rows[i].storagePath { assert b in m && m[b] == blobs[b]; }
        }
      }
      forall i, j | 0 <= i < j < |rows| ensures NoClash(rows[i], rows[j]) {
        assert NewTo(m, rest[j - 1]) && rest[j - 1] == rows[j];
        if i > 0 { assert NoClash(rest[i - 1], rest[j - 1]); }
        else { assert m[rows[0].id].storagePath == rows[0].storagePath; }
      }
    }
  }

  /** Inserting staging rows one by one succeeds exactly when none clashes and their sum
      fits the quota at once. */
  lemma {:induction false} CreateAllIs(l: Ledger, rows: seq<NewBlob>, now: Time, until: Time)
    ensures CreateAll(l, rows, now, until).Ok? <==> NoDuplicates(l.blobs, rows) && Room(l.quota, TotalNew(rows))
    ensures CreateAll(l, rows, now, until).Ok? ==>
      CreateAll(l, rows, now, until).ledger == l.(
        quota := l.quota.(reserved := l.quota.reserved + TotalNew(rows)),
        blobs := Inserted(l.blobs, rows, now, Some(until)))
    decreases |rows|
  {
    if rows != [] {
      var r := CreateOne(l, rows[0], now, until);
      if r.Ok? {
        assert NewTo(l.blobs, rows[0]);
        NoDuplicatesRest(l.blobs, rows, now, Some(until));
        CreateAllIs(r.ledger, rows[1..], now, until);
      } else if NoDuplicates(l.blobs, rows) {
        assert NewTo(l.blobs, rows[0]);
      }
    }
  }

  // ---------------------------------------------------- releasing references

  predicate OnePath(blobs: map<Id, Blob>, a: Id, b: Id) {
    a in blobs && b in blobs && blobs[a].storagePath == blobs[b].storagePath ==> a == b
  }

  /** The unique index on storage paths. */
  ghost predicate UniquePaths(blobs: map<Id, Blob>) {
    forall a, b {:trigger OnePath(blobs, a, b)} :: OnePath(blobs, a, b)
  }

  lemma SameUnique(blobs: map<Id, Blob>, n: map<Id, Blob>)
    requires UniquePaths(blobs) && forall b :: b in n ==> b in blobs && n[b].storagePath == blobs[b].storagePath
    ensures UniquePaths(n)
  {
    forall a, b ensures OnePath(n, a, b) { assert OnePath(blobs, a, b); }
  }

  lemma {:induction false} InsertedUnique(blobs: map<Id, Blob>, rows: seq<NewBlob>, now: Time, lease: Option<Time>)
    requires UniquePaths(blobs) && NoDuplicates(blobs, rows)
    ensures UniquePaths(Inserted(blobs, rows, now, lease))
    decreases |rows|
  {
    if rows != [] {
      assert NewTo(blobs, rows[0]);
      var next := blobs[rows[0].id := Leased(rows[0], now, lease)];
      NoDuplicatesRest(blobs, rows, now, lease);
      forall a, b ensures OnePath(next, a, b) { assert OnePath(blobs, a, b); }
      InsertedUnique(next, rows[1..], now, lease);
    }
  }

  /** One released occurrence of one path. */
  function ReleaseOneRef(l: Ledger, path: Path, now: Time): Result {
    if path == Empty then Ok(l)
    else if !PathTaken(l, path) then Err(NotFound)
    else if !Releasable(l, path, 1) then Err(Inconsistent)
    else Ok(AfterRelease(l, multiset{path}, now))
  }

  function ReleaseEach(l: Ledger, paths: seq<Path>, now: Time): Result
    decreases |paths|
  {
    if paths == [] then Ok(l)
    else match ReleaseOneRef(l, paths[0], now)
      case Err(e) => Err(e)
      case Ok(m) => ReleaseEach(m, paths[1..], now)
  }

  /** countStoragePaths: how often each nonempty path is released. */
  function Occurrences(paths: seq<Path>): multiset<Path> {
    if paths == [] then multiset{}
    else (if paths[0] == Empty then multiset{} else multiset{paths[0]}) + Occurrences(paths[1..])
  }

  predicate CanRelease(l: Ledger, counts: multiset<Path>) { forall p :: p in counts ==> Releasable(l, p, counts[p]) }

  lemma CanReleaseIsOk(l: Ledger, counts: multiset<Path>, now: Time)
    ensures ReleaseRefs(l, counts, now).Ok? <==> CanRelease(l, counts)
    ensures CanRelease(l, counts) ==> ReleaseRefs(l, counts, now) == Ok(AfterRelease(l, counts, now))
  {
    if CanRelease(l, counts) {
      forall p | p in counts ensures PathTaken(l, p) { assert Releasable(l, p, counts[p]); }
    }
  }

  lemma ReleasedTwice(b: Blob, p: Path, rest: multiset<Path>)
    requires b.storagePath == p ==> b.status == Active && b.refCount >= 1 + rest[p]
    ensures Released(Released(b, multiset{p}), rest) == Released(b, multiset{p} + rest)
    ensures HitsZero(b, multiset{p} + rest) <==> HitsZero(b, multiset{p}) || HitsZero(Released(b, multiset{p}), rest)
  {
  }

  /** Row b loses p once and then `rest`, or all of it at once. */
  ghost predicate SameTwice(l: Ledger, p: Path, rest: multiset<Path>, b: Id)
    requires b in l.blobs
  {
    var mid := Released(l.blobs[b], multiset{p});
    && Released(mid, rest) == Released(l.blobs[b], multiset{p} + rest)
    && (HitsZero(l.blobs[b], multiset{p} + rest) <==> HitsZero(l.blobs[b], multiset{p}) || HitsZero(mid, rest))
  }

  /** The jobs a release opens. */
  function Opened(l: Ledger, counts: multiset<Path>, now: Time): map<Id, Job> {
    map b | b in l.blobs && HitsZero(l.blobs[b], counts) :: Reopened(l, b, l.blobs[b].storagePath, now)
  }

  /** Row b opens a job in the same way whether it is released in two steps or in one. */
  lemma OpenedOnce(l: Ledger, m: Ledger, p: Path, rest: multiset<Path>, now: Time, b: Id)
    requires m == AfterRelease(l, multiset{p}, now) && b in l.blobs && SameTwice(l, p, rest, b)
    ensures var first, second, both := Opened(l, multiset{p}, now), Opened(m, rest, now), Opened(l, multiset{p} + rest, now);
      && (b in both <==> b in first || b in second)
      && (b in first ==> first[b] == both[b] && b !in second)
      && (b in second ==> second[b] == both[b])
  {
  }

  lemma Merged(jobs: map<Id, Job>, first: map<Id, Job>, second: map<Id, Job>, both: map<Id, Job>)
    requires both.Keys == first.Keys + second.Keys
    requires forall b :: b in first ==> first[b] == both[b]
    requires forall b :: b in second ==> second[b] == both[b]
    ensures jobs + first + second == jobs + both
  {
  }

  lemma JobsTwice(l: Ledger, m: Ledger, p: Path, rest: multiset<Path>, now: Time)
    requires m == AfterRelease(l, multiset{p}, now)
    requires forall b {:trigger SameTwice(l, p, rest, b)} :: b in l.blobs ==> SameTwice(l, p, rest, b)
    ensures AfterRelease(m, rest, now).jobs == AfterRelease(l, multiset{p} + rest, now).jobs
  {
    var first, second, both := Opened(l, multiset{p}, now), Opened(m, rest, now), Opened(l, multiset{p} + rest, now);
    forall b | b in first || b in second || b in both
      ensures b in both && (b in first || b in second)
      ensures b in first ==> first[b] == both[b]
      ensures b in second ==> second[b] == both[b]
    {
      assert SameTwice(l, p, rest, b);
      OpenedOnce(l, m, p, rest, now, b);
    }
    Merged(l.jobs, first, second, both);
  }

  lemma AfterReleaseTwice(l: Ledger, p: Path, rest: multiset<Path>, now: Time)
    requires forall b :: b in l.blobs && l.blobs[b].storagePath == p ==> l.blobs[b].status == Active && l.blobs[b].refCount >= 1 + rest[p]
    ensures AfterRelease(AfterRelease(l, multiset{p}, now), rest, now) == AfterRelease(l, multiset{p} + rest, now)
  {
    forall b | b in l.blobs ensures SameTwice(l, p, rest, b) { ReleasedTwice(l.blobs[b], p, rest); }
    var m := AfterRelease(l, multiset{p}, now);
    assert AfterRelease(m, rest, now).blobs == AfterRelease(l, multiset{p} + rest, now).blobs by {
      forall b | b in l.blobs ensures Released(m.blobs[b], rest) == Released(l.blobs[b], multiset{p} + rest) {
        assert SameTwice(l, p, rest, b);
      }
    }
    JobsTwice(l, m, p, rest, now);
  }

  lemma TheHolder(l: Ledger, p: Path, count: nat)
    requires UniquePaths(l.blobs) && Releasable(l, p, count)
    ensures forall b :: b in l.blobs && l.blobs[b].storagePath == p ==> l.blobs[b].status == Active && l.blobs[b].refCount >= count
  {
    var a :| a in l.blobs && l.blobs[a].storagePath == p && l.blobs[a].status == Active && l.blobs[a].refCount >= count;
    forall b | b in l.blobs && l.blobs[b].storagePath == p ensures b == a { assert OnePath(l.blobs, a, b); }
  }

  lemma ReleasableAfter(l: Ledger, p: Path, q: Path, count: nat, now: Time)
    requires UniquePaths(l.blobs) && Releasable(l, p, 1) && count > 0
    ensures Releasable(AfterRelease(l, multiset{p}, now), q, count) <==> Releasable(l, q, if q == p then count + 1 else count)
  {
    var m := AfterRelease(l, multiset{p}, now);
    TheHolder(l, p, 1);
    forall b | b in l.blobs
      ensures Holds(m.blobs[b], q, count) <==> Holds(l.blobs[b], q, if q == p then count + 1 else count)
    {
      assert l.blobs[b].storagePath == p ==> l.blobs[b].status == Active && l.blobs[b].refCount >= 1;
    }
    assert Releasable(m, q, count) <==> exists b :: b in m.blobs && Holds(m.blobs[b], q, count);
    assert Releasable(l, q, if q == p then count + 1 else count)
      <==> exists b :: b in l.blobs && Holds(l.blobs[b], q, if q == p then count + 1 else count);
  }

  predicate Holds(b: Blob, q: Path, count: nat) { b.storagePath == q && b.status == Active && b.refCount >= count }

  lemma CanReleaseRest(l: Ledger, p: Path, rest: multiset<Path>, now: Time)
    requires UniquePaths(l.blobs) && Releasable(l, p, 1)
    ensures CanRelease(l, multiset{p} + rest) <==> CanRelease(AfterRelease(l, multiset{p}, now), rest)
  {
    var m := AfterRelease(l, multiset{p}, now);
    var all := multiset{p} + rest;
    if CanRelease(l, all) {
      forall q | q in rest ensures Releasable(m, q, rest[q]) {
        assert q in all && Releasable(l, q, all[q]);
        ReleasableAfter(l, p, q, rest[q], now);
      }
    }
    if CanRelease(m, rest) {
      forall q | q in all ensures Releasable(l, q, all[q]) {
        if q in rest {
          assert Releasable(m, q, rest[q]);
          ReleasableAfter(l, p, q, rest[q], now);
        }
      }
    }
  }

  /** ReleaseReferences equals one decrement per occurrence of each path: the batch succeeds
      exactly when the single decrements would, with the same ledger in the end. */
  lemma {:induction false} ReleaseRefsIsEach(l: Ledger, paths: seq<Path>, now: Time)
    requires UniquePaths(l.blobs)
    ensures ReleaseRefs(l, Occurrences(paths), now).Ok? <==> ReleaseEach(l, paths, now).Ok?
    ensures ReleaseEach(l, paths, now).Ok? ==> ReleaseEach(l, paths, now) == ReleaseRefs(l, Occurrences(paths), now)
    decreases |paths|
  {
    CanReleaseIsOk(l, Occurrences(paths), now);
    if paths == [] {
      assert AfterRelease(l, multiset{}, now) == l;
    } else if paths[0] == Empty {
      ReleaseRefsIsEach(l, paths[1..], now);
      assert Occurrences(paths) == Occurrences(paths[1..]);
    } else {
      var p, rest := paths[0], Occurrences(paths[1..]);
      assert Occurrences(paths) == multiset{p} + rest && p in Occurrences(paths);
      if Releasable(l, p, 1) {
        assert PathTaken(l, p);
        SameUnique(l.blobs, AfterRelease(l, multiset{p}, now).blobs);
        ReleaseRefsIsEach(AfterRelease(l, multiset{p}, now), paths[1..], now);
        FirstThenRest(l, p, rest, now);
      } else {
        assert CanRelease(l, Occurrences(paths)) ==> Releasable(l, p, Occurrences(paths)[p]);
      }
    }
  }

  lemma FirstThenRest(l: Ledger, p: Path, rest: multiset<Path>, now: Time)
    requires UniquePaths(l.blobs) && Releasable(l, p, 1)
    ensures var m := AfterRelease(l, multiset{p}, now);
      && (ReleaseRefs(m, rest, now).Ok? <==> ReleaseRefs(l, multiset{p} + rest, now).Ok?)
      && (ReleaseRefs(m, rest, now).Ok? ==> ReleaseRefs(m, rest, now) == ReleaseRefs(l, multiset{p} + rest, now))
  {
    var m := AfterRelease(l, multiset{p}, now);
    CanReleaseRest(l, p, rest, now);
    CanReleaseIsOk(m, rest, now);
    CanReleaseIsOk(l, multiset{p} + rest, now);
    if CanRelease(l, multiset{p} + rest) {
      assert p in multiset{p} + rest;
      TheHolder(l, p, (multiset{p} + rest)[p]);
      AfterReleaseTwice(l, p, rest, now);
    }
  }

  // ------------------------------------------------------- lists in two parts

  lemma {:induction false} ReservedAppend(blobs: map<Id, Blob>, a: seq<Activation>, b: seq<Activation>)
    ensures ReservedOf(blobs, a + b) == ReservedOf(blobs, a) + ReservedOf(blobs, b)
    ensures ActualOf(a + b) == ActualOf(a) + ActualOf(b)
  {
    if a == [] { assert a + b == b; }
    else {
      assert (a + b)[1..] == a[1..] + b;
      ReservedAppend(blobs, a[1..], b);
    }
  }

  /** The running totals of a batch: one more activation, and never beyond the whole. */
  lemma ReservedStep(blobs: map<Id, Blob>, acts: seq<Activation>, i: nat)
    requires i < |acts|
    ensures ReservedOf(blobs, acts[..i + 1]) == ReservedOf(blobs, acts[..i]) + SizeIn(blobs, acts[i].id)
    ensures ActualOf(acts[..i + 1]) == ActualOf(acts[..i]) + acts[i].actual
    ensures ReservedOf(blobs, acts[..i + 1]) <= ReservedOf(blobs, acts) && ActualOf(acts[..i + 1]) <= ActualOf(acts)
  {
    assert acts[..i + 1] == acts[..i] + [acts[i]];
    assert acts == acts[..i + 1] + acts[i + 1..];
    ReservedAppend(blobs, acts[..i], [acts[i]]);
    ReservedAppend(blobs, acts[..i + 1], acts[i + 1..]);
  }

  lemma {:induction false} SizesAppend(blobs: map<Id, Blob>, a: seq<Id>, b: seq<Id>)
    ensures SizesIn(blobs, a + b) == SizesIn(blobs, a) + SizesIn(blobs, b)
  {
    if a == [] { assert a + b == b; }
    else {
      assert (a + b)[1..] == a[1..] + b;
      SizesAppend(blobs, a[1..], b);
    }
  }

  lemma {:induction false} OccurrencesAppend(a: seq<Path>, b: seq<Path>)
    ensures Occurrences(a + b) == Occurrences(a) + Occurrences(b)
  {
    if a == [] { assert a + b == b; }
    else {
      assert (a + b)[1..] == a[1..] + b;
      OccurrencesAppend(a[1..], b);
    }
  }

  lemma {:induction false} TotalNewAppend(a: seq<NewBlob>, b: seq<NewBlob>)
    ensures TotalNew(a + b) == TotalNew(a) + TotalNew(b)
  {
    if a == [] { assert a + b == b; }
    else {
      assert (a + b)[1..] == a[1..] + b;
      TotalNewAppend(a[1..], b);
    }
  }

  /** Inserting a list in two parts. */
  lemma {:induction false} InsertedAppend(blobs: map<Id, Blob>, a: seq<NewBlob>, b: seq<NewBlob>, now: Time, lease: Option<Time>)
    ensures Inserted(blobs, a + b, now, lease) == Inserted(Inserted(blobs, a, now, lease), b, now, lease)
    ensures NoDuplicates(blobs, a + b) <==> NoDuplicates(blobs, a) && NoDuplicates(Inserted(blobs, a, now, lease), b)
    decreases |a|
  {
    if a == [] {
      assert a + b == b;
    } else {
      var all := a + b;
      assert all[1..] == a[1..] + b && all[0] == a[0];
      InsertedAppend(blobs[a[0].id := Leased(a[0], now, lease)], a[1..], b, now, lease);
      if NewTo(blobs, a[0]) {
        NoDuplicatesRest(blobs, all, now, lease);
        NoDuplicatesRest(blobs, a, now, lease);
      } else {
        assert !NoDuplicates(blobs, a) && !NoDuplicates(blobs, all);
      }
    }
  }

  function NewIds(rows: seq<NewBlob>): set<Id> { set n | n in rows :: n.id }

  lemma {:induction false} InsertedRows(blobs: map<Id, Blob>, rows: seq<NewBlob>, now: Time, lease: Option<Time>)
    requires NoDuplicates(blobs, rows)
    ensures Inserted(blobs, rows, now, lease).Keys == blobs.Keys + NewIds(rows)
    ensures NewIds(rows) !! blobs.Keys
    ensures forall b :: b in blobs ==> Inserted(blobs, rows, now, lease)[b] == blobs[b]
    ensures forall n :: n in rows ==> n.id in Inserted(blobs, rows, now, lease) && Inserted(blobs, rows, now, lease)[n.id] == Leased(n, now, lease)
    decreases |rows|
  {
    if rows != [] {
      assert NewTo(blobs, rows[0]);
      NoDuplicatesRest(blobs, rows, now, lease);
      InsertedRows(blobs[rows[0].id := Leased(rows[0], now, lease)], rows[1..], now, lease);
      assert rows == [rows[0]] + rows[1..];
      assert NewIds(rows) == {rows[0].id} + NewIds(rows[1..]);
    }
  }
}
