/**
  ValidateAndMarkReconciled: the map-and-loop checker of the ledger, on the rows its queries
  return. It accepts exactly the ledgers that satisfy the declarative invariant.
 */
module LedgerAudit {
  import opened Common
  import opened LedgerTransactions
  import opened LedgerInvariant
  import opened BooksKept
  import opened Metadata
  import opened StorageBlobRepository

  // ---------------------------------------------------------- query results

  datatype BlobRow = BlobRow(id: Id, blob: Blob)

  datatype JobRow = JobRow(blobId: Id, storagePath: Path)

  /** One group of the reference query: a path, how many rows name it, and their sizes. */
  datatype Group = Group(path: Path, count: nat, minimum: int, maximum: int)

  /** The rows list the table, each row once. */
  ghost predicate Lists(rows: seq<BlobRow>, blobs: map<Id, Blob>) {
    && (forall i {:trigger rows[i]} :: 0 <= i < |rows| ==> rows[i].id in blobs && blobs[rows[i].id] == rows[i].blob)
    && (forall i, j :: 0 <= i < j < |rows| ==> rows[i].id != rows[j].id)
    && (forall b :: b in blobs ==> Listed(rows, b))
  }

  ghost predicate Listed(rows: seq<BlobRow>, b: Id) { exists i :: 0 <= i < |rows| && rows[i].id == b }

  ghost predicate ListsJobs(rows: seq<JobRow>, jobs: map<Id, Job>) {
    && (forall r :: r in rows ==> r.blobId in jobs && jobs[r.blobId].storagePath == r.storagePath)
    && (forall b :: b in jobs ==> exists r :: r in rows && r.blobId == b)
  }

  function CountAt(entries: seq<Ref>, p: Path): nat {
    if entries == [] then 0 else (if entries[0].path == p then 1 else 0) + CountAt(entries[1..], p)
  }

  ghost predicate GroupOf(g: Group, entries: seq<Ref>) {
    && g.count == CountAt(entries, g.path)
    && Ref(g.path, g.minimum) in entries && Ref(g.path, g.maximum) in entries
    && (forall e :: e in entries && e.path == g.path ==> g.minimum <= e.size <= g.maximum)
  }

  /** SELECT storage_path, COUNT(*), MIN(size), MAX(size) ... GROUP BY storage_path. */
  ghost predicate Groups(groups: seq<Group>, entries: seq<Ref>) {
    && (forall g :: g in groups ==> GroupOf(g, entries))
    && (forall i, j :: 0 <= i < j < |groups| ==> groups[i].path != groups[j].path)
    && (forall e :: e in entries ==> exists g :: g in groups && g.path == e.path)
  }

  // -------------------------------------------------- the rows of both tables

  /** Rows with a storage path, as (path, size). */
  function EntriesOf(files: seq<File>): seq<Ref> {
    if files == [] then []
    else (if files[0].storagePath == Empty then [] else [Ref(files[0].storagePath, files[0].size)]) + EntriesOf(files[1..])
  }

  lemma {:induction false} EntriesAreRefs(files: seq<File>)
    ensures multiset(EntriesOf(files)) == RefsOf(files)
  {
    if files != [] { EntriesAreRefs(files[1..]); }
  }

  /** The keys of the object table and the ids of the bin, each once. */
  ghost predicate ListsTables(db: Db, keys: seq<Key>, ids: seq<nat>) {
    && Distinct(keys) && (forall k :: k in keys <==> k in db.objects)
    && Distinct(ids) && (forall i :: i in ids <==> i in db.bin)
  }

  /** SELECT storage_path, size of the object rows UNION ALL those of the bin rows, where the
      path is not empty. */
  function TableEntries(db: Db, keys: seq<Key>, ids: seq<nat>): seq<Ref>
    requires (forall k :: k in keys ==> k in db.objects) && forall i :: i in ids ==> i in db.bin
  {
    EntriesOf(FilesAt(db.objects, keys) + BinFiles(db.bin, ids))
  }

  /** The inner query returns exactly the references the two tables hold, however it lists
      their rows. */
  lemma QueryReadsAllReferences(db: Db, keys: seq<Key>, ids: seq<nat>)
    requires ListsTables(db, keys, ids)
    ensures multiset(TableEntries(db, keys, ids)) == Refs(db)
  {
    EntriesAreRefs(FilesAt(db.objects, keys) + BinFiles(db.bin, ids));
    RefsOfConcat(FilesAt(db.objects, keys), BinFiles(db.bin, ids));
    DropObjectsRefs(db.objects, keys);
    DropBinRefs(db.bin, ids);
    assert Drop(db.objects, keys) == map[];
    assert Drop(db.bin, ids) == map[];
  }

  // ------------------------------------------------------------ sums of rows

  function WeighRows(rows: seq<BlobRow>): Weight {
    if rows == [] then Weight(0, 0) else Plus(WeighRows(rows[..|rows| - 1]), WeightOf(rows[|rows| - 1].blob))
  }

  lemma {:induction false} WeighRowsIs(rows: seq<BlobRow>, blobs: map<Id, Blob>)
    requires Lists(rows, blobs)
    ensures WeighRows(rows) == Weigh(blobs)
    decreases |rows|
  {
    if rows == [] {
      assert forall b :: b in blobs ==> Listed(rows, b);
      assert blobs == map[];
    } else {
      var last := rows[|rows| - 1];
      assert rows[|rows| - 1].id in blobs;
      WeighRemove(blobs, last.id);
      ListsInit(rows, blobs);
      WeighRowsIs(rows[..|rows| - 1], blobs - {last.id});
    }
  }

  lemma ListsInit(rows: seq<BlobRow>, blobs: map<Id, Blob>)
    requires Lists(rows, blobs) && rows != []
    ensures Lists(rows[..|rows| - 1], blobs - {rows[|rows| - 1].id})
  {
    var init, last := rows[..|rows| - 1], rows[|rows| - 1];
    var rest := blobs - {last.id};
    forall b | b in rest ensures Listed(init, b) {
      assert Listed(rows, b);
      var i :| 0 <= i < |rows| && rows[i].id == b;
      assert init[i].id == b;
    }
    forall i | 0 <= i < |init| ensures init[i].id in rest && rest[init[i].id] == init[i].blob { assert init[i] == rows[i]; }
  }

  /** A prefix weighs no more than the whole. */
  lemma {:induction false} WeighPrefix(rows: seq<BlobRow>, i: nat)
    requires i <= |rows|
    ensures WeighRows(rows[..i]).used <= WeighRows(rows).used && WeighRows(rows[..i]).reserved <= WeighRows(rows).reserved
    decreases |rows|
  {
    if i == |rows| {
      assert rows[..i] == rows;
    } else {
      WeighPrefix(rows[..|rows| - 1], i);
      assert rows[..|rows| - 1][..i] == rows[..i];
    }
  }

  // ---------------------------------------------------------- counts of rows

  lemma {:induction false} CountIsMultiplicity(entries: seq<Ref>, p: Path, size: int)
    requires forall e :: e in entries && e.path == p ==> e.size == size
    ensures CountAt(entries, p) == multiset(entries)[Ref(p, size)]
  {
    if entries != [] {
      assert entries == [entries[0]] + entries[1..];
      CountIsMultiplicity(entries[1..], p, size);
    }
  }

  lemma {:induction false} CountZero(entries: seq<Ref>, p: Path)
    ensures CountAt(entries, p) == 0 <==> forall e :: e in entries ==> e.path != p
  {
    if entries != [] { CountZero(entries[1..], p); }
  }

  // ----------------------------------------------------------- managed paths

  ghost predicate HeldBy(rows: seq<BlobRow>, p: Path) { exists i :: 0 <= i < |rows| && rows[i].blob.Holds(p) }

  ghost predicate RowsApart(rows: seq<BlobRow>) {
    && (forall i {:trigger rows[i]} :: 0 <= i < |rows| ==> NamedOnce(rows[i].blob))
    && (forall i, j {:trigger Apart(rows[i].blob, rows[j].blob)} :: 0 <= i < j < |rows| ==> Apart(rows[i].blob, rows[j].blob))
  }

  /** Disjointness of the listed rows is disjointness of the table. */
  lemma RowsApartIs(rows: seq<BlobRow>, l: Ledger)
    requires Lists(rows, l.blobs)
    ensures RowsApart(rows) <==> PathsOk(l)
  {
    if RowsApart(rows) {
      forall a | a in l.blobs ensures NamedOnce(l.blobs[a]) {
        assert Listed(rows, a);
        var i :| 0 <= i < |rows| && rows[i].id == a;
      }
      forall a, b | a in l.blobs && b in l.blobs && a != b ensures Apart(l.blobs[a], l.blobs[b]) {
        assert Listed(rows, a) && Listed(rows, b);
        var i :| 0 <= i < |rows| && rows[i].id == a;
        var j :| 0 <= j < |rows| && rows[j].id == b;
        assert if i < j then Apart(rows[i].blob, rows[j].blob) else Apart(rows[j].blob, rows[i].blob);
      }
    }
    if PathsOk(l) {
      forall i | 0 <= i < |rows| ensures NamedOnce(rows[i].blob) { assert NamedOnce(l.blobs[rows[i].id]); }
      forall i, j | 0 <= i < j < |rows| ensures Apart(rows[i].blob, rows[j].blob) {
        assert Apart(l.blobs[rows[i].id], l.blobs[rows[j].id]);
      }
    }
  }

  lemma NotApart(rows: seq<BlobRow>, i: nat, j: nat, p: Path)
    requires i < j < |rows| && rows[i].blob.Holds(p) && rows[j].blob.Holds(p)
    ensures !RowsApart(rows)
  {
    assert !Apart(rows[i].blob, rows[j].blob);
  }

  ghost predicate Taken(managed: map<Path, Id>, rows: seq<BlobRow>) { forall p :: p in managed <==> HeldBy(rows, p) }

  ghost predicate AtPath(rows: seq<BlobRow>, p: Path) { exists i :: 0 <= i < |rows| && rows[i].blob.storagePath == p }

  ghost predicate Indexed(byPath: map<Path, Blob>, rows: seq<BlobRow>) {
    && (forall j {:trigger rows[j]} :: 0 <= j < |rows| ==>
         rows[j].blob.storagePath in byPath && byPath[rows[j].blob.storagePath] == rows[j].blob)
    && (forall p :: p in byPath ==> AtPath(rows, p))
  }

  lemma OneMorePath(byPath: map<Path, Blob>, rows: seq<BlobRow>, i: nat)
    requires i < |rows| && Indexed(byPath, rows[..i]) && !HeldBy(rows[..i], rows[i].blob.storagePath)
    ensures Indexed(byPath[rows[i].blob.storagePath := rows[i].blob], rows[..i + 1])
  {
    var more := rows[..i + 1];
    forall j | 0 <= j < i ensures more[j] == rows[..i][j] && more[j].blob.storagePath != rows[i].blob.storagePath {
      assert rows[..i][j].blob.Holds(rows[..i][j].blob.storagePath);
    }
    forall p | p in byPath ensures AtPath(more, p) {
      assert AtPath(rows[..i], p);
      var j :| 0 <= j < i && rows[..i][j].blob.storagePath == p;
      assert more[j].blob.storagePath == p;
    }
    assert more[i].blob.storagePath == rows[i].blob.storagePath;
  }

  ghost predicate IdsOf(byId: map<Id, Blob>, rows: seq<BlobRow>) {
    && (forall j :: 0 <= j < |rows| ==> rows[j].id in byId && byId[rows[j].id] == rows[j].blob)
    && (forall b :: b in byId ==> Listed(rows, b))
  }

  lemma OneMoreId(byId: map<Id, Blob>, rows: seq<BlobRow>, i: nat)
    requires i < |rows| && IdsOf(byId, rows[..i]) && forall j :: 0 <= j < i ==> rows[j].id != rows[i].id
    ensures IdsOf(byId[rows[i].id := rows[i].blob], rows[..i + 1])
  {
    var more := rows[..i + 1];
    forall j | 0 <= j < i ensures more[j] == rows[..i][j] {}
    forall b | b in byId ensures Listed(more, b) {
      assert Listed(rows[..i], b);
      var j :| 0 <= j < i && rows[..i][j].id == b;
      assert more[j].id == b;
    }
    assert more[i].id == rows[i].id;
  }

  /** The first loop of the audit: every managed path is nonempty and claimed once. */
  method CheckPaths(rows: seq<BlobRow>) returns (ok: bool, byPath: map<Path, Blob>, byId: map<Id, Blob>)
    requires forall i, j :: 0 <= i < j < |rows| ==> rows[i].id != rows[j].id
    ensures ok <==> RowsApart(rows)
    ensures ok ==> IdsOf(byId, rows)
    ensures ok ==> Indexed(byPath, rows)
  {
    byPath, byId := map[], map[];
    var managed: map<Path, Id> := map[];
    for i := 0 to |rows|
      invariant RowsApart(rows[..i]) && Taken(managed, rows[..i]) && IdsOf(byId, rows[..i])
      invariant Indexed(byPath, rows[..i])
    {
      var row := rows[i];
      if row.blob.storagePath == Empty {
        assert !NamedOnce(rows[i].blob);
        return false, byPath, byId;
      }
      if row.blob.storagePath in managed {
        assert HeldBy(rows[..i], row.blob.storagePath);
        ghost var j :| 0 <= j < i && rows[j].blob.Holds(row.blob.storagePath);
        NotApart(rows, j, i, row.blob.storagePath);
        return false, byPath, byId;
      }
      OneMorePath(byPath, rows, i);
      OneMoreId(byId, rows, i);
      managed := managed[row.blob.storagePath := row.id];
      byPath := byPath[row.blob.storagePath := row.blob];
      byId := byId[row.id := row.blob];
      if row.blob.stagingPath.Some? && row.blob.stagingPath.value != Empty {
        var staging := row.blob.stagingPath.value;
        if staging in managed {
          if staging != row.blob.storagePath {
            assert HeldBy(rows[..i], staging);
            ghost var j :| 0 <= j < i && rows[j].blob.Holds(staging);
            NotApart(rows, j, i, staging);
          } else {
            assert !NamedOnce(rows[i].blob);
          }
          return false, byPath, byId;
        }
        managed := managed[staging := row.id];
      }
      OneMore(rows, i);
    }
    assert rows[..|rows|] == rows;
    return true, byPath, byId;
  }

  /** Paths held after one more row, and disjointness with it. */
  lemma OneMore(rows: seq<BlobRow>, i: nat)
    requires i < |rows| && RowsApart(rows[..i]) && NamedOnce(rows[i].blob)
    requires !HeldBy(rows[..i], rows[i].blob.storagePath)
    requires rows[i].blob.HasStaging() ==> !HeldBy(rows[..i], rows[i].blob.stagingPath.value)
    ensures RowsApart(rows[..i + 1])
    ensures forall p :: HeldBy(rows[..i + 1], p) <==> HeldBy(rows[..i], p) || rows[i].blob.Holds(p)
  {
    var more := rows[..i + 1];
    assert more == rows[..i] + [rows[i]];
    forall a, b | 0 <= a < b < |more| ensures Apart(more[a].blob, more[b].blob) {
      if b < i { assert Apart(rows[..i][a].blob, rows[..i][b].blob); }
      else {
        assert rows[..i][a].blob.Holds(rows[a].blob.storagePath);
        assert rows[a].blob.HasStaging() ==> rows[..i][a].blob.Holds(rows[a].blob.stagingPath.value);
      }
    }
    forall p | HeldBy(rows[..i], p) ensures HeldBy(rows[..i + 1], p) {
      var j :| 0 <= j < i && rows[..i][j].blob.Holds(p);
      assert rows[..i + 1][j].blob.Holds(p);
    }
    forall p | rows[i].blob.Holds(p) ensures HeldBy(rows[..i + 1], p) { assert rows[..i + 1][i].blob.Holds(p); }
    forall p | HeldBy(rows[..i + 1], p) ensures HeldBy(rows[..i], p) || rows[i].blob.Holds(p) {
      var j :| 0 <= j < i + 1 && rows[..i + 1][j].blob.Holds(p);
      if j < i { assert rows[..i][j].blob.Holds(p); }
    }
  }

  // -------------------------------------------------------------- references

  /** What the reference loop checks of one group. */
  predicate GroupFits(byPath: map<Path, Blob>, g: Group) {
    && g.path in byPath && byPath[g.path].status == Active
    && 0 <= g.minimum && g.minimum == g.maximum == byPath[g.path].size
  }

  ghost predicate ByPath(byPath: map<Path, Blob>, l: Ledger) {
    && (forall p :: p in byPath ==> exists b :: b in l.blobs && l.blobs[b].storagePath == p && l.blobs[b] == byPath[p])
    && (forall b {:trigger l.blobs[b]} :: b in l.blobs ==> l.blobs[b].storagePath in byPath && byPath[l.blobs[b].storagePath] == l.blobs[b])
  }

  /** A group fits exactly when each reference it stands for has its active blob. */
  lemma GroupFitsIs(l: Ledger, byPath: map<Path, Blob>, entries: seq<Ref>, g: Group)
    requires ByPath(byPath, l) && GroupOf(g, entries)
    ensures GroupFits(byPath, g) <==> forall e :: e in entries && e.path == g.path ==> ActiveAt(l, e)
  {
    if GroupFits(byPath, g) {
      var b :| b in l.blobs && l.blobs[b].storagePath == g.path && l.blobs[b] == byPath[g.path];
      forall e | e in entries && e.path == g.path ensures ActiveAt(l, e) { assert l.blobs[b].size == e.size; }
    }
    if forall e :: e in entries && e.path == g.path ==> ActiveAt(l, e) {
      assert ActiveAt(l, Ref(g.path, g.minimum)) && ActiveAt(l, Ref(g.path, g.maximum));
      var a :| a in l.blobs && l.blobs[a].status == Active && l.blobs[a].storagePath == g.path && l.blobs[a].size == g.minimum;
      var b :| b in l.blobs && l.blobs[b].status == Active && l.blobs[b].storagePath == g.path && l.blobs[b].size == g.maximum;
      assert byPath[g.path] == l.blobs[a] == l.blobs[b];
    }
  }

  lemma AllGroupsFit(l: Ledger, byPath: map<Path, Blob>, entries: seq<Ref>, groups: seq<Group>)
    requires ByPath(byPath, l) && Groups(groups, entries)
    ensures (forall g :: g in groups ==> GroupFits(byPath, g)) <==> RefsOk(l, multiset(entries))
  {
    if forall g :: g in groups ==> GroupFits(byPath, g) {
      forall e | e in multiset(entries) ensures ActiveAt(l, e) {
        assert e in entries;
        var g :| g in groups && g.path == e.path;
        GroupFitsIs(l, byPath, entries, g);
      }
    }
    if RefsOk(l, multiset(entries)) {
      forall g | g in groups ensures GroupFits(byPath, g) {
        forall e | e in entries ensures ActiveAt(l, e) { assert e in multiset(entries); }
        GroupFitsIs(l, byPath, entries, g);
      }
    }
  }

  function PathsOf(groups: seq<Group>): set<Path> { set g | g in groups :: g.path }

  /** The second loop: every group has an active blob of its one size. */
  method CheckReferences(groups: seq<Group>, byPath: map<Path, Blob>) returns (ok: bool, counts: map<Path, nat>)
    requires forall i, j :: 0 <= i < j < |groups| ==> groups[i].path != groups[j].path
    ensures ok <==> forall g :: g in groups ==> GroupFits(byPath, g)
    ensures ok ==> counts.Keys == PathsOf(groups) && forall g :: g in groups ==> counts[g.path] == g.count
  {
    counts := map[];
    for i := 0 to |groups|
      invariant forall g :: g in groups[..i] ==> GroupFits(byPath, g)
      invariant counts.Keys == PathsOf(groups[..i])
      invariant forall g :: g in groups[..i] ==> g.path in counts && counts[g.path] == g.count
    {
      var g := groups[i];
      assert g in groups && groups[..i + 1] == groups[..i] + [g];
      if g.path !in byPath || byPath[g.path].status != Active
         || g.minimum < 0 || g.maximum < 0 || g.minimum != g.maximum || g.maximum != byPath[g.path].size {
        assert !GroupFits(byPath, g);
        return false, counts;
      }
      counts := counts[g.path := g.count];
      assert PathsOf(groups[..i + 1]) == PathsOf(groups[..i]) + {g.path};
    }
    assert groups[..|groups|] == groups;
    return true, counts;
  }

  lemma CountsFromGroups(groups: seq<Group>, entries: seq<Ref>, counts: map<Path, nat>)
    requires Groups(groups, entries)
    requires counts.Keys == PathsOf(groups) && forall g :: g in groups ==> counts[g.path] == g.count
    ensures CountsOf(counts, entries)
  {
    forall p | p in counts ensures counts[p] == CountAt(entries, p) {
      var g :| g in groups && g.path == p;
      assert GroupOf(g, entries);
    }
    forall p | p !in counts ensures CountAt(entries, p) == 0 {
      CountZero(entries, p);
      forall e | e in entries ensures e.path != p {
        var g :| g in groups && g.path == e.path;
        assert g.path in PathsOf(groups);
      }
    }
  }

  // ------------------------------------------------------------ cleanup jobs

  method CheckJobs(jobRows: seq<JobRow>, blobsById: map<Id, Blob>, ghost l: Ledger) returns (ok: bool)
    requires ListsJobs(jobRows, l.jobs) && blobsById == l.blobs
    ensures ok <==> JobsOk(l)
  {
    for i := 0 to |jobRows|
      invariant forall r :: r in jobRows[..i] ==> r.blobId in l.blobs && r.storagePath == l.blobs[r.blobId].storagePath
    {
      var r := jobRows[i];
      assert r in jobRows && jobRows[..i + 1] == jobRows[..i] + [r];
      if r.blobId !in blobsById { return false; }
      if r.storagePath != blobsById[r.blobId].storagePath { return false; }
    }
    assert jobRows[..|jobRows|] == jobRows;
    return true;
  }

  // ---------------------------------------------------------------- statuses

  /** The count of the metadata rows of each path, zero where there is none. */
  ghost predicate CountsOf(counts: map<Path, nat>, entries: seq<Ref>) {
    && (forall p :: p in counts ==> counts[p] == CountAt(entries, p))
    && (forall p {:trigger CountAt(entries, p)} :: p !in counts ==> CountAt(entries, p) == 0)
  }

  function CountIn(counts: map<Path, nat>, p: Path): nat { if p in counts then counts[p] else 0 }

  /** What the last loop asks of one row. */
  predicate RowPasses(b: Blob, references: nat, hasJob: bool) {
    match b.status
    case Active => !hasJob && !b.HasStaging() && b.lease.None? && references != 0 && b.refCount == references
    case Staging => b.HasStaging() && b.lease.Some? && b.refCount == 0 && references == 0
    case PendingDelete => b.refCount == 0 && references == 0 && b.lease.None? && hasJob
    case Orphaned => !hasJob && !b.HasStaging() && b.lease.None? && b.refCount == 0 && references == 0
    case Unsupported(_) => false
  }

  /** Given sound references, the check of a row is the rule for its status. */
  lemma RowPassesIs(l: Ledger, entries: seq<Ref>, counts: map<Path, nat>, id: Id)
    requires PathsOk(l) && RefsOk(l, multiset(entries)) && CountsOf(counts, entries) && id in l.blobs
    ensures RowPasses(l.blobs[id], CountIn(counts, l.blobs[id].storagePath), id in l.jobs) <==> RowOk(l, multiset(entries), id)
  {
    var b := l.blobs[id];
    var p := b.storagePath;
    assert CountIn(counts, p) == CountAt(entries, p);
    forall e | e in entries && e.path == p ensures e.size == b.size && b.status == Active {
      assert e in multiset(entries) && ActiveAt(l, e);
      var a :| a in l.blobs && l.blobs[a].status == Active && l.blobs[a].storagePath == p && l.blobs[a].size == e.size;
      OneHolder(l, a, id);
    }
    CountIsMultiplicity(entries, p, b.size);
    CountZero(entries, p);
  }

  /** addStorageLedgerBytes */
  method AddBytes(total: nat, size: nat) returns (ok: bool, sum: nat)
    requires total <= MAX_U64
    ensures ok <==> total + size <= MAX_U64
    ensures ok ==> sum == total + size
  {
    if MAX_U64 - total < size { return false, total; }
    return true, total + size;
  }

  /** The rule of one row's status, and its bytes in the column that holds them. */
  method CheckRow(b: Blob, references: nat, hasJob: bool, used: nat, reserved: nat) returns (ok: bool, newUsed: nat, newReserved: nat)
    requires used <= MAX_U64 && reserved <= MAX_U64
    ensures ok <==>
      RowPasses(b, references, hasJob) && used + WeightOf(b).used <= MAX_U64 && reserved + WeightOf(b).reserved <= MAX_U64
    ensures ok ==> Weight(newUsed, newReserved) == Plus(Weight(used, reserved), WeightOf(b))
  {
    newUsed, newReserved := used, reserved;
    var hasStaging := b.stagingPath.Some? && b.stagingPath.value != Empty;
    match b.status {
      case Active =>
        if hasJob || hasStaging || b.lease.Some? { return false, used, reserved; }
        if references == 0 || b.refCount != references { return false, used, reserved; }
        ok, newUsed := AddBytes(used, b.size);
      case Staging =>
        if !hasStaging || b.lease.None? || b.refCount != 0 || references != 0 { return false, used, reserved; }
        ok, newReserved := AddBytes(reserved, b.size);
      case PendingDelete =>
        if b.refCount != 0 || references != 0 || b.lease.Some? || !hasJob { return false, used, reserved; }
        if hasStaging {
          ok, newReserved := AddBytes(reserved, b.size);
        } else {
          ok, newUsed := AddBytes(used, b.size);
        }
      case Orphaned =>
        if hasJob || hasStaging || b.lease.Some? || b.refCount != 0 || references != 0 { return false, used, reserved; }
        ok, newUsed := AddBytes(used, b.size);
      case Unsupported(_) =>
        return false, used, reserved;
    }
  }

  /** The last loop: the rule of every status, and both sums without overflow. */
  method CheckRows(rows: seq<BlobRow>, counts: map<Path, nat>, jobIds: set<Id>) returns (ok: bool, used: nat, reserved: nat)
    ensures ok <==>
      && (forall r :: r in rows ==> RowPasses(r.blob, CountIn(counts, r.blob.storagePath), r.id in jobIds))
      && WeighRows(rows).used <= MAX_U64 && WeighRows(rows).reserved <= MAX_U64
    ensures ok ==> Weight(used, reserved) == WeighRows(rows)
  {
    used, reserved := 0, 0;
    for i := 0 to |rows|
      invariant forall r :: r in rows[..i] ==> RowPasses(r.blob, CountIn(counts, r.blob.storagePath), r.id in jobIds)
      invariant Weight(used, reserved) == WeighRows(rows[..i]) && used <= MAX_U64 && reserved <= MAX_U64
    {
      var r := rows[i];
      assert r in rows && rows[..i + 1] == rows[..i] + [r] && rows[..i + 1][..i] == rows[..i];
      WeighPrefix(rows, i + 1);
      ok, used, reserved := CheckRow(r.blob, CountIn(counts, r.blob.storagePath), r.id in jobIds, used, reserved);
      if !ok { return; }
    }
    assert rows[..|rows|] == rows;
    return true, used, reserved;
  }

  // --------------------------------------------------------------- the audit

  lemma ByPathOf(rows: seq<BlobRow>, l: Ledger, byPath: map<Path, Blob>)
    requires Lists(rows, l.blobs)
    requires Indexed(byPath, rows)
    ensures ByPath(byPath, l)
  {
    forall p | p in byPath ensures exists b :: b in l.blobs && l.blobs[b].storagePath == p && l.blobs[b] == byPath[p] {
      assert AtPath(rows, p);
      var i :| 0 <= i < |rows| && rows[i].blob.storagePath == p;
      assert rows[i].id in l.blobs && l.blobs[rows[i].id] == rows[i].blob;
    }
    forall b | b in l.blobs ensures l.blobs[b].storagePath in byPath && byPath[l.blobs[b].storagePath] == l.blobs[b] {
      assert Listed(rows, b);
      var i :| 0 <= i < |rows| && rows[i].id == b;
      assert l.blobs[rows[i].id] == rows[i].blob;
    }
  }

  lemma ByIdOf(rows: seq<BlobRow>, blobs: map<Id, Blob>, byId: map<Id, Blob>)
    requires Lists(rows, blobs) && IdsOf(byId, rows)
    ensures byId == blobs
  {
    forall b | b in byId || b in blobs ensures b in byId && b in blobs && byId[b] == blobs[b] {
      assert Listed(rows, b);
      var i :| 0 <= i < |rows| && rows[i].id == b;
      assert rows[i].id in blobs;
    }
  }

  lemma AllRowsPass(rows: seq<BlobRow>, l: Ledger, entries: seq<Ref>, counts: map<Path, nat>)
    requires Lists(rows, l.blobs) && PathsOk(l) && RefsOk(l, multiset(entries)) && CountsOf(counts, entries)
    ensures (forall r :: r in rows ==> RowPasses(r.blob, CountIn(counts, r.blob.storagePath), r.id in l.jobs))
      <==> RowsOk(l, multiset(entries))
  {
    forall b | b in l.blobs
      ensures RowPasses(l.blobs[b], CountIn(counts, l.blobs[b].storagePath), b in l.jobs) <==> RowOk(l, multiset(entries), b)
    {
      RowPassesIs(l, entries, counts, b);
    }
    forall r | r in rows ensures r.id in l.blobs && l.blobs[r.id] == r.blob {
      var i :| 0 <= i < |rows| && rows[i] == r;
      assert rows[i].id in l.blobs;
    }
    forall b | b in l.blobs ensures BlobRow(b, l.blobs[b]) in rows {
      assert Listed(rows, b);
      var i :| 0 <= i < |rows| && rows[i].id == b;
      assert rows[i] == BlobRow(b, l.blobs[b]);
    }
  }

  /** The checks after the paths have been found disjoint. */
  method CheckDisjoint(quota: Quota, rows: seq<BlobRow>, byPath: map<Path, Blob>, byId: map<Id, Blob>, groups: seq<Group>,
                       jobRows: seq<JobRow>, ghost l: Ledger, ghost entries: seq<Ref>) returns (ok: bool)
    requires quota == l.quota && quota.used <= MAX_U64 && quota.reserved <= MAX_U64
    requires Lists(rows, l.blobs) && ListsJobs(jobRows, l.jobs) && Groups(groups, entries)
    requires PathsOk(l) && ByPath(byPath, l) && byId == l.blobs
    ensures ok <==> Books(l, multiset(entries))
  {
    var refsOk, counts := CheckReferences(groups, byPath);
    AllGroupsFit(l, byPath, entries, groups);
    if !refsOk { return false; }
    CountsFromGroups(groups, entries, counts);
    var jobsOk := CheckJobs(jobRows, byId, l);
    if !jobsOk { return false; }
    var jobIds := set r | r in jobRows :: r.blobId;
    assert jobIds == l.jobs.Keys;
    var rowsOk, used, reserved := CheckRows(rows, counts, jobIds);
    AllRowsPass(rows, l, entries, counts);
    WeighRowsIs(rows, l.blobs);
    return rowsOk && quota.used == used && quota.reserved == reserved;
  }

  /** ValidateAndMarkReconciled succeeds exactly when the database satisfies the declarative
      invariant, overflow checks included, and only then stamps the quota row. The queries
      return the rows of the blobs, the grouped references of both tables and the jobs. */
  method ValidateAndMarkReconciled(repo: Repository, rows: seq<BlobRow>, groups: seq<Group>, jobRows: seq<JobRow>,
                                   reconciledAt: Time, ghost db: Db, ghost keys: seq<Key>, ghost ids: seq<nat>)
    returns (ok: bool)
    requires repo.Rows() == db.ledger && db.ledger.quota.used <= MAX_U64 && db.ledger.quota.reserved <= MAX_U64
    requires ListsTables(db, keys, ids)
    requires Lists(rows, db.ledger.blobs) && ListsJobs(jobRows, db.ledger.jobs) && Groups(groups, TableEntries(db, keys, ids))
    modifies repo`quota
    ensures ok <==> Audited(db)
    ensures repo.Rows() == if ok then MarkReconciled(db.ledger, Some(reconciledAt)) else db.ledger
    ensures ok ==> repo.quota.reconciledAt == Some(reconciledAt) && repo.quota.used == db.ledger.quota.used
  {
    QueryReadsAllReferences(db, keys, ids);
    var disjoint, byPath, byId := CheckPaths(rows);
    RowsApartIs(rows, db.ledger);
    if !disjoint { return false; }
    ByPathOf(rows, db.ledger, byPath);
    ByIdOf(rows, db.ledger.blobs, byId);
    ok := CheckDisjoint(repo.quota, rows, byPath, byId, groups, jobRows, db.ledger, TableEntries(db, keys, ids));
    if ok { repo.quota := repo.quota.(reconciledAt := Some(reconciledAt)); }
  }
}
