/**
  The ledger invariant that the audit decides, stated against an arbitrary multiset of
  metadata references, and how the totals of the blob table change with its rows.
 */
module LedgerInvariant {
  import opened Common
  import opened LedgerTransactions

  /** What one metadata row (object or recycle-bin row) says about the blob it names. */
  datatype Ref = Ref(path: Path, size: int)

  datatype Weight = Weight(used: nat, reserved: nat)

  function WeightOf(b: Blob): Weight {
    match b.status
    case Active => Weight(b.size, 0)
    case Orphaned => Weight(b.size, 0)
    case Staging => Weight(0, b.size)
    case PendingDelete => if b.HasStaging() then Weight(0, b.size) else Weight(b.size, 0)
    case Unsupported(_) => Weight(0, 0)
  }

  function Plus(a: Weight, b: Weight): Weight { Weight(a.used + b.used, a.reserved + b.reserved) }

  ghost function Weigh(blobs: map<Id, Blob>): Weight
    decreases |blobs|
  {
    if blobs == map[] then Weight(0, 0)
    else var k :| k in blobs;
      assert |blobs - {k}| < |blobs| by { assert (blobs - {k}).Keys == blobs.Keys - {k}; }
      Plus(WeightOf(blobs[k]), Weigh(blobs - {k}))
  }

  /** The bytes a status rule asks of a blob row, apart from the quota totals. */
  ghost predicate RowOk(l: Ledger, refs: multiset<Ref>, id: Id)
    requires id in l.blobs
  {
    var b := l.blobs[id];
    match b.status
    case Active =>
      id !in l.jobs && !b.HasStaging() && b.lease.None?
      && b.refCount == refs[Ref(b.storagePath, b.size)] && b.refCount > 0
    case Staging => b.HasStaging() && b.lease.Some? && b.refCount == 0
    case PendingDelete => b.refCount == 0 && b.lease.None? && id in l.jobs
    case Orphaned => id !in l.jobs && !b.HasStaging() && b.lease.None? && b.refCount == 0
    case Unsupported(_) => false
  }

  ghost predicate RowsOk(l: Ledger, refs: multiset<Ref>) {
    forall id {:trigger RowOk(l, refs, id)} :: id in l.blobs ==> RowOk(l, refs, id)
  }

  predicate NamedOnce(b: Blob) {
    b.storagePath != Empty && b.stagingPath != Some(b.storagePath)
  }

  /** Two rows manage no path in common. */
  predicate Apart(a: Blob, b: Blob) {
    && a.storagePath != b.storagePath
    && (a.HasStaging() ==> a.stagingPath.value != b.storagePath)
    && (b.HasStaging() ==> b.stagingPath.value != a.storagePath)
    && (a.HasStaging() && b.HasStaging() ==> a.stagingPath.value != b.stagingPath.value)
  }

  /** Every managed path is nonempty and belongs to exactly one blob, in one role. */
  ghost predicate PathsOk(l: Ledger) {
    && (forall a {:trigger NamedOnce(l.blobs[a])} :: a in l.blobs ==> NamedOnce(l.blobs[a]))
    && (forall a, b {:trigger Apart(l.blobs[a], l.blobs[b])} ::
         a in l.blobs && b in l.blobs && a != b ==> Apart(l.blobs[a], l.blobs[b]))
  }

  ghost predicate ActiveAt(l: Ledger, r: Ref) {
    exists b :: b in l.blobs && l.blobs[b].status == Active
      && l.blobs[b].storagePath == r.path && l.blobs[b].size == r.size
  }

  ghost predicate RefsOk(l: Ledger, refs: multiset<Ref>) {
    forall r {:trigger ActiveAt(l, r)} :: r in refs ==> ActiveAt(l, r)
  }

  ghost predicate JobsOk(l: Ledger) {
    forall id :: id in l.jobs ==> id in l.blobs && l.jobs[id].storagePath == l.blobs[id].storagePath
  }

  ghost predicate TotalsOk(l: Ledger) {
    Weigh(l.blobs) == Weight(l.quota.used, l.quota.reserved)
  }

  /** The ledger invariant, against the references that metadata holds. */
  ghost predicate Books(l: Ledger, refs: multiset<Ref>) {
    && RowsOk(l, refs) && PathsOk(l) && RefsOk(l, refs) && JobsOk(l) && TotalsOk(l)
    && l.quota.used <= MAX_U64 && l.quota.reserved <= MAX_U64
  }

  // ------------------------------------------------------ totals of a table

  lemma {:induction false} WeighRemove(blobs: map<Id, Blob>, k: Id)
    requires k in blobs
    ensures Weigh(blobs) == Plus(WeightOf(blobs[k]), Weigh(blobs - {k}))
    decreases |blobs|
  {
    var c :| c in blobs && Weigh(blobs) == Plus(WeightOf(blobs[c]), Weigh(blobs - {c}));
    if c != k {
      assert (blobs - {c}).Keys == blobs.Keys - {c};
      assert (blobs - {k}).Keys == blobs.Keys - {k};
      assert blobs - {c} - {k} == blobs - {k} - {c};
      WeighRemove(blobs - {c}, k);
      WeighRemove(blobs - {k}, c);
      var rest := Weigh(blobs - {c} - {k});
      assert (blobs - {c})[k] == blobs[k] && (blobs - {k})[c] == blobs[c];
      assert Weigh(blobs - {k}) == Plus(WeightOf(blobs[c]), rest);
      assert Weigh(blobs - {c}) == Plus(WeightOf(blobs[k]), rest);
      assert Weigh(blobs) == Plus(WeightOf(blobs[c]), Plus(WeightOf(blobs[k]), rest));
    }
  }

  lemma WeighUpdate(blobs: map<Id, Blob>, k: Id, b: Blob)
    ensures Weigh(blobs[k := b]) == Plus(WeightOf(b), Weigh(blobs - {k}))
  {
    WeighRemove(blobs[k := b], k);
    assert blobs[k := b] - {k} == blobs - {k};
  }

  lemma {:induction false} WeighSame(a: map<Id, Blob>, b: map<Id, Blob>)
    requires a.Keys == b.Keys
    requires forall k :: k in a ==> WeightOf(a[k]) == WeightOf(b[k])
    ensures Weigh(a) == Weigh(b)
    decreases |a|
  {
    if a == map[] {
      assert b == map[];
    } else {
      var k :| k in a;
      WeighRemove(a, k);
      WeighRemove(b, k);
      assert (a - {k}).Keys == a.Keys - {k} == (b - {k}).Keys;
      WeighSame(a - {k}, b - {k});
    }
  }

  function Columns(l: Ledger): Weight { Weight(l.quota.used, l.quota.reserved) }

  /** One row changed, and the columns with it. */
  lemma RowReweighed(l: Ledger, n: Ledger, k: Id, b: Blob)
    requires TotalsOk(l) && k in l.blobs && n.blobs == l.blobs[k := b]
    requires Plus(Columns(n), WeightOf(l.blobs[k])) == Plus(Columns(l), WeightOf(b))
    ensures TotalsOk(n)
  {
    WeighRemove(l.blobs, k);
    WeighUpdate(l.blobs, k, b);
  }

  /** One row added, and its bytes with it. */
  lemma RowWeighed(l: Ledger, n: Ledger, k: Id, b: Blob)
    requires TotalsOk(l) && k !in l.blobs && n.blobs == l.blobs[k := b]
    requires Columns(n) == Plus(Columns(l), WeightOf(b))
    ensures TotalsOk(n)
  {
    WeighUpdate(l.blobs, k, b);
    assert l.blobs - {k} == l.blobs;
  }

  lemma WeighMember(l: Ledger, k: Id)
    requires TotalsOk(l) && k in l.blobs
    ensures WeightOf(l.blobs[k]).used <= l.quota.used
    ensures WeightOf(l.blobs[k]).reserved <= l.quota.reserved
  {
    WeighRemove(l.blobs, k);
  }
}
