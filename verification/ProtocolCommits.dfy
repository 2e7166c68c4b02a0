/** When the publish transaction of an upload commits, and what it has then written. */
module ProtocolCommits {
  import opened Common
  import opened LedgerTransactions
  import opened LedgerInvariant
  import opened BooksKept
  import opened LedgerBatches
  import opened FolderPaths
  import opened Metadata
  import opened Protocol
  import opened ProtocolInvariant
  import opened ProtocolPublish
  import opened ProtocolGuarantees

  // ------------------------------------------------------------ the transaction

  lemma {:induction false} OverwrittenNone(objects: map<Key, File>, items: seq<Item>)
    ensures Overwritten(objects, items) == [] <==> forall t :: t in items ==> t.key !in objects
  {
    if items != [] {
      OverwrittenNone(objects, items[1..]);
      assert items == [items[0]] + items[1..];
    }
  }

  /** The release of what a publish replaces never fails. */
  lemma ReplacedAreReleased(db: Db, items: seq<Item>, now: Time)
    requires Audited(db) && DistinctKeys(items) && (forall t :: t in items ==> ItemOk(db.ledger, t))
    requires ActivateAll(db.ledger, Acts(items)).Ok?
    ensures var l, counts := ActivateAll(db.ledger, Acts(items)).ledger, CountPaths(Overwritten(db.objects, items));
      ReleaseRefs(l, counts, now) == Ok(AfterRelease(l, counts, now))
  {
    ActivateAllKeeps(db.ledger, Refs(db), items);
    PutItemsRefs(db.objects, items);
    var left := RefsIn(PutItems(db.objects, items), Itself) + RefsIn(db.bin, FileOf);
    var l := ActivateAll(db.ledger, Acts(items)).ledger;
    ReleaseRowsKeeps(l, Refs(db) + RefsOf(ItemFiles(items)), left, Overwritten(db.objects, items), now);
  }

  /** Once its rows have been activated, a publish fails only on a missing bucket or on an
      object that it must not replace. */
  lemma PublishDoneIff(db: Db, items: seq<Item>, overwrite: bool, now: Time)
    requires Audited(db) && DistinctKeys(items) && forall t :: t in items ==> ItemOk(db.ledger, t)
    ensures Publish(db, items, overwrite, now).Done? <==>
      && ActivateAll(db.ledger, Acts(items)).Ok? && (forall t :: t in items ==> t.key.bucket in db.buckets)
      && (overwrite || forall t :: t in items ==> t.key !in db.objects)
    ensures Publish(db, items, overwrite, now).Done? ==>
      Publish(db, items, overwrite, now).db.ledger.quota == ActivateAll(db.ledger, Acts(items)).ledger.quota
  {
    OverwrittenNone(db.objects, items);
    if ActivateAll(db.ledger, Acts(items)).Ok? { ReplacedAreReleased(db, items, now); }
  }

  // ----------------------------------------------------- the rows of the upload

  /** The bytes that an upload publishes. */
  function TotalSize(s: State, entries: seq<Id>): nat
    requires forall b :: b in entries ==> b in s.stagers
  {
    if entries == [] then 0 else s.stagers[entries[0]].Size() + TotalSize(s, entries[1..])
  }

  /** The bytes that its rows have reserved. */
  function TotalRows(blobs: map<Id, Blob>, entries: seq<Id>): nat {
    if entries == [] then 0 else SizeIn(blobs, entries[0]) + TotalRows(blobs, entries[1..])
  }

  lemma {:induction false} ActsOfItems(items: seq<Item>)
    ensures |Acts(items)| == |items| && forall i :: 0 <= i < |items| ==> Acts(items)[i] == items[i].act
  {
    if items != [] { ActsOfItems(items[1..]); }
  }

  lemma {:induction false} ItemTotals(s: State, entries: seq<Id>, keys: seq<Key>, attrs: seq<Attrs>, blobs: map<Id, Blob>)
    requires |keys| == |attrs| == |entries| && forall b :: b in entries ==> b in s.stagers
    ensures ActualOf(Acts(UploadItems(s, entries, keys, attrs))) == TotalSize(s, entries)
    ensures ReservedOf(blobs, Acts(UploadItems(s, entries, keys, attrs))) == TotalRows(blobs, entries)
    decreases |entries|
  {
    if entries != [] { ItemTotals(s, entries[1..], keys[1..], attrs[1..], blobs); }
  }

  /** Distinct staging rows together have reserved no more than the whole table. */
  lemma {:induction false} RowsWithinTotal(blobs: map<Id, Blob>, entries: seq<Id>)
    requires Distinct(entries) && forall b :: b in entries ==> b in blobs && blobs[b].status == Staging
    ensures TotalRows(blobs, entries) <= Weigh(blobs).reserved
    decreases |entries|
  {
    if entries != [] {
      var rest := blobs - {entries[0]};
      forall b | b in entries[1..] ensures b in rest && rest[b] == blobs[b] {}
      WeighRemove(blobs, entries[0]);
      RowsWithinTotal(rest, entries[1..]);
      SameTotal(blobs, rest, entries[1..]);
    }
  }

  lemma {:induction false} SameTotal(a: map<Id, Blob>, b: map<Id, Blob>, entries: seq<Id>)
    requires forall x :: x in entries ==> SizeIn(a, x) == SizeIn(b, x)
    ensures TotalRows(a, entries) == TotalRows(b, entries)
  {
    if entries != [] {
      assert entries[0] in entries;
      SameTotal(a, b, entries[1..]);
    }
  }

  predicate RowsStaging(s: State, entries: seq<Id>) {
    forall b :: b in entries ==> b in s.db.ledger.blobs && s.db.ledger.blobs[b].status == Staging
  }

  lemma UploadActs(s: State, entries: seq<Id>, keys: seq<Key>, attrs: seq<Attrs>)
    requires |keys| == |attrs| == |entries| && forall b :: b in entries ==> b in s.stagers
    ensures var acts := Acts(UploadItems(s, entries, keys, attrs));
      |acts| == |entries| && forall i :: 0 <= i < |acts| ==> acts[i] == Activation(entries[i], s.stagers[entries[i]].Size())
  {
    UploadItemsAre(s, entries, keys, attrs);
    ActsOfItems(UploadItems(s, entries, keys, attrs));
  }

  lemma FitsItsRow(s: State, q: Id, b: Id)
    requires Inv(s) && q in s.requests && b in s.requests[q].entries
    ensures b in s.stagers
    ensures b in s.db.ledger.blobs && s.db.ledger.blobs[b].status == Staging ==> s.stagers[b].Size() <= s.db.ledger.blobs[b].size
  {
    assert RequestOk(s, q) && EntryOk(s, q, b) && StagerOk(s, b);
  }

  /** In a reachable state an upload can be activated if and only if all of its rows are still
      staging and its bytes do not overflow the used column: no row is too small for its file,
      and the reserved column covers them all. */
  lemma ActivatesIff(s: State, q: Id, keys: seq<Key>, attrs: seq<Attrs>)
    requires Inv(s) && CanPublish(s, q, keys, attrs)
    ensures Batchable(s.db.ledger, Acts(UploadItems(s, s.requests[q].entries, keys, attrs))) <==>
      && RowsStaging(s, s.requests[q].entries)
      && s.db.ledger.quota.used + TotalSize(s, s.requests[q].entries) <= MAX_U64
  {
    var entries := s.requests[q].entries;
    var acts := Acts(UploadItems(s, entries, keys, attrs));
    UploadActs(s, entries, keys, attrs);
    ItemTotals(s, entries, keys, attrs, s.db.ledger.blobs);
    assert Distinct(entries) by { assert RequestOk(s, q); }
    if RowsStaging(s, entries) {
      forall a | a in acts ensures Activatable(s.db.ledger, a) {
        assert a.id in entries;
        FitsItsRow(s, q, a.id);
      }
      RowsWithinTotal(s.db.ledger.blobs, entries);
    }
    if Batchable(s.db.ledger, acts) {
      forall b | b in entries ensures b in s.db.ledger.blobs && s.db.ledger.blobs[b].status == Staging {
        var i :| 0 <= i < |entries| && entries[i] == b;
        assert acts[i] in acts;
      }
    }
  }

  // --------------------------------------------------------------- the commit

  /** What a client can check before it publishes. */
  predicate WillCommit(s: State, q: Id, keys: seq<Key>, overwrite: bool)
    requires q in s.requests && forall b :: b in s.requests[q].entries ==> b in s.stagers
  {
    && RowsStaging(s, s.requests[q].entries)
    && (forall k :: k in keys ==> k.bucket in s.db.buckets && (overwrite || k !in s.db.objects))
    && s.db.ledger.quota.used + TotalSize(s, s.requests[q].entries) <= MAX_U64
  }

  /** Every key has its own staged file, and no other object has changed. */
  predicate WritesKeys(s: State, n: Db, entries: seq<Id>, keys: seq<Key>, attrs: seq<Attrs>) {
    && |keys| == |attrs| == |entries| && n.bin == s.db.bin && n.buckets == s.db.buckets
    && (forall i :: 0 <= i < |keys| ==>
         && entries[i] in s.stagers && keys[i] in n.objects
         && n.objects[keys[i]] == File(s.stagers[entries[i]].storagePath, s.stagers[entries[i]].Size(), attrs[i]))
    && (forall k :: k in n.objects ==> k in s.db.objects || k in keys)
    && (forall k :: k in s.db.objects && k !in keys ==> k in n.objects && n.objects[k] == s.db.objects[k])
  }

  lemma {:induction false} SizesFor(acts: seq<Activation>) returns (sizes: map<Id, nat>)
    requires DistinctActs(acts)
    ensures SizesOf(sizes, acts)
  {
    sizes := map a | a in ActIds(acts) :: SizeFor(acts, a);
    forall a | a in acts ensures a.id in sizes && sizes[a.id] == a.actual { SizeForIs(acts, a); }
  }

  function SizeFor(acts: seq<Activation>, id: Id): nat {
    if acts == [] then 0 else if acts[0].id == id then acts[0].actual else SizeFor(acts[1..], id)
  }

  lemma {:induction false} SizeForIs(acts: seq<Activation>, a: Activation)
    requires DistinctActs(acts) && a in acts
    ensures SizeFor(acts, a.id) == a.actual
  {
    if acts[0] != a {
      var i :| 0 <= i < |acts| && acts[i] == a;
      assert acts[0].id != acts[i].id && acts[1..][i - 1] == a;
      SizeForIs(acts[1..], a);
    }
  }

  lemma ItemsKeyed(s: State, q: Id, keys: seq<Key>, attrs: seq<Attrs>, overwrite: bool)
    requires CanPublish(s, q, keys, attrs)
    ensures var items := UploadItems(s, s.requests[q].entries, keys, attrs);
      && (forall k :: HasKey(items, k) <==> k in keys)
      && ((forall t :: t in items ==> t.key.bucket in s.db.buckets) && (overwrite || forall t :: t in items ==> t.key !in s.db.objects)
          <==> forall k :: k in keys ==> k.bucket in s.db.buckets && (overwrite || k !in s.db.objects))
  {
    var items := UploadItems(s, s.requests[q].entries, keys, attrs);
    UploadItemsAre(s, s.requests[q].entries, keys, attrs);
    forall k ensures HasKey(items, k) <==> k in keys {
      if k in keys {
        var i :| 0 <= i < |keys| && keys[i] == k;
        assert items[i] in items;
      }
    }
    forall k | k in keys ensures HasKey(items, k) {}
    forall t | t in items ensures t.key in keys { assert HasKey(items, t.key); }
  }

  lemma PublishWritesKeys(s: State, q: Id, keys: seq<Key>, attrs: seq<Attrs>, overwrite: bool, now: Time)
    requires CanPublish(s, q, keys, attrs)
    requires Publish(s.db, UploadItems(s, s.requests[q].entries, keys, attrs), overwrite, now).Done?
    ensures WritesKeys(s, Publish(s.db, UploadItems(s, s.requests[q].entries, keys, attrs), overwrite, now).db,
                       s.requests[q].entries, keys, attrs)
  {
    var entries := s.requests[q].entries;
    var items := UploadItems(s, entries, keys, attrs);
    UploadItemsAre(s, entries, keys, attrs);
    ItemsKeyed(s, q, keys, attrs, overwrite);
    PutItemsAre(s.db.objects, items);
    forall i | 0 <= i < |keys| ensures items[i] in items && entries[i] in entries {}
  }

  lemma CommitsIff(s: State, q: Id, keys: seq<Key>, attrs: seq<Attrs>, overwrite: bool, now: Time)
    requires Inv(s) && CanPublish(s, q, keys, attrs)
    ensures Publish(s.db, UploadItems(s, s.requests[q].entries, keys, attrs), overwrite, now).Done? <==> WillCommit(s, q, keys, overwrite)
  {
    var items := UploadItems(s, s.requests[q].entries, keys, attrs);
    UploadItemsOk(s, q, keys, attrs);
    PublishDoneIff(s.db, items, overwrite, now);
    ActivateAllIs(s.db.ledger, Acts(items), map[]);
    ActivatesIff(s, q, keys, attrs);
    ItemsKeyed(s, q, keys, attrs, overwrite);
  }

  lemma CommitColumns(s: State, q: Id, keys: seq<Key>, attrs: seq<Attrs>, overwrite: bool, now: Time)
    requires Inv(s) && CanPublish(s, q, keys, attrs)
    requires Publish(s.db, UploadItems(s, s.requests[q].entries, keys, attrs), overwrite, now).Done?
    ensures var quota := Publish(s.db, UploadItems(s, s.requests[q].entries, keys, attrs), overwrite, now).db.ledger.quota;
      && quota.used == s.db.ledger.quota.used + TotalSize(s, s.requests[q].entries)
      && quota.reserved + TotalRows(s.db.ledger.blobs, s.requests[q].entries) == s.db.ledger.quota.reserved
  {
    var items := UploadItems(s, s.requests[q].entries, keys, attrs);
    UploadItemsOk(s, q, keys, attrs);
    PublishDoneIff(s.db, items, overwrite, now);
    ActivateAllIs(s.db.ledger, Acts(items), map[]);
    var sizes := SizesFor(Acts(items));
    ActivateAllIs(s.db.ledger, Acts(items), sizes);
    ItemTotals(s, s.requests[q].entries, keys, attrs, s.db.ledger.blobs);
  }

  /** In every reachable state an upload that opens its publish transaction commits if and only
      if its rows are still staging, its buckets exist, it replaces only what it may, and the
      used column can hold its bytes. Then every key has its own staged file and no other object
      has changed, every row is active with one reference, and its bytes have moved from
      reserved to used; otherwise the database is as it was and the client is unsure. */
  lemma PublishCommitsIff(s: State, q: Id, keys: seq<Key>, attrs: seq<Attrs>, overwrite: bool, now: Time, heard: bool)
    requires Reachable(s) && CanPublish(s, q, keys, attrs)
    ensures var n := PublishUpload(s, q, keys, attrs, overwrite, now, heard);
      if WillCommit(s, q, keys, overwrite) then
        && InPhase(n, q, if heard then Finished(Acknowledged) else Unsure) && n.requests[q].committed
        && WritesKeys(s, n.db, s.requests[q].entries, keys, attrs)
        && (forall b :: b in s.requests[q].entries ==> Uploaded(s, n, b))
        && n.db.ledger.quota.used == s.db.ledger.quota.used + TotalSize(s, s.requests[q].entries)
        && n.db.ledger.quota.reserved + TotalRows(s.db.ledger.blobs, s.requests[q].entries) == s.db.ledger.quota.reserved
      else InPhase(n, q, Unsure) && !n.requests[q].committed && n.db == s.db
  {
    ReachableOk(s);
    CommitsIff(s, q, keys, attrs, overwrite, now);
    if WillCommit(s, q, keys, overwrite) {
      PublishWritesKeys(s, q, keys, attrs, overwrite, now);
      CommitColumns(s, q, keys, attrs, overwrite, now);
      CommitUploads(s, q, keys, attrs, overwrite, now);
    } else {
      assert !s.requests[q].committed by { assert RequestOk(s, q); }
    }
  }

  lemma CommitUploads(s: State, q: Id, keys: seq<Key>, attrs: seq<Attrs>, overwrite: bool, now: Time)
    requires Inv(s) && CanPublish(s, q, keys, attrs)
    requires Publish(s.db, UploadItems(s, s.requests[q].entries, keys, attrs), overwrite, now).Done?
    ensures var n := s.(db := Publish(s.db, UploadItems(s, s.requests[q].entries, keys, attrs), overwrite, now).db);
      forall b :: b in s.requests[q].entries ==> Uploaded(s, n, b)
  {
    var items := UploadItems(s, s.requests[q].entries, keys, attrs);
    UploadItemsOk(s, q, keys, attrs);
    PublishKeeps(s.db, items, overwrite, now);
    var n := s.(db := Publish(s.db, items, overwrite, now).db);
    forall b | b in s.requests[q].entries ensures Uploaded(s, n, b) {
      assert b in Entries(s, q);
      var t :| t in items && t.act.id == b;
      assert Published(s.db.ledger, n.db.ledger, t);
    }
  }
}
