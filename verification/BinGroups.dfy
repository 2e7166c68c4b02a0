/**
  Delete groups in the recycle bin. One delete inserts one group; what remains of a group
  after any later action is still contiguous in the listing and still rooted in one row.
 */
module BinGroups {
  import opened Common
  import opened LedgerTransactions
  import opened FolderPaths
  import opened Metadata

  predicate IsMarkerRow(r: BinRow) { IsMarker(r.key.key) }

  predicate Together(a: BinRow, b: BinRow) { a.group == b.group }

  predicate UnderFolder(r: BinRow, f: string) { f <= r.key.key }

  /** Row m is a folder marker and its folder holds every row of its group. */
  ghost predicate Roots(bin: map<nat, BinRow>, m: nat) {
    m in bin && IsMarkerRow(bin[m]) && IsFolder(EntryPath(bin[m].key.key))
    && forall j :: j in bin && Together(bin[m], bin[j]) ==> UnderFolder(bin[j], EntryPath(bin[m].key.key))
  }

  ghost predicate Alone(bin: map<nat, BinRow>, i: nat)
    requires i in bin
  {
    forall j :: j in bin && Together(bin[i], bin[j]) ==> j == i
  }

  ghost predicate Rooted(bin: map<nat, BinRow>, i: nat)
    requires i in bin
  {
    Alone(bin, i) || exists m :: m in bin && Together(bin[m], bin[i]) && Roots(bin, m)
  }

  predicate Uniform(a: BinRow, b: BinRow) {
    Together(a, b) ==> a.deletedAt == b.deletedAt && a.key.bucket == b.key.bucket
  }

  /** No row of another group lies, at the same time, between two ids of one group. */
  predicate NotBetween(bin: map<nat, BinRow>, i: nat, k: nat, j: nat)
    requires i in bin && k in bin && j in bin
  {
    i < k < j && Together(bin[i], bin[j]) && bin[k].deletedAt == bin[i].deletedAt ==> Together(bin[i], bin[k])
  }

  ghost predicate BinOk(bin: map<nat, BinRow>, next: nat) {
    && (forall i :: i in bin ==> i < next)
    && (forall i, j {:trigger Uniform(bin[i], bin[j])} :: i in bin && j in bin ==> Uniform(bin[i], bin[j]))
    && (forall i, k, j {:trigger NotBetween(bin, i, k, j)} ::
         i in bin && k in bin && j in bin ==> NotBetween(bin, i, k, j))
    && (forall i {:trigger Rooted(bin, i)} :: i in bin ==> Rooted(bin, i))
  }

  // ---------------------------------------------------------------- inserting

  lemma {:induction false} BinInsertAt(bin: map<nat, BinRow>, first: nat, rows: seq<BinRow>)
    requires forall i :: i in bin ==> i < first
    ensures forall i :: i in BinInsert(bin, first, rows) <==> i in bin || first <= i < first + |rows|
    ensures forall i :: i in bin ==> BinInsert(bin, first, rows)[i] == bin[i]
    ensures forall i :: first <= i < first + |rows| ==> BinInsert(bin, first, rows)[i] == rows[i - first]
    decreases |rows|
  {
    if rows != [] {
      BinInsertAt(bin[first := rows[0]], first + 1, rows[1..]);
      assert BinInsert(bin, first, rows) == BinInsert(bin[first := rows[0]], first + 1, rows[1..]);
    }
  }

  /** A batch that makes one new group: same group, time and bucket, and either a single
      row or a batch that ends with the marker of a folder above every row. */
  predicate OneGroup(rows: seq<BinRow>) {
    && rows != []
    && (forall r :: r in rows ==>
         Together(rows[0], r) && r.deletedAt == rows[0].deletedAt && r.key.bucket == rows[0].key.bucket)
    && (|rows| == 1 ||
         var m := rows[|rows| - 1];
         IsMarkerRow(m) && IsFolder(EntryPath(m.key.key))
         && forall r :: r in rows ==> UnderFolder(r, EntryPath(m.key.key)))
  }

  /** The rows after an insert: the old ones, and from `next` on the new ones, of a group
      of their own. */
  ghost predicate Inserts(bin: map<nat, BinRow>, next: nat, rows: seq<BinRow>, n: map<nat, BinRow>)
    requires rows != []
  {
    && (forall i :: i in bin ==> i < next && i in n && n[i] == bin[i] && !Together(bin[i], rows[0]))
    && (forall i :: i in n && i !in bin ==> next <= i < next + |rows| && n[i] == rows[i - next] && n[i] in rows && Together(rows[0], n[i]))
    && (forall i :: next <= i < next + |rows| ==> i in n && i !in bin)
  }

  lemma InsertedRooted(bin: map<nat, BinRow>, next: nat, rows: seq<BinRow>, n: map<nat, BinRow>, i: nat)
    requires OneGroup(rows) && Inserts(bin, next, rows, n) && i in n
    requires i in bin ==> Rooted(bin, i)
    ensures Rooted(n, i)
  {
    if i in bin {
      RootedSurvives(bin, n, i);
    } else if |rows| == 1 {
      assert Alone(n, i);
    } else {
      var last := next + |rows| - 1;
      assert last in n && n[last] == rows[|rows| - 1];
      forall j | j in n && Together(n[last], n[j]) ensures UnderFolder(n[j], EntryPath(n[last].key.key)) {
        assert j !in bin;
      }
      assert Roots(n, last);
    }
  }

  lemma InsertedUniform(bin: map<nat, BinRow>, next: nat, rows: seq<BinRow>, n: map<nat, BinRow>)
    requires BinOk(bin, next) && OneGroup(rows) && Inserts(bin, next, rows, n)
    ensures forall i, j {:trigger Uniform(n[i], n[j])} :: i in n && j in n ==> Uniform(n[i], n[j])
    ensures forall i, k, j {:trigger NotBetween(n, i, k, j)} :: i in n && k in n && j in n ==> NotBetween(n, i, k, j)
  {
    forall i, j | i in n && j in n ensures Uniform(n[i], n[j]) {
      if i in bin && j in bin { assert Uniform(bin[i], bin[j]); }
    }
    forall i, k, j | i in n && k in n && j in n ensures NotBetween(n, i, k, j) {
      if i in bin && k in bin && j in bin { assert NotBetween(bin, i, k, j); }
    }
  }

  lemma InsertKeepsGroups(bin: map<nat, BinRow>, next: nat, rows: seq<BinRow>)
    requires BinOk(bin, next) && OneGroup(rows)
    requires forall i :: i in bin ==> !Together(bin[i], rows[0])
    ensures BinOk(BinInsert(bin, next, rows), next + |rows|)
  {
    var n := BinInsert(bin, next, rows);
    assert Inserts(bin, next, rows, n) by { BinInsertAt(bin, next, rows); }
    InsertedUniform(bin, next, rows, n);
    forall i | i in n ensures Rooted(n, i) {
      assert i in bin ==> Rooted(bin, i);
      InsertedRooted(bin, next, rows, n, i);
    }
  }

  /** The root of a row's group still roots it when the group gains no row and keeps its
      marker. */
  lemma RootedSurvives(bin: map<nat, BinRow>, n: map<nat, BinRow>, i: nat)
    requires i in bin && i in n && Rooted(bin, i)
    requires forall j :: j in n && Together(bin[i], n[j]) ==> j in bin && n[j] == bin[j]
    requires forall m :: m in bin && IsMarkerRow(bin[m]) && Together(bin[m], bin[i]) ==> m in n && n[m] == bin[m]
    requires n[i] == bin[i]
    ensures Rooted(n, i)
  {
    if Alone(bin, i) {
      assert Alone(n, i);
    } else {
      var m :| m in bin && Together(bin[m], bin[i]) && Roots(bin, m);
      assert Roots(n, m);
    }
  }

  // ----------------------------------------------------------------- removing

  /** What an action on the bin removes: a file alone, or with a marker its whole group. */
  predicate WholeMarkers(bin: map<nat, BinRow>, ids: seq<nat>) {
    forall m, j :: m in ids && m in bin && IsMarkerRow(bin[m]) && j in bin && Together(bin[m], bin[j]) ==> j in ids
  }

  lemma DropKeepsGroups(bin: map<nat, BinRow>, next: nat, ids: seq<nat>)
    requires BinOk(bin, next) && WholeMarkers(bin, ids)
    ensures BinOk(Drop(bin, ids), next)
  {
    var n := Drop(bin, ids);
    forall i, j | i in n && j in n ensures Uniform(n[i], n[j]) { assert Uniform(bin[i], bin[j]); }
    forall i, k, j | i in n && k in n && j in n ensures NotBetween(n, i, k, j) { assert NotBetween(bin, i, k, j); }
    forall i | i in n ensures Rooted(n, i) {
      assert Rooted(bin, i);
      RootedSurvives(bin, n, i);
    }
  }

  /** Any nonempty remainder of a group of several rows still holds the marker of the folder
      that was deleted. */
  lemma RemainderHoldsMarker(bin: map<nat, BinRow>, next: nat, i: nat, j: nat)
    requires BinOk(bin, next) && i in bin && j in bin && i != j && Together(bin[i], bin[j])
    ensures exists m :: m in bin && Together(bin[m], bin[i]) && Roots(bin, m)
  {
    assert Rooted(bin, i);
  }

  // ---------------------------------------------------------- the delete calls

  /** The query behind a delete returned exactly the live keys it was asked for. */
  predicate ListsFolder(objects: map<Key, File>, keys: seq<Key>, bucket: string, folder: string) {
    && Distinct(keys)
    && (forall k :: k in keys ==> k in objects && k.bucket == bucket && folder <= k.key)
    && (forall k :: k in objects && k.bucket == bucket && folder <= k.key ==> k in keys)
  }

  function SyntheticMarker(bucket: string, folder: string, group: Id, at: Time): BinRow {
    BinRow(group, Key(bucket, folder + MARKER),
           File(Empty, 0, Attrs(MARKER, "application/x-directory", "", None, "private", at)), at)
  }

  function Without(keys: seq<Key>, k: Key): seq<Key> {
    if keys == [] then [] else (if keys[0] == k then [] else [keys[0]]) + Without(keys[1..], k)
  }

  lemma {:induction false} WithoutIs(keys: seq<Key>, k: Key)
    ensures forall j :: j in Without(keys, k) <==> j in keys && j != k
    ensures Distinct(keys) ==> Distinct(Without(keys, k))
  {
    if keys != [] {
      WithoutIs(keys[1..], k);
      if Distinct(keys) {
        forall j | j in Without(keys[1..], k) ensures j != keys[0] {
          var x :| 0 <= x < |keys[1..]| && keys[1..][x] == j;
          assert keys[x + 1] == j;
        }
        forall a, b | 0 <= a < b < |keys[1..]| ensures keys[1..][a] != keys[1..][b] {
          assert keys[a + 1] != keys[b + 1];
        }
        var w := Without(keys[1..], k);
        assert keys[0] !in w && Distinct(w);
        forall a, b | 0 <= a < b < |[keys[0]] + w| ensures ([keys[0]] + w)[a] != ([keys[0]] + w)[b] {
          assert ([keys[0]] + w)[b] in w;
        }
      }
    }
  }

  /** The marker is moved last when the folder has one. */
  function MarkerLast(keys: seq<Key>, marker: Key): seq<Key> {
    Without(keys, marker) + (if marker in keys then [marker] else [])
  }

  /** A folder without a marker gets a synthetic one, last in its group. */
  function ExtraMarker(keys: seq<Key>, bucket: string, folder: string, group: Id, at: Time): seq<BinRow> {
    if Key(bucket, folder + MARKER) in keys then [] else [SyntheticMarker(bucket, folder, group, at)]
  }

  /** A recursive folder delete, on the keys its query listed. */
  function DeleteFolder(db: Db, bucket: string, folder: string, keys: seq<Key>, group: Id, at: Time): DbResult
    requires forall k :: k in keys ==> k in db.objects
  {
    if keys == [] then Failed(NotFound)
    else
      var marker := Key(bucket, folder + MARKER);
      assert forall k :: k in MarkerLast(keys, marker) ==> k in db.objects by { MarkerLastIs(keys, marker); }
      Done(Recycle(db, MarkerLast(keys, marker), group, at, ExtraMarker(keys, bucket, folder, group, at)))
  }

  lemma MarkerLastIs(keys: seq<Key>, marker: Key)
    ensures forall k :: k in MarkerLast(keys, marker) <==> k in keys
    ensures Distinct(keys) ==> Distinct(MarkerLast(keys, marker))
  {
    WithoutIs(keys, marker);
  }

  function DeleteObject(db: Db, key: Key, group: Id, at: Time): DbResult {
    if key !in db.objects then Failed(NotFound) else Done(Recycle(db, [key], group, at, []))
  }

  lemma {:induction false} BinRowsAre(objects: map<Key, File>, keys: seq<Key>, group: Id, at: Time)
    requires forall k :: k in keys ==> k in objects
    ensures |BinRows(objects, keys, group, at)| == |keys|
    ensures forall i :: 0 <= i < |keys| ==>
      BinRows(objects, keys, group, at)[i] == BinRow(group, keys[i], objects[keys[i]], at)
  {
    if keys != [] { BinRowsAre(objects, keys[1..], group, at); }
  }

  /** A row of a recursive delete of the folder. */
  predicate OfDelete(r: BinRow, bucket: string, folder: string, group: Id, at: Time) {
    r.group == group && r.deletedAt == at && r.key.bucket == bucket && UnderFolder(r, folder)
  }

  lemma FolderRows(objects: map<Key, File>, bucket: string, folder: string, keys: seq<Key>, group: Id, at: Time, moved: seq<Key>)
    requires ListsFolder(objects, keys, bucket, folder) && forall k :: k in moved <==> k in keys
    ensures forall r :: r in BinRows(objects, moved, group, at) ==> OfDelete(r, bucket, folder, group, at)
  {
    BinRowsAre(objects, moved, group, at);
    var rows := BinRows(objects, moved, group, at);
    forall r | r in rows ensures OfDelete(r, bucket, folder, group, at) {
      var i :| 0 <= i < |rows| && rows[i] == r;
      assert moved[i] in keys;
    }
  }

  lemma OneGroupFromMarker(rows: seq<BinRow>, bucket: string, folder: string, group: Id, at: Time)
    requires IsFolder(folder) && rows != [] && rows[|rows| - 1].key == Key(bucket, folder + MARKER)
    requires forall r :: r in rows ==> OfDelete(r, bucket, folder, group, at)
    ensures OneGroup(rows)
  {
    MarkerOfFolder(folder);
    assert OfDelete(rows[0], bucket, folder, group, at);
  }

  lemma FolderRowsOneGroup(objects: map<Key, File>, bucket: string, folder: string, keys: seq<Key>, group: Id, at: Time)
    requires IsFolder(folder) && ListsFolder(objects, keys, bucket, folder) && keys != []
    requires forall k :: k in MarkerLast(keys, Key(bucket, folder + MARKER)) ==> k in objects
    ensures OneGroup(BinRows(objects, MarkerLast(keys, Key(bucket, folder + MARKER)), group, at)
                     + ExtraMarker(keys, bucket, folder, group, at))
  {
    var marker := Key(bucket, folder + MARKER);
    var moved := MarkerLast(keys, marker);
    MarkerLastIs(keys, marker);
    var front, extra := BinRows(objects, moved, group, at), ExtraMarker(keys, bucket, folder, group, at);
    FolderRows(objects, bucket, folder, keys, group, at, moved);
    forall r | r in front + extra ensures OfDelete(r, bucket, folder, group, at) { assert r in front || r in extra; }
    assert (front + extra)[|front + extra| - 1].key == marker by { BinRowsAre(objects, moved, group, at); }
    OneGroupFromMarker(front + extra, bucket, folder, group, at);
  }

  /** Every delete into the bin keeps the references, the ledger and the group invariant. */
  lemma DeleteFolderKeeps(db: Db, bucket: string, folder: string, keys: seq<Key>, group: Id, at: Time)
    requires Audited(db) && BinOk(db.bin, db.nextBinId) && IsFolder(folder)
    requires ListsFolder(db.objects, keys, bucket, folder)
    requires forall i :: i in db.bin ==> db.bin[i].group != group
    ensures DeleteFolder(db, bucket, folder, keys, group, at).Done? <==> keys != []
    ensures keys != [] ==>
      var n := DeleteFolder(db, bucket, folder, keys, group, at).db;
      Audited(n) && n.ledger == db.ledger && Refs(n) == Refs(db)
      && n.buckets == db.buckets && BinOk(n.bin, n.nextBinId)
      && (forall k :: k in n.objects <==> k in db.objects && k !in keys)
  {
    if keys != [] {
      var marker := Key(bucket, folder + MARKER);
      MarkerLastIs(keys, marker);
      var extra := ExtraMarker(keys, bucket, folder, group, at);
      RecycleConserves(db, MarkerLast(keys, marker), group, at, extra);
      var rows := BinRows(db.objects, MarkerLast(keys, marker), group, at) + extra;
      FolderRowsOneGroup(db.objects, bucket, folder, keys, group, at);
      assert rows[0].group == group by { BinRowsAre(db.objects, MarkerLast(keys, marker), group, at); }
      InsertKeepsGroups(db.bin, db.nextBinId, rows);
    }
  }

  lemma DeleteObjectKeeps(db: Db, key: Key, group: Id, at: Time)
    requires Audited(db) && BinOk(db.bin, db.nextBinId)
    requires forall i :: i in db.bin ==> db.bin[i].group != group
    ensures DeleteObject(db, key, group, at).Done? <==> key in db.objects
    ensures key in db.objects ==>
      var n := DeleteObject(db, key, group, at).db;
      Audited(n) && n.ledger == db.ledger && Refs(n) == Refs(db)
      && n.buckets == db.buckets && BinOk(n.bin, n.nextBinId) && n.objects == db.objects - {key}
  {
    if key in db.objects {
      RecycleConserves(db, [key], group, at, []);
      BinRowsAre(db.objects, [key], group, at);
      var rows := BinRows(db.objects, [key], group, at) + [];
      assert OneGroup(rows);
      InsertKeepsGroups(db.bin, db.nextBinId, rows);
    }
  }
}
