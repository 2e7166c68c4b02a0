/**
  Clients that are left alone get through: an upload is published, a due cleanup job takes its
  blob and its files away, a failed upload gives its bytes back, and a stray file is found,
  charged and removed. Each holds from every reachable state.
 */
module ProtocolProgress {
  import opened Common
  import opened LedgerTransactions
  import opened LedgerInvariant
  import opened BooksKept
  import opened LedgerBatches
  import opened FolderPaths
  import opened Metadata
  import opened Protocol
  import opened ProtocolInvariant
  import opened ProtocolUploads
  import opened ProtocolPublish
  import opened ProtocolRuns
  import opened ProtocolGuarantees
  import opened ProtocolCommits
  import opened ProtocolFiles

  predicate Steps(s: State, a: Action, n: State) { Next(s, a) == n }

  /** The first action of a run. */
  lemma RunFirst(s: State, actions: seq<Action>, n: State)
    requires actions != [] && Steps(s, actions[0], n)
    ensures Run(s, actions) == Run(n, actions[1..])
  {
  }

  lemma {:induction false} RunSplits(s: State, a: seq<Action>, b: seq<Action>)
    ensures Run(s, a + b) == Run(Run(s, a), b)
    decreases |a|
  {
    if a == [] {
      assert a + b == b;
    } else {
      assert (a + b)[1..] == a[1..] + b;
      RunSplits(Next(s, a[0]), a[1..], b);
    }
  }

  // ------------------------------------------------------------------- uploads

  /** Request q, alone since state s, has staged one blob; its row has reserved `size` bytes. */
  function Midway(s: State, q: Id, d: Draft, size: nat, now: Time, until: Time, p: Phase, files: map<Path, nat>, st: Stager): State {
    s.(db := s.db.(ledger := s.db.ledger.(
         quota := s.db.ledger.quota.(reserved := s.db.ledger.quota.reserved + size),
         blobs := s.db.ledger.blobs[d.id := Blob(d.storagePath, Some(d.stagingPath), size, 0, Staging, Some(until), now)])),
       files := files,
       requests := s.requests[q := Request(p, false, [d.id], false)],
       stagers := s.stagers[d.id := st],
       issued := s.issued + {q, d.id, d.storagePath, d.stagingPath})
  }

  predicate FreshUpload(s: State, q: Id, d: Draft) { FreshName(s, q) && DraftFresh(Open(s, q), d) }

  lemma RowsOfOne(s: State, d: Draft, now: Time, until: Time)
    requires Inv(s) && DraftFresh(s, d) && !Lacks(s.db.ledger.quota, FirstReservation(d))
    ensures CreateAll(s.db.ledger, NewRows([d]), now, until) == CreateOne(s.db.ledger, NewRow(d), now, until)
    ensures CreateOne(s.db.ledger, NewRow(d), now, until).Ok?
  {
    assert d.id !in s.db.ledger.blobs by { assert d.id in s.db.ledger.blobs ==> BlobOk(s, d.id); }
    assert !PathTaken(s.db.ledger, d.storagePath) by {
      forall b | b in s.db.ledger.blobs ensures s.db.ledger.blobs[b].storagePath != d.storagePath { assert BlobOk(s, b); }
    }
    assert [d][1..] == [] && NewRows([d]) == [NewRow(d)];
    assert [NewRow(d)][1..] == [];
  }

  lemma StageRowsStep(s: State, q: Id, ds: seq<Draft>, now: Time, until: Time, n: State)
    requires StageRows(s, q, ds, now, until) == n
    ensures Steps(s, Uploading(StageRowsA(q, ds, now, until)), n)
  {
  }

  lemma ReturnStep(s: State, q: Id, n: State)
    requires Return(s, q) == n
    ensures Steps(s, Uploading(ReturnA(q)), n)
  {
  }

  lemma OpenedRow(s: State, q: Id, d: Draft, now: Time, until: Time)
    requires Inv(s) && FreshUpload(s, q, d) && !Lacks(s.db.ledger.quota, FirstReservation(d))
    ensures var o := Open(s, q);
      && CreateAll(o.db.ledger, NewRows([d]), now, until) == CreateOne(o.db.ledger, NewRow(d), now, until)
      && CreateOne(o.db.ledger, NewRow(d), now, until).Ok?
  {
    OpenOk(s, q);
    RowsOfOne(Open(s, q), d, now, until);
  }

  lemma OpenedMidway(s: State, q: Id, d: Draft, now: Time, until: Time)
    requires FreshName(s, q) && CreateOne(Open(s, q).db.ledger, NewRow(d), now, until).Ok?
    ensures var o := Open(s, q);
      WithLedger(o, CreateOne(o.db.ledger, NewRow(d), now, until).ledger).(
        stagers := o.stagers[d.id := NewStager(q, d)],
        requests := o.requests[q := o.requests[q].(entries := [d.id])],
        issued := o.issued + {d.id, d.storagePath, d.stagingPath})
      == Midway(s, q, d, FirstReservation(d), now, until, Collecting, s.files, NewStager(q, d))
  {
    assert {q} + {d.id, d.storagePath, d.stagingPath} == {q, d.id, d.storagePath, d.stagingPath};
  }

  lemma OpensAlone(s: State, q: Id, d: Draft, now: Time, until: Time)
    requires Inv(s) && FreshUpload(s, q, d) && !Lacks(s.db.ledger.quota, FirstReservation(d))
    ensures StageRows(Open(s, q), q, [d], now, until) == Midway(s, q, d, FirstReservation(d), now, until, Collecting, s.files, NewStager(q, d))
  {
    assert FreshDrafts(Open(s, q), [d]);
    OpenedRow(s, q, d, now, until);
    StagesOne(Open(s, q), q, d, now, until);
    OpenedMidway(s, q, d, now, until);
  }

  lemma StagesOne(o: State, q: Id, d: Draft, now: Time, until: Time)
    requires InPhase(o, q, Collecting) && o.requests[q].entries == [] && FreshDrafts(o, [d])
    requires CreateAll(o.db.ledger, NewRows([d]), now, until) == CreateOne(o.db.ledger, NewRow(d), now, until)
    requires CreateOne(o.db.ledger, NewRow(d), now, until).Ok?
    ensures StageRows(o, q, [d], now, until) ==
      WithLedger(o, CreateOne(o.db.ledger, NewRow(d), now, until).ledger).(
        stagers := o.stagers[d.id := NewStager(q, d)],
        requests := o.requests[q := o.requests[q].(entries := [d.id])],
        issued := o.issued + {d.id, d.storagePath, d.stagingPath})
  {
    OneStager(o.stagers, q, d);
    assert NamesOf([d]) == {d.id, d.storagePath, d.stagingPath};
    assert [] + [d.id] == [d.id];
  }

  lemma OneStager(stagers: map<Id, Stager>, q: Id, d: Draft)
    ensures AddStagers(stagers, q, [d]) == stagers[d.id := NewStager(q, d)]
    ensures DraftIds([d]) == [d.id]
  {
    assert [d][1..] == [];
  }

  /** Every reservation counts, whether its client hears of it or not. */
  lemma ReservesAlone(s: State, q: Id, d: Draft, size: nat, now: Time, until: Time, more: nat, heard: bool)
    requires 0 < more && s.db.ledger.quota.(reserved := s.db.ledger.quota.reserved + size).Admits(more)
    ensures var m := Midway(s, q, d, size, now, until, Collecting, s.files, NewStager(q, d));
      ReserveMore(m, d.id, more, heard)
      == Midway(s, q, d, size + more, now, until, Collecting, s.files, NewStager(q, d).(reserved := if heard then more else 0))
  {
  }

  predicate Begun(d: Draft, q: Id, r: nat, n: nat, st: Stager) {
    st == NewStager(q, d).(reserved := r) && n <= st.Limit() && (d.declared.Some? ==> d.declared.value == n) && (d.declared.None? ==> r > 0)
  }

  lemma WritesAlone(s: State, q: Id, d: Draft, size: nat, now: Time, until: Time, r: nat, n: nat, st: Stager)
    requires Begun(d, q, r, n, st) && d.stagingPath !in s.files
    ensures Write(Midway(s, q, d, size, now, until, Collecting, s.files, st), d.id, n)
         == Midway(s, q, d, size, now, until, Collecting, s.files[d.stagingPath := n], st.(written := Some(n)))
  {
  }

  lemma EndsAlone(s: State, q: Id, d: Draft, size: nat, now: Time, until: Time, r: nat, n: nat, st: Stager, files: map<Path, nat>)
    requires Begun(d, q, r, n, st)
    ensures Steps(Midway(s, q, d, size, now, until, Collecting, files, st.(written := Some(n))), Uploading(EndWriteA(d.id)),
                  Midway(s, q, d, size, now, until, Collecting, files, st.(written := Some(n), stage := Written)))
  {
  }

  lemma WriteStep(s: State, b: Id, total: nat, n: State)
    requires Write(s, b, total) == n
    ensures Steps(s, Uploading(WriteA(b, total)), n)
  {
  }

  lemma PlaceStep(s: State, b: Id, n: State)
    requires Place(s, b) == n
    ensures Steps(s, Uploading(PlaceA(b)), n)
  {
  }

  lemma PlacesAlone(s: State, q: Id, d: Draft, size: nat, now: Time, until: Time, r: nat, n: nat, st: Stager)
    requires Begun(d, q, r, n, st) && d.stagingPath !in s.files && d.storagePath !in s.files && d.stagingPath != d.storagePath
    ensures Place(Midway(s, q, d, size, now, until, Collecting, s.files[d.stagingPath := n], st.(written := Some(n), stage := Written)), d.id)
         == Midway(s, q, d, size, now, until, Collecting, s.files[d.storagePath := n], st.(written := Some(n), stage := Placed))
  {
    assert (s.files[d.stagingPath := n] - {d.stagingPath})[d.storagePath := n] == s.files[d.storagePath := n];
  }

  lemma ReturnsAlone(s: State, q: Id, d: Draft, size: nat, now: Time, until: Time, n: nat, st: Stager)
    requires st.stage == Placed
    ensures Return(Midway(s, q, d, size, now, until, Collecting, s.files[d.storagePath := n], st), q)
         == Midway(s, q, d, size, now, until, Ready, s.files[d.storagePath := n], st)
  {
  }

  /** From the first write to the end of staging. */
  function StagingRun(q: Id, b: Id, n: nat): seq<Action> {
    [Uploading(WriteA(b, n)), Uploading(EndWriteA(b)), Uploading(PlaceA(b)), Uploading(ReturnA(q))]
  }

  lemma FinishesStaging(s: State, q: Id, d: Draft, size: nat, now: Time, until: Time, r: nat, n: nat, st: Stager)
    requires Inv(s) && FreshUpload(s, q, d) && Begun(d, q, r, n, st)
    ensures Run(Midway(s, q, d, size, now, until, Collecting, s.files, st), StagingRun(q, d.id, n))
         == Midway(s, q, d, size, now, until, Ready, s.files[d.storagePath := n], st.(written := Some(n), stage := Placed))
  {
    var end, place, back := Uploading(EndWriteA(d.id)), Uploading(PlaceA(d.id)), Uploading(ReturnA(q));
    var begun, ended, placed := st.(written := Some(n)), st.(written := Some(n), stage := Written), st.(written := Some(n), stage := Placed);
    var m0 := Midway(s, q, d, size, now, until, Collecting, s.files, st);
    var m1 := Midway(s, q, d, size, now, until, Collecting, s.files[d.stagingPath := n], begun);
    var m2 := Midway(s, q, d, size, now, until, Collecting, s.files[d.stagingPath := n], ended);
    var m3 := Midway(s, q, d, size, now, until, Collecting, s.files[d.storagePath := n], placed);
    var m4 := Midway(s, q, d, size, now, until, Ready, s.files[d.storagePath := n], placed);
    assert Steps(m0, Uploading(WriteA(d.id, n)), m1) by { WritesAlone(s, q, d, size, now, until, r, n, st); WriteStep(m0, d.id, n, m1); }
    assert Steps(m1, end, m2) by { EndsAlone(s, q, d, size, now, until, r, n, st, s.files[d.stagingPath := n]); }
    assert Steps(m2, place, m3) by { PlacesAlone(s, q, d, size, now, until, r, n, st); PlaceStep(m2, d.id, m3); }
    assert Steps(m3, back, m4) by { ReturnsAlone(s, q, d, size, now, until, n, placed); ReturnStep(m3, q, m4); }
    FourSteps(m0, Uploading(WriteA(d.id, n)), m1, end, m2, place, m3, back, m4);
  }

  lemma FourSteps(s: State, a: Action, s1: State, b: Action, s2: State, c: Action, s3: State, d: Action, s4: State)
    requires Steps(s, a, s1) && Steps(s1, b, s2) && Steps(s2, c, s3) && Steps(s3, d, s4)
    ensures Run(s, [a, b, c, d]) == s4
  {
    RunFirst(s, [a, b, c, d], s1);
    assert [a, b, c, d][1..] == [b, c, d];
    RunFirst(s1, [b, c, d], s2);
    assert [b, c, d][1..] == [c, d];
    RunFirst(s2, [c, d], s3);
    assert [c, d][1..] == [d];
    RunFirst(s3, [d], s4);
    assert [d][1..] == [];
  }

  lemma ReserveStep(s: State, b: Id, bytes: nat, heard: bool, n: State)
    requires ReserveMore(s, b, bytes, heard) == n
    ensures Steps(s, Uploading(ReserveA(b, bytes, heard)), n)
  {
  }

  /** The size is given up front. */
  function KnownOpening(q: Id, d: Draft, now: Time, until: Time): seq<Action> {
    [Uploading(OpenA(q)), Uploading(StageRowsA(q, [d], now, until))]
  }

  /** The size is not known: the stream reserves before it writes. */
  function StreamedOpening(q: Id, d: Draft, now: Time, until: Time, bytes: nat): seq<Action> {
    KnownOpening(q, d, now, until) + [Uploading(ReserveA(d.id, bytes, true))]
  }

  lemma OpenStep(s: State, q: Id)
    ensures Steps(s, Uploading(OpenA(q)), Open(s, q))
  {
  }

  lemma OpensKnown(s: State, q: Id, d: Draft, now: Time, until: Time)
    requires Inv(s) && FreshUpload(s, q, d) && !Lacks(s.db.ledger.quota, FirstReservation(d))
    ensures Run(s, KnownOpening(q, d, now, until))
         == Midway(s, q, d, FirstReservation(d), now, until, Collecting, s.files, NewStager(q, d))
  {
    var m := Midway(s, q, d, FirstReservation(d), now, until, Collecting, s.files, NewStager(q, d));
    OpensAlone(s, q, d, now, until);
    StageRowsStep(Open(s, q), q, [d], now, until, m);
    OpenStep(s, q);
    RunFirst(s, KnownOpening(q, d, now, until), Open(s, q));
    assert KnownOpening(q, d, now, until)[1..] == [Uploading(StageRowsA(q, [d], now, until))];
    RunFirst(Open(s, q), [Uploading(StageRowsA(q, [d], now, until))], m);
    assert [Uploading(StageRowsA(q, [d], now, until))][1..] == [];
  }

  lemma ReservesFirst(s: State, q: Id, d: Draft, now: Time, until: Time, bytes: nat)
    requires bytes > 0 && s.db.ledger.quota.Admits(bytes)
    ensures Steps(Midway(s, q, d, 0, now, until, Collecting, s.files, NewStager(q, d)), Uploading(ReserveA(d.id, bytes, true)),
                  Midway(s, q, d, bytes, now, until, Collecting, s.files, NewStager(q, d).(reserved := bytes)))
  {
    ReservesAlone(s, q, d, 0, now, until, bytes, true);
    ReserveStep(Midway(s, q, d, 0, now, until, Collecting, s.files, NewStager(q, d)), d.id, bytes, true,
                Midway(s, q, d, bytes, now, until, Collecting, s.files, NewStager(q, d).(reserved := bytes)));
  }

  lemma OpensStreamed(s: State, q: Id, d: Draft, now: Time, until: Time, bytes: nat)
    requires Inv(s) && FreshUpload(s, q, d) && d.declared.None? && bytes > 0 && s.db.ledger.quota.Admits(bytes)
    ensures Run(s, StreamedOpening(q, d, now, until, bytes))
         == Midway(s, q, d, bytes, now, until, Collecting, s.files, NewStager(q, d).(reserved := bytes))
  {
    var m := Midway(s, q, d, 0, now, until, Collecting, s.files, NewStager(q, d));
    var n := Midway(s, q, d, bytes, now, until, Collecting, s.files, NewStager(q, d).(reserved := bytes));
    assert Run(s, KnownOpening(q, d, now, until)) == m by { OpensKnown(s, q, d, now, until); }
    assert Steps(m, Uploading(ReserveA(d.id, bytes, true)), n) by { ReservesFirst(s, q, d, now, until, bytes); }
    RunThen(s, KnownOpening(q, d, now, until), Uploading(ReserveA(d.id, bytes, true)));
  }

  /** The upload has been acknowledged: its object names its file, the row is active, its bytes
      are used and none is reserved any more. */
  predicate Arrived(s: State, n: State, q: Id, d: Draft, size: nat, key: Key, attrs: Attrs) {
    && InPhase(n, q, Finished(Acknowledged)) && n.files == s.files[d.storagePath := size]
    && n.db.objects == s.db.objects[key := File(d.storagePath, size, attrs)] && n.db.bin == s.db.bin
    && d.id in n.db.ledger.blobs && n.db.ledger.blobs[d.id].status == Active
    && n.db.ledger.blobs[d.id].size == size && n.db.ledger.blobs[d.id].refCount == 1
    && n.db.ledger.quota.used == s.db.ledger.quota.used + size && n.db.ledger.quota.reserved == s.db.ledger.quota.reserved
  }

  predicate MayWrite(db: Db, key: Key, overwrite: bool) {
    ProperKey(key.key) && key.bucket in db.buckets && (overwrite || key !in db.objects)
  }

  lemma TotalsOfOne(s: State, b: Id, blobs: map<Id, Blob>)
    requires b in s.stagers && b in blobs
    ensures TotalSize(s, [b]) == s.stagers[b].Size() && TotalRows(blobs, [b]) == blobs[b].size
  {
    assert [b][1..] == [];
  }

  lemma MidwayCommits(s: State, q: Id, d: Draft, size: nat, now: Time, until: Time, n: nat, st: Stager, key: Key, attrs: Attrs, overwrite: bool)
    requires st.stage == Placed && st.written == Some(n) && MayWrite(s.db, key, overwrite) && s.db.ledger.quota.used + n <= MAX_U64
    ensures var m := Midway(s, q, d, size, now, until, Ready, s.files[d.storagePath := n], st);
      CanPublish(m, q, [key], [attrs]) && WillCommit(m, q, [key], overwrite)
  {
    var m := Midway(s, q, d, size, now, until, Ready, s.files[d.storagePath := n], st);
    assert m.requests[q].entries == [d.id] && d.id in m.stagers;
    TotalsOfOne(m, d.id, m.db.ledger.blobs);
  }

  lemma PublishesAlone(s: State, q: Id, d: Draft, size: nat, now: Time, until: Time, n: nat, st: Stager, key: Key, attrs: Attrs, overwrite: bool, at: Time)
    requires st.storagePath == d.storagePath && st.stage == Placed && st.written == Some(n)
    requires Reachable(Midway(s, q, d, size, now, until, Ready, s.files[d.storagePath := n], st))
    requires MayWrite(s.db, key, overwrite) && s.db.ledger.quota.used + n <= MAX_U64
    ensures var m := Midway(s, q, d, size, now, until, Ready, s.files[d.storagePath := n], st);
      Arrived(s, PublishUpload(m, q, [key], [attrs], overwrite, at, true), q, d, n, key, attrs)
  {
    var m := Midway(s, q, d, size, now, until, Ready, s.files[d.storagePath := n], st);
    assert m.requests[q].entries == [d.id] && d.id in m.stagers;
    TotalsOfOne(m, d.id, m.db.ledger.blobs);
    MidwayCommits(s, q, d, size, now, until, n, st, key, attrs, overwrite);
    PublishCommitsIff(m, q, [key], [attrs], overwrite, at, true);
    var f := PublishUpload(m, q, [key], [attrs], overwrite, at, true);
    assert d.id in m.requests[q].entries && Uploaded(m, f, d.id);
    OneKeyWritten(m, f.db, d.id, key, attrs);
  }

  lemma OneKeyWritten(s: State, n: Db, b: Id, key: Key, attrs: Attrs)
    requires WritesKeys(s, n, [b], [key], [attrs])
    ensures b in s.stagers && n.objects == s.db.objects[key := File(s.stagers[b].storagePath, s.stagers[b].Size(), attrs)]
    ensures n.bin == s.db.bin
  {
    assert [b][0] == b && [key][0] == key && [attrs][0] == attrs;
    assert forall k :: k in [key] <==> k == key;
  }

  lemma StagesAlone(s: State, q: Id, d: Draft, size: nat, now: Time, until: Time, r: nat, n: nat, st: Stager, opening: seq<Action>)
    requires Reachable(s) && FreshUpload(s, q, d) && Begun(d, q, r, n, st)
    requires Run(s, opening) == Midway(s, q, d, size, now, until, Collecting, s.files, st)
    ensures var m := Midway(s, q, d, size, now, until, Ready, s.files[d.storagePath := n], st.(written := Some(n), stage := Placed));
      Run(s, opening + StagingRun(q, d.id, n)) == m && Reachable(m)
  {
    ReachableOk(s);
    RunSplits(s, opening, StagingRun(q, d.id, n));
    FinishesStaging(s, q, d, size, now, until, r, n, st);
    ReachableRun(s, opening + StagingRun(q, d.id, n));
  }

  lemma AfterOpening(s: State, q: Id, d: Draft, size: nat, now: Time, until: Time, r: nat, n: nat, st: Stager, opening: seq<Action>, key: Key, attrs: Attrs, overwrite: bool, at: Time)
    requires Reachable(s) && FreshUpload(s, q, d) && Begun(d, q, r, n, st)
    requires Run(s, opening) == Midway(s, q, d, size, now, until, Collecting, s.files, st)
    requires MayWrite(s.db, key, overwrite) && s.db.ledger.quota.used + n <= MAX_U64
    ensures var actions := opening + StagingRun(q, d.id, n) + [Publishing(PublishA(q, [key], [attrs], overwrite, at, true))];
      Arrived(s, Run(s, actions), q, d, n, key, attrs)
  {
    var staged := opening + StagingRun(q, d.id, n);
    StagesAlone(s, q, d, size, now, until, r, n, st, opening);
    PublishesAlone(s, q, d, size, now, until, n, st.(written := Some(n), stage := Placed), key, attrs, overwrite, at);
    RunThen(s, staged, Publishing(PublishA(q, [key], [attrs], overwrite, at, true)));
  }

  /** An upload of known size that is left alone goes through whenever its bytes (at least
      one) fit under the maximum and its key may be written. */
  lemma KnownUploadGoesThrough(s: State, q: Id, d: Draft, now: Time, until: Time, n: nat, key: Key, attrs: Attrs, overwrite: bool, at: Time)
    requires Reachable(s) && FreshUpload(s, q, d) && d.declared == Some(n)
    requires s.db.ledger.quota.used + s.db.ledger.quota.reserved + (if n == 0 then 1 else n) <= s.db.ledger.quota.max
    requires MayWrite(s.db, key, overwrite)
    ensures var actions := KnownOpening(q, d, now, until) + StagingRun(q, d.id, n)
        + [Publishing(PublishA(q, [key], [attrs], overwrite, at, true))];
      Arrived(s, Run(s, actions), q, d, n, key, attrs)
  {
    ReachableOk(s);
    OpensKnown(s, q, d, now, until);
    AfterOpening(s, q, d, FirstReservation(d), now, until, 0, n, NewStager(q, d), KnownOpening(q, d, now, until), key, attrs, overwrite, at);
  }

  /** A stream of unknown size goes through when what it has reserved fits, and keeps of that
      only what it has written. */
  lemma StreamedUploadGoesThrough(s: State, q: Id, d: Draft, now: Time, until: Time, bytes: nat, n: nat, key: Key, attrs: Attrs, overwrite: bool, at: Time)
    requires Reachable(s) && FreshUpload(s, q, d) && d.declared.None? && n <= bytes && bytes > 0
    requires s.db.ledger.quota.used + s.db.ledger.quota.reserved + bytes <= s.db.ledger.quota.max && MayWrite(s.db, key, overwrite)
    ensures var actions := StreamedOpening(q, d, now, until, bytes) + StagingRun(q, d.id, n)
        + [Publishing(PublishA(q, [key], [attrs], overwrite, at, true))];
      Arrived(s, Run(s, actions), q, d, n, key, attrs)
  {
    ReachableOk(s);
    OpensStreamed(s, q, d, now, until, bytes);
    AfterOpening(s, q, d, bytes, now, until, bytes, n, NewStager(q, d).(reserved := bytes), StreamedOpening(q, d, now, until, bytes), key, attrs, overwrite, at);
  }

  lemma BucketMade(s: State, q: Id, d: Draft, key: Key, overwrite: bool)
    requires FreshUpload(s, q, d) && ProperKey(key.key) && (overwrite || key !in s.db.objects)
    ensures FreshUpload(CreateBucket(s, key.bucket), q, d) && MayWrite(CreateBucket(s, key.bucket).db, key, overwrite)
  {
  }

  /** A new bucket takes uploads. */
  lemma NewBucketTakesUploads(s: State, q: Id, d: Draft, now: Time, until: Time, n: nat, key: Key, attrs: Attrs, overwrite: bool, at: Time)
    requires Reachable(s) && FreshUpload(s, q, d) && d.declared == Some(n) && ProperKey(key.key)
    requires s.db.ledger.quota.used + s.db.ledger.quota.reserved + (if n == 0 then 1 else n) <= s.db.ledger.quota.max
    requires overwrite || key !in s.db.objects
    ensures var m := CreateBucket(s, key.bucket);
      var actions := KnownOpening(q, d, now, until) + StagingRun(q, d.id, n)
        + [Publishing(PublishA(q, [key], [attrs], overwrite, at, true))];
      Arrived(m, Run(m, actions), q, d, n, key, attrs)
  {
    var m := CreateBucket(s, key.bucket);
    assert Reachable(m) by { ReachableNext(s, Serving(CreateBucketA(key.bucket))); }
    BucketMade(s, q, d, key, overwrite);
    KnownUploadGoesThrough(m, q, d, now, until, n, key, attrs, overwrite, at);
  }

  // ------------------------------------------------------------------- cleanup

  /** Worker t, alone since state s, has the job of blob b. */
  function Sweeping(s: State, b: Id, t: Id, until: Time, step: WorkerStep, seen: Option<Blob>, files: map<Path, nat>): State
    requires b in s.db.ledger.jobs
  {
    s.(db := s.db.(ledger := s.db.ledger.(jobs := s.db.ledger.jobs[b := s.db.ledger.jobs[b].(owner := Some(t), ownedUntil := Some(until))])),
       workers := s.workers[t := Worker(b, step, seen)], files := files, issued := s.issued + {t})
  }

  function WithoutBoth(files: map<Path, nat>, b: Blob): map<Path, nat> { WithoutStaging(files, b) - {b.storagePath} }

  lemma ClaimsAlone(s: State, b: Id, t: Id, now: Time, until: Time)
    requires FreshName(s, t) && b in s.db.ledger.jobs && Due(s.db.ledger.jobs[b], now)
    ensures ClaimJob(s, b, t, now, until) == Sweeping(s, b, t, until, Claimed, None, s.files)
  {
  }

  lemma ChecksAlone(s: State, b: Id, t: Id, until: Time)
    requires b in s.db.ledger.jobs
    ensures CheckClaim(Sweeping(s, b, t, until, Claimed, None, s.files), t) == Sweeping(s, b, t, until, Checked, None, s.files)
  {
  }

  lemma LoadsAlone(s: State, b: Id, t: Id, until: Time)
    requires b in s.db.ledger.jobs && b in s.db.ledger.blobs
    requires s.db.ledger.blobs[b].status != Active && s.db.ledger.blobs[b].refCount == 0
    ensures LoadBlob(Sweeping(s, b, t, until, Checked, None, s.files), t)
         == Sweeping(s, b, t, until, Loaded, Some(s.db.ledger.blobs[b]), s.files)
  {
  }

  lemma AdvancesAlone(s: State, b: Id, t: Id, until: Time, step: WorkerStep, seen: Option<Blob>, files: map<Path, nat>, next: WorkerStep, left: map<Path, nat>)
    requires b in s.db.ledger.jobs
    ensures Advance(Sweeping(s, b, t, until, step, seen, files).(files := left), t, next) == Sweeping(s, b, t, until, next, seen, left)
  {
  }

  lemma DeletesAlone(s: State, b: Id, t: Id, until: Time, blob: Blob)
    requires b in s.db.ledger.jobs && NamedOnce(blob)
    ensures DeleteStagingFile(Sweeping(s, b, t, until, Loaded, Some(blob), s.files), t)
         == Sweeping(s, b, t, until, StagingGone, Some(blob), WithoutStaging(s.files, blob))
  {
    DeletesStaging(Sweeping(s, b, t, until, Loaded, Some(blob), s.files), t, blob);
    AdvancesAlone(s, b, t, until, Loaded, Some(blob), s.files, StagingGone, WithoutStaging(s.files, blob));
  }

  lemma FinishesAlone(s: State, b: Id, t: Id, until: Time, blob: Blob)
    requires b in s.db.ledger.jobs
    ensures DeleteStorageFile(Sweeping(s, b, t, until, StagingGone, Some(blob), WithoutStaging(s.files, blob)), t)
         == Sweeping(s, b, t, until, AllGone, Some(blob), WithoutBoth(s.files, blob))
  {
  }

  /** The row, its job and its bytes have gone. */
  predicate RowGone(l: Ledger, n: Ledger, b: Id)
    requires b in l.blobs
  {
    var staged := l.blobs[b].HasStaging();
    && n.blobs == l.blobs - {b} && n.jobs == l.jobs - {b}
    && n.quota.used + (if staged then 0 else l.blobs[b].size) == l.quota.used
    && n.quota.reserved + (if staged then l.blobs[b].size else 0) == l.quota.reserved
    && n.quota.max == l.quota.max && n.quota.reconciledAt == l.quota.reconciledAt
  }

  /** The row and its files have gone, and nothing else has changed. */
  predicate CleanedUp(s: State, n: State, b: Id)
    requires b in s.db.ledger.blobs
  {
    && n.db == s.db.(ledger := n.db.ledger) && RowGone(s.db.ledger, n.db.ledger, b)
    && n.files == WithoutBoth(s.files, s.db.ledger.blobs[b])
  }

  lemma CompletesLedger(l: Ledger, refs: multiset<Ref>, m: Ledger, b: Id, t: Id)
    requires Books(l, refs) && b in l.jobs && b in l.blobs && Owns(m, b, t) && m == l.(jobs := l.jobs[b := m.jobs[b]])
    ensures CompleteJob(m, b, t).Ok? && RowGone(l, CompleteJob(m, b, t).ledger, b)
  {
    assert RowOk(l, refs, b);
    WeighMember(l, b);
    assert m.jobs - {b} == l.jobs - {b};
  }

  lemma CompletesAlone(s: State, b: Id, t: Id, until: Time, blob: Blob)
    requires Inv(s) && b in s.db.ledger.jobs && b in s.db.ledger.blobs && blob == s.db.ledger.blobs[b]
    ensures CleanedUp(s, Complete(Sweeping(s, b, t, until, AllGone, Some(blob), WithoutBoth(s.files, blob)), t), b)
  {
    var m := Sweeping(s, b, t, until, AllGone, Some(blob), WithoutBoth(s.files, blob));
    CompletesLedger(s.db.ledger, Refs(s.db), m.db.ledger, b, t);
  }

  function CleanupRun(b: Id, t: Id, now: Time, until: Time): seq<Action> {
    [Working(ClaimA(b, t, now, until)), Working(CheckClaimA(t)), Working(LoadBlobA(t)),
     Working(DeleteStagingA(t)), Working(DeleteStorageA(t)), Working(CompleteA(t))]
  }

  lemma JobsBlob(s: State, b: Id)
    requires Inv(s) && b in s.db.ledger.jobs
    ensures b in s.db.ledger.blobs && NamedOnce(s.db.ledger.blobs[b])
    ensures s.db.ledger.blobs[b].status != Active && s.db.ledger.blobs[b].refCount == 0
  {
    assert RowOk(s.db.ledger, Refs(s.db), b);
  }

  lemma DeleteSteps(s: State, t: Id)
    ensures Steps(s, Working(DeleteStagingA(t)), DeleteStagingFile(s, t))
    ensures Steps(s, Working(DeleteStorageA(t)), DeleteStorageFile(s, t))
  {
  }

  lemma CompleteStep(s: State, t: Id)
    ensures Steps(s, Working(CompleteA(t)), Complete(s, t))
  {
  }

  lemma ReadsRow(s: State, b: Id, t: Id, now: Time, until: Time)
    requires Inv(s) && FreshName(s, t) && b in s.db.ledger.jobs && Due(s.db.ledger.jobs[b], now)
    ensures b in s.db.ledger.blobs
    ensures Run(s, CleanupRun(b, t, now, until)[..3]) == Sweeping(s, b, t, until, Loaded, Some(s.db.ledger.blobs[b]), s.files)
  {
    JobsBlob(s, b);
    var m1 := Sweeping(s, b, t, until, Claimed, None, s.files);
    var m2 := Sweeping(s, b, t, until, Checked, None, s.files);
    var m3 := Sweeping(s, b, t, until, Loaded, Some(s.db.ledger.blobs[b]), s.files);
    assert Steps(s, Working(ClaimA(b, t, now, until)), m1) by { ClaimsAlone(s, b, t, now, until); }
    assert Steps(m1, Working(CheckClaimA(t)), m2) by { ChecksAlone(s, b, t, until); }
    assert Steps(m2, Working(LoadBlobA(t)), m3) by { LoadsAlone(s, b, t, until); }
    ThreeSteps(s, Working(ClaimA(b, t, now, until)), m1, Working(CheckClaimA(t)), m2, Working(LoadBlobA(t)), m3);
    assert CleanupRun(b, t, now, until)[..3] == [Working(ClaimA(b, t, now, until)), Working(CheckClaimA(t)), Working(LoadBlobA(t))];
  }

  lemma ThreeSteps(s: State, a: Action, s1: State, b: Action, s2: State, c: Action, s3: State)
    requires Steps(s, a, s1) && Steps(s1, b, s2) && Steps(s2, c, s3)
    ensures Run(s, [a, b, c]) == s3
  {
    RunFirst(s, [a, b, c], s1);
    assert [a, b, c][1..] == [b, c];
    RunFirst(s1, [b, c], s2);
    assert [b, c][1..] == [c];
    RunFirst(s2, [c], s3);
    assert [c][1..] == [];
  }

  lemma DeletesAndCompletes(s: State, b: Id, t: Id, until: Time)
    requires Inv(s) && b in s.db.ledger.jobs && b in s.db.ledger.blobs
    ensures var m := Sweeping(s, b, t, until, Loaded, Some(s.db.ledger.blobs[b]), s.files);
      CleanedUp(s, Run(m, [Working(DeleteStagingA(t)), Working(DeleteStorageA(t)), Working(CompleteA(t))]), b)
  {
    var blob := s.db.ledger.blobs[b];
    JobsBlob(s, b);
    var m3 := Sweeping(s, b, t, until, Loaded, Some(blob), s.files);
    var m4 := Sweeping(s, b, t, until, StagingGone, Some(blob), WithoutStaging(s.files, blob));
    var m5 := Sweeping(s, b, t, until, AllGone, Some(blob), WithoutBoth(s.files, blob));
    assert Steps(m3, Working(DeleteStagingA(t)), m4) by { DeletesAlone(s, b, t, until, blob); DeleteSteps(m3, t); }
    assert Steps(m4, Working(DeleteStorageA(t)), m5) by { FinishesAlone(s, b, t, until, blob); DeleteSteps(m4, t); }
    CompleteStep(m5, t);
    CompletesAlone(s, b, t, until, blob);
    ThreeSteps(m3, Working(DeleteStagingA(t)), m4, Working(DeleteStorageA(t)), m5, Working(CompleteA(t)), Complete(m5, t));
  }

  /** A due job that a worker is left alone with takes its blob away: the row, the job, both
      files and the bytes of the column they were charged to. */
  lemma CleanupGoesThrough(s: State, b: Id, t: Id, now: Time, until: Time)
    requires Reachable(s) && FreshName(s, t) && b in s.db.ledger.jobs && s.db.ledger.jobs[b].nextRetryAt <= now
    requires s.db.ledger.jobs[b].ownedUntil.Some? ==> s.db.ledger.jobs[b].ownedUntil.value <= now
    ensures b in s.db.ledger.blobs && CleanedUp(s, Run(s, CleanupRun(b, t, now, until)), b)
  {
    ReachableOk(s);
    ReadsRow(s, b, t, now, until);
    var actions := CleanupRun(b, t, now, until);
    assert actions == actions[..3] + [Working(DeleteStagingA(t)), Working(DeleteStorageA(t)), Working(CompleteA(t))];
    RunSplits(s, actions[..3], [Working(DeleteStagingA(t)), Working(DeleteStorageA(t)), Working(CompleteA(t))]);
    DeletesAndCompletes(s, b, t, until);
  }

  // ------------------------------------------------------------ a failed upload

  function AbortRun(q: Id, b: Id): seq<Action> {
    [Publishing(StartAbortA(q)), Publishing(AbortDeleteA(b, true)), Publishing(AbortDeleteA(b, false)), Publishing(AbortReleaseA([b]))]
  }

  function Given(s: State, q: Id, files: map<Path, nat>): State
    requires q in s.requests
  {
    s.(requests := s.requests[q := s.requests[q].(phase := Aborting)], files := files)
  }

  lemma StartsAbort(s: State, q: Id)
    requires InPhase(s, q, Collecting)
    ensures Steps(s, Publishing(StartAbortA(q)), Given(s, q, s.files))
  {
  }

  lemma AbortDeletes(s: State, q: Id, b: Id, files: map<Path, nat>, staging: bool)
    requires q in s.requests && b in s.stagers && s.stagers[b].request == q
    ensures Steps(Given(s, q, files), Publishing(AbortDeleteA(b, staging)),
                  Given(s, q, files - {if staging then s.stagers[b].stagingPath else s.stagers[b].storagePath}))
  {
  }

  lemma ReleasesOne(l: Ledger, refs: multiset<Ref>, b: Id)
    requires Books(l, refs) && b != Empty && b in l.blobs && l.blobs[b].status == Staging
    ensures ReleaseStagingAll(l, [b]).Ok? && RowGone(l, ReleaseStagingAll(l, [b]).ledger, b)
  {
    assert [b][1..] == [];
    assert RowOk(l, refs, b);
    WeighMember(l, b);
  }

  lemma AbortReleases(s: State, q: Id, b: Id, files: map<Path, nat>)
    requires Inv(s) && q in s.requests && b in s.stagers && s.stagers[b].request == q
    requires s.stagers[b].stagingPath !in files && s.stagers[b].storagePath !in files
    requires b in s.db.ledger.blobs && s.db.ledger.blobs[b].status == Staging
    ensures AbortRelease(Given(s, q, files), [b]) == WithLedger(Given(s, q, files), AbortRelease(Given(s, q, files), [b]).db.ledger)
    ensures RowGone(s.db.ledger, AbortRelease(Given(s, q, files), [b]).db.ledger, b)
  {
    assert b != Empty by { assert StagerOk(s, b); }
    ReleasesOne(s.db.ledger, Refs(s.db), b);
    ReleaseIs(Given(s, q, files), b);
  }

  lemma ReleaseIs(s: State, b: Id)
    requires Cleared(s, b) && ReleaseStagingAll(s.db.ledger, [b]).Ok?
    ensures AbortRelease(s, [b]) == WithLedger(s, ReleaseStagingAll(s.db.ledger, [b]).ledger)
  {
  }

  lemma ReleaseStep(s: State, ids: seq<Id>)
    ensures Steps(s, Publishing(AbortReleaseA(ids)), AbortRelease(s, ids))
  {
  }

  lemma OwnPaths(s: State, q: Id, b: Id)
    requires Inv(s) && q in s.requests && b in s.requests[q].entries
    requires b in s.db.ledger.blobs && s.db.ledger.blobs[b].status == Staging
    ensures b in s.stagers && s.stagers[b].request == q
    ensures WithoutBoth(s.files, s.db.ledger.blobs[b]) == s.files - {s.stagers[b].stagingPath} - {s.stagers[b].storagePath}
  {
    assert RequestOk(s, q) && EntryOk(s, q, b) && StagerOk(s, b) && RowOk(s.db.ledger, Refs(s.db), b);
  }

  /** An upload that fails gives its row, its files and its reserved bytes back. */
  lemma AbortGoesThrough(s: State, q: Id, b: Id)
    requires Reachable(s) && InPhase(s, q, Collecting) && b in s.requests[q].entries
    requires b in s.db.ledger.blobs && s.db.ledger.blobs[b].status == Staging
    ensures CleanedUp(s, Run(s, AbortRun(q, b)), b)
  {
    ReachableOk(s);
    OwnPaths(s, q, b);
    var left := s.files - {s.stagers[b].stagingPath};
    var none := left - {s.stagers[b].storagePath};
    StartsAbort(s, q);
    AbortDeletes(s, q, b, s.files, true);
    AbortDeletes(s, q, b, left, false);
    ReleaseStep(Given(s, q, none), [b]);
    AbortReleases(s, q, b, none);
    FourSteps(s, Publishing(StartAbortA(q)), Given(s, q, s.files), Publishing(AbortDeleteA(b, true)), Given(s, q, left),
              Publishing(AbortDeleteA(b, false)), Given(s, q, none), Publishing(AbortReleaseA([b])), AbortRelease(Given(s, q, none), [b]));
  }

  /** A blob whose files could not be deleted gets a job for the workers instead, due at once
      unless it has one already. */
  lemma AbortLeavesJob(s: State, b: Id, now: Time)
    requires Reachable(s) && GivenUp(s, b) && b in s.db.ledger.blobs
    ensures var l := AbortEnqueue(s, {b}, now).db.ledger;
      && b in l.jobs && l.blobs == s.db.ledger.blobs && l.quota == s.db.ledger.quota
      && l.jobs[b] == if b in s.db.ledger.jobs then s.db.ledger.jobs[b] else Job(s.db.ledger.blobs[b].storagePath, 0, now, None, None)
  {
    ReachableOk(s);
    assert StagerOk(s, b);
  }

  // ------------------------------------------------------------------- expiry

  predicate ExpiryTaken(l: Ledger, n: Ledger, b: Id, now: Time)
    requires b in l.blobs
  {
    && n.blobs == l.blobs[b := l.blobs[b].(status := PendingDelete, lease := None)] && n.quota == l.quota
    && n.jobs == l.jobs[b := if b in l.jobs then l.jobs[b] else Job(l.blobs[b].storagePath, 0, now, None, None)]
  }

  lemma ExpiryTakes(l: Ledger, b: Id, before: Time, now: Time)
    requires b in l.blobs && Expired(l.blobs[b], before, now)
    ensures Expire(l, {b}, before, now).Ok? && ExpiryTaken(l, Expire(l, {b}, before, now).ledger, b, now)
  {
  }

  lemma ExpiryRefused(l: Ledger, b: Id, before: Time, now: Time)
    requires !(b in l.blobs && Expired(l.blobs[b], before, now))
    ensures Expire(l, {b}, before, now).Err?
  {
    assert b in {b};
  }

  /** The expiry of one row takes effect if and only if the row is staging, old enough and out
      of its lease; it is then pending with a job, and no byte has moved. */
  lemma ExpiresIff(s: State, b: Id, before: Time, now: Time)
    ensures var l, n := s.db.ledger, ExpireStaging(s, {b}, before, now).db.ledger;
      if b in l.blobs && l.blobs[b].status == Staging && l.blobs[b].createdAt <= before
         && (l.blobs[b].lease.Some? ==> l.blobs[b].lease.value <= now)
      then ExpiryTaken(l, n, b, now) else n == l
  {
    var l := s.db.ledger;
    if b in l.blobs && Expired(l.blobs[b], before, now) { ExpiryTakes(l, b, before, now); } else { ExpiryRefused(l, b, before, now); }
  }

  // ------------------------------------------------------------------ stray files

  function OrphanRun(scan: Id, p: Path, id: Id, now: Time): seq<Action> {
    [Reconciling(SeeA(scan, p)), Reconciling(CheckPathA(scan, p)), Reconciling(RegisterA(scan, p, id, now)), Reconciling(ScheduleA(id, now))]
  }

  function Stray(p: Path, size: nat, status: Status, now: Time): Blob { Blob(p, None, size, 0, status, None, now) }

  /** A walk that has found one file. */
  function Walking(s: State, scan: Id, p: Path, checked: set<Path>): State
    requires p in s.files
  {
    s.(scans := s.scans[scan := Scan(map[p := s.files[p]], checked)])
  }

  /** The file has been given a row, and then perhaps its job. */
  function Registered(s: State, scan: Id, p: Path, id: Id, now: Time, status: Status, jobs: map<Id, Job>): State
    requires p in s.files
  {
    Walking(s, scan, p, {p}).(
      db := s.db.(ledger := Ledger(s.db.ledger.quota.(used := s.db.ledger.quota.used + s.files[p]),
                                   s.db.ledger.blobs[id := Stray(p, s.files[p], status, now)], jobs)),
      issued := s.issued + {id})
  }

  lemma SeesStray(s: State, scan: Id, p: Path)
    requires p in s.files && scan !in s.scans
    ensures See(s, scan, p) == Walking(s, scan, p, {})
  {
    assert map[][p := s.files[p]] == map[p := s.files[p]];
  }

  lemma ChecksStray(s: State, scan: Id, p: Path)
    requires p in s.files && !ManagedNow(s, p)
    ensures CheckPath(Walking(s, scan, p, {}), scan, p) == Walking(s, scan, p, {p})
  {
    assert {} + {p} == {p};
  }

  lemma RegistersStray(s: State, scan: Id, p: Path, id: Id, now: Time)
    requires Inv(s) && p in s.files && p != Empty && !ManagedNow(s, p) && FreshName(s, id)
    requires s.db.ledger.quota.used + s.files[p] <= MAX_U64
    ensures Register(Walking(s, scan, p, {p}), scan, p, id, now) == Registered(s, scan, p, id, now, Orphaned, s.db.ledger.jobs)
  {
    var m := Walking(s, scan, p, {p});
    assert id !in s.db.ledger.blobs by { assert id in s.db.ledger.blobs ==> BlobOk(s, id); }
    assert !PathTaken(s.db.ledger, p);
    assert m.db == s.db && m.scans[scan].found[p] == s.files[p];
    RegistersFree(s.db.ledger, id, p, s.files[p], now);
  }

  lemma RegistersFree(l: Ledger, id: Id, p: Path, size: nat, now: Time)
    requires id !in l.blobs && !PathTaken(l, p) && l.quota.used + size <= MAX_U64
    ensures RegisterOrphan(l, id, p, size, now)
         == Ok(Ledger(l.quota.(used := l.quota.used + size), l.blobs[id := Stray(p, size, Orphaned, now)], l.jobs))
  {
  }

  lemma SchedulesStray(s: State, scan: Id, p: Path, id: Id, now: Time)
    requires p in s.files && id !in s.db.ledger.jobs
    ensures Schedule(Registered(s, scan, p, id, now, Orphaned, s.db.ledger.jobs), id, now)
         == Registered(s, scan, p, id, now, PendingDelete, s.db.ledger.jobs[id := Job(p, 0, now, None, None)])
  {
  }

  lemma SeeStep(s: State, scan: Id, p: Path)
    ensures Steps(s, Reconciling(SeeA(scan, p)), See(s, scan, p))
    ensures Steps(s, Reconciling(CheckPathA(scan, p)), CheckPath(s, scan, p))
  {
  }

  lemma RegisterStep(s: State, scan: Id, p: Path, id: Id, now: Time)
    ensures Steps(s, Reconciling(RegisterA(scan, p, id, now)), Register(s, scan, p, id, now))
    ensures Steps(s, Reconciling(ScheduleA(id, now)), Schedule(s, id, now))
  {
  }

  /** A file that no row manages is charged to the used column, above the maximum if need be,
      and gets a pending row and a job that is due. */
  lemma StrayIsRegistered(s: State, scan: Id, p: Path, id: Id, now: Time)
    requires Reachable(s) && p in s.files && p != Empty && !ManagedNow(s, p) && scan !in s.scans && FreshName(s, id)
    requires s.db.ledger.quota.used + s.files[p] <= MAX_U64
    ensures Run(s, OrphanRun(scan, p, id, now))
         == Registered(s, scan, p, id, now, PendingDelete, s.db.ledger.jobs[id := Job(p, 0, now, None, None)])
  {
    ReachableOk(s);
    assert id !in s.db.ledger.jobs by { assert id in s.db.ledger.blobs ==> BlobOk(s, id); }
    var m1, m2 := Walking(s, scan, p, {}), Walking(s, scan, p, {p});
    var m3 := Registered(s, scan, p, id, now, Orphaned, s.db.ledger.jobs);
    SeesStray(s, scan, p);
    SeeStep(s, scan, p);
    ChecksStray(s, scan, p);
    SeeStep(m1, scan, p);
    RegistersStray(s, scan, p, id, now);
    RegisterStep(m2, scan, p, id, now);
    SchedulesStray(s, scan, p, id, now);
    RegisterStep(m3, scan, p, id, now);
    FourSteps(s, Reconciling(SeeA(scan, p)), m1, Reconciling(CheckPathA(scan, p)), m2,
              Reconciling(RegisterA(scan, p, id, now)), m3, Reconciling(ScheduleA(id, now)), Schedule(m3, id, now));
  }

  /** The walk and one cleanup together remove the file and nothing else: the ledger is then as
      it was before. */
  lemma StrayIsRemoved(s: State, scan: Id, p: Path, id: Id, t: Id, now: Time, until: Time)
    requires Reachable(s) && p in s.files && p != Empty && !ManagedNow(s, p) && scan !in s.scans && FreshName(s, id)
    requires s.db.ledger.quota.used + s.files[p] <= MAX_U64 && FreshName(s, t) && t != id
    ensures var n := Run(s, OrphanRun(scan, p, id, now) + CleanupRun(id, t, now, until));
      n.db == s.db && n.files == s.files - {p}
  {
    var m := Registered(s, scan, p, id, now, PendingDelete, s.db.ledger.jobs[id := Job(p, 0, now, None, None)]);
    StrayIsRegistered(s, scan, p, id, now);
    ReachableRun(s, OrphanRun(scan, p, id, now));
    RunSplits(s, OrphanRun(scan, p, id, now), CleanupRun(id, t, now, until));
    CleanupGoesThrough(m, id, t, now, until);
    NotThereBefore(s, id);
    GoneAgain(s, scan, p, id, now, Run(m, CleanupRun(id, t, now, until)));
  }

  lemma GoneAgain(s: State, scan: Id, p: Path, id: Id, now: Time, n: State)
    requires p in s.files && id !in s.db.ledger.blobs && id !in s.db.ledger.jobs
    requires CleanedUp(Registered(s, scan, p, id, now, PendingDelete, s.db.ledger.jobs[id := Job(p, 0, now, None, None)]), n, id)
    ensures n.db == s.db && n.files == s.files - {p}
  {
    assert s.db.ledger.blobs[id := Stray(p, s.files[p], PendingDelete, now)] - {id} == s.db.ledger.blobs;
    assert s.db.ledger.jobs[id := Job(p, 0, now, None, None)] - {id} == s.db.ledger.jobs;
  }

  lemma NotThereBefore(s: State, id: Id)
    requires Reachable(s) && id !in s.issued
    ensures id !in s.db.ledger.blobs && id !in s.db.ledger.jobs
  {
    ReachableOk(s);
    assert id in s.db.ledger.blobs ==> BlobOk(s, id);
  }
}
