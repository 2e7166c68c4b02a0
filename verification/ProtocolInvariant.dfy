/** The invariant of the whole system, and what no later step can undo. */
module ProtocolInvariant {
  import opened Common
  import opened LedgerTransactions
  import opened LedgerInvariant
  import opened BooksKept
  import opened FolderPaths
  import opened Metadata
  import opened BinGroups
  import opened Protocol

  ghost predicate DbOk(s: State) {
    && Audited(s.db) && BinOk(s.db.bin, s.db.nextBinId)
    && s.db.ledger.quota.max <= MAX_U64
    && (forall i :: i in s.db.bin ==> s.db.bin[i].group in s.issued)
  }

  /** Physical safety of one row: an active blob's file is there with its ledger size. */
  ghost predicate BlobOk(s: State, b: Id)
    requires b in s.db.ledger.blobs
  {
    var blob := s.db.ledger.blobs[b];
    && b in s.issued && blob.storagePath in s.issued
    && (blob.HasStaging() ==> blob.stagingPath.value in s.issued)
    && (Live(blob) ==> b in s.stagers)
    && (blob.status == Active ==> blob.storagePath in s.files && s.files[blob.storagePath] == blob.size)
  }

  predicate Publishable(p: Phase) { p == Collecting || p == Ready }

  /** Phases a request can be in only if its publish transaction did not commit. */
  predicate NotCommitted(p: Phase) {
    p == Collecting || p == Ready || p == Aborting || p == Finished(RolledBack) || p == Finished(LeaseLost)
  }

  ghost predicate StagerNames(s: State, b: Id)
    requires b in s.stagers
  {
    var st := s.stagers[b];
    && b in s.issued && b != Empty && st.storagePath in s.issued && st.stagingPath in s.issued
    && st.storagePath != st.stagingPath && st.storagePath != Empty && st.stagingPath != Empty
    && st.request in s.requests && b in s.requests[st.request].entries
  }

  /** An upload's own row: its paths, at least the bytes the client counts on, and once it is
      published exactly those it has placed. */
  ghost predicate StagerRow(s: State, b: Id)
    requires b in s.stagers && s.stagers[b].request in s.requests
  {
    var st := s.stagers[b];
    b in s.db.ledger.blobs ==>
      var blob := s.db.ledger.blobs[b];
      && blob.storagePath == st.storagePath
      && blob.status != Orphaned
      && (blob.HasStaging() ==> blob.stagingPath == Some(st.stagingPath))
      && (blob.status == Staging ==>
           blob.stagingPath == Some(st.stagingPath) && st.reserved <= blob.size
           && (st.declared.Some? ==> st.declared.value <= blob.size))
      && (blob.status == Staging && b in s.db.ledger.jobs ==> s.requests[st.request].phase == Aborting)
      && (blob.status == Active ==> st.stage == Placed && blob.size == st.Size() && blob.stagingPath.None?)
  }

  /** An upload's own files: bytes written stay within the reservation, and a placed file
      that can still be published is whole. */
  ghost predicate StagerFiles(s: State, b: Id)
    requires b in s.stagers && s.stagers[b].request in s.requests
  {
    var st := s.stagers[b];
    && (st.written.Some? ==> st.written.value <= st.Limit())
    && (st.stage != Writing ==> st.written.Some? && (if st.declared.Some? then st.written == st.declared else st.reserved > 0))
    && (st.stage != Placed ==> st.storagePath !in s.files)
    && (st.stage != Placed && st.stagingPath in s.files ==> st.written == Some(s.files[st.stagingPath]))
    && (st.stage == Writing && st.written.None? ==> st.stagingPath !in s.files)
    && (st.stage == Placed && Publishable(s.requests[st.request].phase)
        && b in s.db.ledger.blobs && s.db.ledger.blobs[b].status == Staging ==>
          st.storagePath in s.files && s.files[st.storagePath] == st.Size())
  }

  ghost predicate StagerOk(s: State, b: Id)
    requires b in s.stagers
  {
    StagerNames(s, b) && StagerRow(s, b) && StagerFiles(s, b)
  }

  predicate StagersApart(a: Stager, b: Stager) {
    a.storagePath != b.storagePath && a.storagePath != b.stagingPath
    && a.stagingPath != b.storagePath && a.stagingPath != b.stagingPath
  }

  ghost predicate EntryOk(s: State, q: Id, b: Id)
    requires q in s.requests
  {
    && b in s.stagers && s.stagers[b].request == q
    && (b in s.db.ledger.blobs ==>
         if s.requests[q].committed then s.db.ledger.blobs[b].status != Staging
         else s.db.ledger.blobs[b].status != Active)
    && (s.requests[q].phase == Ready && !s.requests[q].cancelled ==> s.stagers[b].stage == Placed)
    && (s.requests[q].phase == Finished(RolledBack) && b in s.db.ledger.blobs ==>
         s.db.ledger.blobs[b].status == PendingDelete)
  }

  ghost predicate RequestOk(s: State, q: Id)
    requires q in s.requests
  {
    var r := s.requests[q];
    && q in s.issued
    && Distinct(r.entries)
    && (NotCommitted(r.phase) ==> !r.committed)
    && (r.phase == Finished(Committed) || r.phase == Finished(Acknowledged) ==> r.committed)
    && (forall b {:trigger EntryOk(s, q, b)} :: b in r.entries ==> EntryOk(s, q, b))
  }

  predicate BeforeRead(step: WorkerStep) { step == Claimed || step == Checked || step == Stopped }

  /** While its blob lasts so does its job; and once it has read the blob, none of the paths
      it will delete belongs to another live blob. */
  ghost predicate WorkerOk(s: State, t: Id)
    requires t in s.workers
  {
    var w := s.workers[t];
    && t in s.issued && w.job in s.issued
    && (w.job in s.db.ledger.blobs ==> w.job in s.db.ledger.jobs)
    && (BeforeRead(w.step) || w.seen.Some?)
    && (w.seen.Some? ==>
         && w.seen.value.storagePath in s.issued
         && (w.seen.value.HasStaging() ==> w.seen.value.stagingPath.value in s.issued)
         && (forall b :: b in s.db.ledger.blobs && Live(s.db.ledger.blobs[b]) && b != w.job ==>
              Apart(s.db.ledger.blobs[b], w.seen.value)))
  }

  ghost predicate TokenOk(s: State, b: Id)
    requires b in s.db.ledger.jobs
  {
    s.db.ledger.jobs[b].owner.Some? ==>
      var t := s.db.ledger.jobs[b].owner.value;
      t in s.workers && s.workers[t].job == b
  }

  ghost predicate ScanOk(s: State, c: Id)
    requires c in s.scans
  {
    && (forall p :: p in s.scans[c].found ==> p in s.issued)
    && (forall p :: p in s.scans[c].checked ==> p in s.issued)
    && (forall p, b :: p in s.scans[c].checked && b in s.db.ledger.blobs ==> s.db.ledger.blobs[b].stagingPath != Some(p))
  }

  /** Rows a call has read are unchanged while they last, and a marker among them came
      with its whole group. */
  ghost predicate CallOk(s: State, c: Id)
    requires c in s.calls
  {
    var k := s.calls[c];
    && Distinct(k.ids) && |k.rows| == |k.ids|
    && (forall x :: 0 <= x < |k.ids| ==> k.ids[x] < s.db.nextBinId && k.rows[x].group in s.issued)
    && (forall x :: 0 <= x < |k.ids| && k.ids[x] in s.db.bin ==> s.db.bin[k.ids[x]] == k.rows[x])
    && (forall x, j :: 0 <= x < |k.ids| && IsMarkerRow(k.rows[x]) && j in s.db.bin && Together(k.rows[x], s.db.bin[j]) ==>
         j in k.ids)
  }

  ghost predicate AllBlobs(s: State) {
    forall b {:trigger BlobOk(s, b)} :: b in s.db.ledger.blobs ==> BlobOk(s, b)
  }

  ghost predicate AllStagers(s: State) {
    forall b {:trigger StagerOk(s, b)} :: b in s.stagers ==> StagerOk(s, b)
  }

  ghost predicate AllApart(s: State) {
    forall a, b {:trigger StagersApart(s.stagers[a], s.stagers[b])} ::
      a in s.stagers && b in s.stagers && a != b ==> StagersApart(s.stagers[a], s.stagers[b])
  }

  ghost predicate AllRequests(s: State) {
    forall q {:trigger RequestOk(s, q)} :: q in s.requests ==> RequestOk(s, q)
  }

  ghost predicate AllWorkers(s: State) {
    forall t {:trigger WorkerOk(s, t)} :: t in s.workers ==> WorkerOk(s, t)
  }

  ghost predicate AllTokens(s: State) {
    forall b {:trigger TokenOk(s, b)} :: b in s.db.ledger.jobs ==> TokenOk(s, b)
  }

  ghost predicate AllScans(s: State) {
    forall c {:trigger ScanOk(s, c)} :: c in s.scans ==> ScanOk(s, c)
  }

  ghost predicate AllCalls(s: State) {
    forall c {:trigger CallOk(s, c)} :: c in s.calls ==> CallOk(s, c)
  }

  ghost predicate FilesKnown(s: State) { forall p :: p in s.files ==> p in s.issued }

  ghost predicate Inv(s: State) {
    DbOk(s) && AllBlobs(s) && AllStagers(s) && AllApart(s) && AllRequests(s)
    && AllWorkers(s) && AllTokens(s) && AllScans(s) && AllCalls(s) && FilesKnown(s)
  }

  // ------------------------------------------------------------ lasting facts

  /** The worker's lease has been taken over, reset, or has gone with its blob. */
  predicate Lost(s: State, t: Id)
    requires t in s.workers
  {
    !Owns(s.db.ledger, s.workers[t].job, t)
  }

  /** A request only moves on: its entries are settled when staging ends, an outcome is final,
      and once it has been cancelled or is past its publish it commits nothing more. */
  predicate Onward(r: Request, n: Request) {
    && (r.committed ==> n.committed)
    && (r.cancelled ==> n.cancelled && n.committed == r.committed)
    && (r.phase != Collecting ==> n.phase != Collecting && n.entries == r.entries)
    && (!Publishable(r.phase) ==> !Publishable(n.phase) && n.committed == r.committed)
    && (r.phase == Aborting || r.phase.Finished? ==> n.phase == r.phase)
  }

  /** What is true now and stays true whatever happens next. */
  ghost predicate Later(s: State, n: State) {
    && s.issued <= n.issued
    && (forall b :: b in s.issued && b !in s.db.ledger.blobs ==> b !in n.db.ledger.blobs)
    && (forall b :: b in s.db.ledger.blobs && s.db.ledger.blobs[b].status == PendingDelete && b in n.db.ledger.blobs ==>
         n.db.ledger.blobs[b].status == PendingDelete)
    && (forall t :: t in s.workers ==> t in n.workers && n.workers[t].job == s.workers[t].job)
    && (forall t :: t in s.workers && Lost(s, t) ==> Lost(n, t))
    && s.db.nextBinId <= n.db.nextBinId
    && (forall i :: i < s.db.nextBinId && i !in s.db.bin ==> i !in n.db.bin)
    && (forall q :: q in s.requests ==> q in n.requests && Onward(s.requests[q], n.requests[q]))
  }

  ghost predicate StepOk(s: State, n: State) { Inv(n) && Later(s, n) }
}
