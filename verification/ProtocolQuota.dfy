/** The quota is never oversold, except by orphans the reconciler finds on disk. */
module ProtocolQuota {
  import opened Common
  import opened LedgerTransactions
  import opened LedgerInvariant
  import opened BooksKept
  import opened FolderPaths
  import opened Metadata
  import opened BinGroups
  import opened References
  import opened Protocol
  import opened ProtocolInvariant
  import opened ProtocolSteps
  import opened ProtocolPublish
  import opened ProtocolRuns
  import opened ProtocolGuarantees

  /** Used and reserved bytes exceed the maximum by at most `debt`. */
  predicate Under(l: Ledger, debt: nat) { l.quota.used + l.quota.reserved <= l.quota.max + debt }

  predicate StaysUnder(l: Ledger, r: Result, debt: nat) { Under(l, debt) && r.Ok? ==> Under(r.ledger, debt) }

  lemma {:induction false} CreateAllUnder(l: Ledger, rows: seq<NewBlob>, now: Time, until: Time, debt: nat)
    ensures StaysUnder(l, CreateAll(l, rows, now, until), debt)
    decreases |rows|
  {
    if rows != [] && CreateOne(l, rows[0], now, until).Ok? {
      CreateAllUnder(CreateOne(l, rows[0], now, until).ledger, rows[1..], now, until, debt);
    }
  }

  lemma {:induction false} ActivateAllUnder(l: Ledger, acts: seq<Activation>, debt: nat)
    ensures StaysUnder(l, ActivateAll(l, acts), debt)
    decreases |acts|
  {
    if acts != [] && ActivateOne(l, acts[0]).Ok? {
      ActivateAllUnder(ActivateOne(l, acts[0]).ledger, acts[1..], debt);
    }
  }

  lemma {:induction false} ReleaseStagingAllUnder(l: Ledger, ids: seq<Id>, debt: nat)
    ensures StaysUnder(l, ReleaseStagingAll(l, ids), debt)
    decreases |ids|
  {
    if ids != [] {
      var first := if ids[0] == Empty then Ok(l) else ReleaseStagingOne(l, ids[0]);
      if first.Ok? { ReleaseStagingAllUnder(first.ledger, ids[1..], debt); }
    }
  }

  lemma PublishUnder(db: Db, items: seq<Item>, overwrite: bool, now: Time, debt: nat)
    requires Under(db.ledger, debt) && Publish(db, items, overwrite, now).Done?
    ensures Under(Publish(db, items, overwrite, now).db.ledger, debt)
  {
    ActivateAllUnder(db.ledger, Acts(items), debt);
  }

  /** Bytes of orphans registered by one action. */
  function RegisteredBy(s: State, a: Action): nat {
    match a
    case Reconciling(RegisterA(scan, path, id, now)) =>
      if Next(s, a) != s && scan in s.scans && path in s.scans[scan].found then s.scans[scan].found[path] else 0
    case _ => 0
  }

  function Registered(s: State, actions: seq<Action>): nat
    decreases |actions|
  {
    if actions == [] then 0
    else RegisteredBy(s, actions[0]) + Registered(Next(s, actions[0]), actions[1..])
  }

  lemma StageUnder(s: State, a: StageAction, debt: nat)
    requires Under(s.db.ledger, debt)
    ensures Under(NextStage(s, a).db.ledger, debt)
  {
    match a
    case StageRowsA(q, ds, now, until) => CreateAllUnder(s.db.ledger, NewRows(ds), now, until, debt);
    case _ =>
  }

  lemma UploadUnder(s: State, q: Id, keys: seq<Key>, attrs: seq<Attrs>, overwrite: bool, now: Time, heard: bool, debt: nat)
    requires Under(s.db.ledger, debt)
    ensures Under(PublishUpload(s, q, keys, attrs, overwrite, now, heard).db.ledger, debt)
  {
    if PublishUpload(s, q, keys, attrs, overwrite, now, heard).db != s.db {
      PublishUnder(s.db, UploadItems(s, s.requests[q].entries, keys, attrs), overwrite, now, debt);
    }
  }

  lemma ConfirmUnder(s: State, q: Id, now: Time, reply: Reply, debt: nat)
    requires Under(s.db.ledger, debt)
    ensures Under(Confirm(s, q, now, reply).db.ledger, debt)
  {
    if InPhase(s, q, Unsure) { ConfirmCases(s, q, now, reply); }
  }

  lemma AbortUnder(s: State, ids: seq<Id>, debt: nat)
    requires Under(s.db.ledger, debt)
    ensures Under(AbortRelease(s, ids).db.ledger, debt)
  {
    ReleaseStagingAllUnder(s.db.ledger, ids, debt);
  }

  lemma PublishingUnder(s: State, a: PublishAction, debt: nat)
    requires Under(s.db.ledger, debt)
    ensures Under(NextPublish(s, a).db.ledger, debt)
  {
    match a
    case PublishA(q, keys, attrs, overwrite, now, heard) => UploadUnder(s, q, keys, attrs, overwrite, now, heard, debt);
    case ConfirmA(q, now, reply) => ConfirmUnder(s, q, now, reply, debt);
    case AbortReleaseA(ids) => AbortUnder(s, ids, debt);
    case _ =>
  }

  lemma WorkerUnder(s: State, a: WorkerAction, debt: nat)
    requires Under(s.db.ledger, debt)
    ensures Under(NextWorker(s, a).db.ledger, debt)
  {
    match a
    case CompleteA(t) => CompleteUnder(s, t, debt);
    case ClaimA(b, t, now, until) =>
    case RenewClaimA(t, until) =>
    case FailA(t, retryAt) =>
    case _ =>
  }

  lemma CompleteUnder(s: State, t: Id, debt: nat)
    requires Under(s.db.ledger, debt)
    ensures Under(Complete(s, t).db.ledger, debt)
  {
    if AtStep(s, t, AllGone) {
      var r := CompleteJob(s.db.ledger, s.workers[t].job, t);
      assert StaysUnder(s.db.ledger, r, debt);
      if r.Ok? {
        assert Complete(s, t).db.ledger == r.ledger;
      } else {
        assert Complete(s, t).db == s.db;
      }
    }
  }

  lemma ReconcileUnder(s: State, a: ReconcileAction, debt: nat)
    requires Under(s.db.ledger, debt)
    ensures Under(NextReconcile(s, a).db.ledger, debt + RegisteredBy(s, Reconciling(a)))
  {
  }

  lemma MetadataUnder(s: State, a: MetadataAction, debt: nat)
    requires Under(s.db.ledger, debt)
    ensures Under(NextMetadata(s, a).db.ledger, debt)
  {
  }

  /** Along every run, used plus reserved bytes exceed the maximum by no more than the bytes
      of the orphans registered on the way; without orphans they never exceed it. */
  lemma {:induction false} NeverOversold(s: State, actions: seq<Action>, debt: nat)
    requires Under(s.db.ledger, debt)
    ensures Under(Run(s, actions).db.ledger, debt + Registered(s, actions))
    decreases |actions|
  {
    if actions != [] {
      match actions[0] {
        case Uploading(a) => StageUnder(s, a, debt);
        case Publishing(a) => PublishingUnder(s, a, debt);
        case Working(a) => WorkerUnder(s, a, debt);
        case Reconciling(a) => ReconcileUnder(s, a, debt);
        case Serving(a) => MetadataUnder(s, a, debt);
      }
      NeverOversold(Next(s, actions[0]), actions[1..], debt + RegisteredBy(s, actions[0]));
    }
  }
}
