/** The audit program run against any database the system can reach. */
module ProtocolAudit {
  import opened Common
  import opened LedgerTransactions
  import opened LedgerInvariant
  import opened Metadata
  import opened StorageBlobRepository
  import opened LedgerAudit
  import opened Protocol
  import opened ProtocolInvariant
  import opened ProtocolGuarantees

  /** In every reachable state the audit succeeds, whatever order its queries return their
      rows in, and what it writes is the `Mark` of the state machine, which therefore needs
      no check of its own. */
  method AuditSucceeds(repo: Repository, rows: seq<BlobRow>, groups: seq<Group>, jobRows: seq<JobRow>, at: Time,
                       ghost s: State, ghost keys: seq<Key>, ghost ids: seq<nat>) returns (ok: bool)
    requires Reachable(s) && repo.Rows() == s.db.ledger && ListsTables(s.db, keys, ids)
    requires Lists(rows, s.db.ledger.blobs) && ListsJobs(jobRows, s.db.ledger.jobs)
    requires Groups(groups, TableEntries(s.db, keys, ids))
    modifies repo`quota
    ensures ok && repo.Rows() == Mark(s, Some(at)).db.ledger
  {
    EveryStateAudited(s);
    ok := ValidateAndMarkReconciled(repo, rows, groups, jobRows, at, s.db, keys, ids);
  }
}
