/**
  Streaming an upload of unknown size: every write is reserved before it happens, a chunk at
  a time, falling back to the exact size when a whole chunk no longer fits.
 */
module Streaming {
  import opened Common
  import opened LedgerTransactions
  import opened StorageBlobRepository

  // ------------------------------------------------------------------ rounding

  const WRAP: nat := MAX_U64 + 1

  function AsUint64(n: nat): nat { if n <= MAX_U64 then n else n % WRAP }

  /** roundUp, in unsigned 64-bit arithmetic. */
  function RoundUp(value: nat, block: nat): nat {
    if block == 0 || value == 0 then value else AsUint64(((value - 1) / block + 1) * block)
  }

  predicate Multiple(m: nat, block: nat)
    requires block > 0
  {
    m % block == 0
  }

  lemma MultipleOf(q: nat, block: nat)
    requires block > 0
    ensures Multiple(q * block, block) && (q * block) / block == q
  {
    if q > 0 {
      MultipleOf(q - 1, block);
      assert q * block == (q - 1) * block + block;
    }
  }

  lemma BlocksAbove(value: nat, block: nat, q: nat)
    requires 0 < value && 0 < block && q == (value - 1) / block
    ensures q * block < value <= (q + 1) * block < value + block
  {
    assert value - 1 == q * block + (value - 1) % block;
    assert (q + 1) * block == q * block + block;
  }

  lemma TimesGrows(a: nat, b: nat, block: nat)
    requires a <= b
    ensures a * block <= b * block
  {
    assert b * block == a * block + (b - a) * block;
  }

  lemma NoWrap(value: nat, block: nat, q: nat)
    requires 0 < value <= MAX_I64 && 0 < block <= MAX_U64 && q == (value - 1) / block
    ensures (q + 1) * block <= MAX_U64
  {
    BlocksAbove(value, block, q);
    assert (q + 1) * block == q * block + block;
    if q > 0 { TimesGrows(1, q, block); }
  }

  lemma NoSmallerMultiple(value: nat, block: nat, q: nat, m: nat)
    requires 0 < value && 0 < block && q == (value - 1) / block && Multiple(m, block) && value <= m
    ensures (q + 1) * block <= m
  {
    BlocksAbove(value, block, q);
    var k := m / block;
    assert m == k * block;
    if k <= q { TimesGrows(k, q, block); } else { TimesGrows(q + 1, k, block); }
  }

  /** For the sizes a file can have, rounding up does not wrap and gives the least multiple
      of the block that is no smaller than the value. */
  lemma RoundUpIsLeast(value: nat, block: nat)
    requires 0 < value <= MAX_I64 && 0 < block <= MAX_U64
    ensures value <= RoundUp(value, block) < value + block
    ensures RoundUp(value, block) <= MAX_U64 && Multiple(RoundUp(value, block), block)
    ensures forall m: nat :: Multiple(m, block) && value <= m ==> RoundUp(value, block) <= m
  {
    var q := (value - 1) / block;
    BlocksAbove(value, block, q);
    NoWrap(value, block, q);
    MultipleOf(q + 1, block);
    forall m: nat | Multiple(m, block) && value <= m ensures RoundUp(value, block) <= m {
      NoSmallerMultiple(value, block, q, m);
    }
  }

  lemma RoundUpMonotone(a: nat, b: nat, block: nat)
    requires a <= b <= MAX_I64 && block <= MAX_U64
    ensures RoundUp(a, block) <= RoundUp(b, block)
  {
    if a > 0 && block > 0 {
      RoundUpIsLeast(a, block);
      RoundUpIsLeast(b, block);
    }
  }

  lemma WrapsOnce(n: nat)
    requires MAX_U64 < n < 2 * WRAP
    ensures AsUint64(n) == n - WRAP
  {
  }

  /** Beyond signed 64-bit sizes the product can wrap, and rounding up gives less than it was
      given exactly when it does. */
  lemma RoundUpWrapsIff(value: nat, block: nat)
    requires 0 < value <= MAX_U64 && 0 < block <= MAX_U64
    ensures value <= RoundUp(value, block) <==> ((value - 1) / block + 1) * block <= MAX_U64
    ensures ((value - 1) / block + 1) * block > MAX_U64 ==> RoundUp(value, block) < block && RoundUp(value, block) < value
  {
    var q := (value - 1) / block;
    BlocksAbove(value, block, q);
    if (q + 1) * block > MAX_U64 { WrapsOnce((q + 1) * block); }
  }

  // ----------------------------------------------------------- reserving ahead

  /** Two's-complement int64: the one number of that range that is n modulo 2^64. */
  function AsInt64(n: nat): (r: int)
    ensures 0 <= r + MAX_I64 + 1 && r <= MAX_I64 && (n - r) % WRAP == 0
  {
    if n <= MAX_I64 then n else var low := n % WRAP; if low <= MAX_I64 then low else low - WRAP
  }

  /** So many more bytes are reserved, and nothing else has changed. */
  predicate Charged(before: Quota, after: Quota, bytes: int) {
    && after.used == before.used && after.max == before.max && after.reconciledAt == before.reconciledAt
    && after.reserved == before.reserved + bytes
  }

  class Reservation {
    const repo: Repository
    const id: Id
    const chunk: nat
    var reserved: nat

    constructor (repo: Repository, id: Id, chunk: nat)
      ensures this.repo == repo && this.id == id && this.chunk == chunk && reserved == 0
    {
      this.repo, this.id, this.chunk, this.reserved := repo, id, chunk, 0;
    }

    /** The client's own count never exceeds the size of its staging row. */
    ghost predicate Valid()
      reads this, repo
    {
      && repo.Valid() && chunk <= MAX_U64
      && id in repo.blobs && repo.blobs[id].status == Staging && reserved <= repo.blobs[id].size
    }

    /** Bytes of the row that the client does not count on. */
    ghost function Slack(): int
      reads this, repo
      requires Valid()
    {
      repo.blobs[id].size - reserved
    }

    /** reserveBeforeWrite: a refusal leaves the ledger and the count as they were, and comes
        only when not even the exact size fits; otherwise `total` bytes are reserved, up to
        the end of their block when the quota has room for it and exactly when it has not. */
    method BeforeWrite(total: int) returns (r: Option<Error>)
      requires Valid() && total <= MAX_I64
      modifies this`reserved, repo`quota, repo`blobs
      ensures Valid() && Slack() == old(Slack())
      ensures r.Some? ==> reserved == old(reserved) && repo.Rows() == old(repo.Rows())
      ensures r.None? ==> total <= reserved
      ensures r.None? ==> reserved == old(reserved) || (total > 0 && InBlock(reserved, total, chunk))
      ensures r.None? ==> reserved == if total <= old(reserved) then old(reserved)
        else if Lacks(old(repo.quota), RoundUp(total, chunk) - old(reserved)) then total else RoundUp(total, chunk)
      ensures r.Some? <==> total > old(reserved) && total > 0 && Lacks(old(repo.quota), total - old(reserved))
      ensures Charged(old(repo.quota), repo.quota, reserved - old(reserved))
      ensures reserved > old(reserved) ==> !Lacks(old(repo.quota), reserved - old(reserved))
    {
      if total <= 0 || total <= reserved { return None; }
      if chunk > 0 { RoundUpIsLeast(total, chunk); }
      var required := RoundUp(total, chunk);
      r := repo.Reserve(id, required - reserved);
      if r.Some? {
        if r.value != QuotaExceeded { return r; }
        r := repo.Reserve(id, total - reserved);
        if r.Some? { return r; }
        required := total;
      }
      reserved := required;
    }
  }

  // ------------------------------------------------------------ the write loop

  datatype ReadEnd = More | EOF | ReadFailed

  /** One turn of the loop: how many bytes the reader delivers and how it reports, how many
      of them the file takes, and whether the upload is cancelled before the turn. */
  datatype Turn = Turn(n: nat, end: ReadEnd, accepted: nat, writeFails: bool, cancelled: bool)

  function Delivered(turns: seq<Turn>): nat {
    if turns == [] then 0 else Delivered(turns[..|turns| - 1]) + turns[|turns| - 1].n
  }

  /** The staging file: absent, or present with a size. */
  class StagingFile {
    var size: Option<nat>

    constructor ()
      ensures size.None?
    {
      size := None;
    }
  }

  datatype Snapshot = Snapshot(onDisk: nat, reserved: nat, ledger: nat)

  predicate Covered(s: Snapshot) { s.onDisk <= s.reserved <= s.ledger }

  /** Nothing is reserved beyond the block of the last byte. */
  predicate InBlock(reserved: nat, size: nat, chunk: nat) { reserved <= Max(size, RoundUp(size, chunk)) }

  lemma StillInBlock(before: nat, after: nat, size: nat, next: nat, chunk: nat)
    requires InBlock(before, size, chunk) && (after == before || InBlock(after, next, chunk))
    requires size <= next <= MAX_I64 && chunk <= MAX_U64
    ensures InBlock(after, next, chunk)
  {
    RoundUpMonotone(size, next, chunk);
  }

  /** The file takes what the reader delivers. */
  predicate Accepted(t: Turn) { t.n > 0 ==> !t.writeFails && t.accepted >= t.n }

  /** The turn succeeds: its bytes fit a file, the quota and the disk. */
  predicate Taken(t: Turn, size: nat, reserved: nat, quota: Quota) {
    Accepted(t) && size + t.n <= MAX_I64 && (size + t.n <= reserved || !Lacks(quota, size + t.n - reserved))
  }

  /** The upload gets through the turns up to the end of file at turn k: none is cancelled,
      none fails, and the quota had room for all of its bytes when it began. */
  ghost predicate GetsThrough(turns: seq<Turn>, k: nat, quota: Quota) {
    && k < |turns| && turns[k].end == EOF
    && (forall i :: 0 <= i < k ==> turns[i].end == More)
    && (forall i :: 0 <= i <= k ==> !turns[i].cancelled && Accepted(turns[i]))
    && Delivered(turns[..k + 1]) <= MAX_I64 && !Lacks(quota, Delivered(turns[..k + 1]))
  }

  lemma {:induction false} DeliveredGrows(turns: seq<Turn>, i: nat, k: nat)
    requires i <= k <= |turns|
    ensures Delivered(turns[..i]) <= Delivered(turns[..k])
    decreases k
  {
    if i < k {
      DeliveredGrows(turns, i, k - 1);
      assert turns[..k][..k - 1] == turns[..k - 1];
    }
  }

  /** A turn that fails ends every way through. */
  lemma NoWayThrough(turns: seq<Turn>, i: nat, quota: Quota)
    requires i < |turns| && forall j :: 0 <= j < i ==> turns[j].end == More
    requires turns[i].cancelled || !Accepted(turns[i]) || turns[i].end == ReadFailed
      || Delivered(turns[..i + 1]) > MAX_I64 || Lacks(quota, Delivered(turns[..i + 1]))
    ensures forall k :: !GetsThrough(turns, k, quota)
  {
    forall k: nat ensures !GetsThrough(turns, k, quota) {
      if i <= k < |turns| { DeliveredGrows(turns, i + 1, k + 1); }
    }
  }

  /** The delivered bytes of one turn: reserve, then write. No file grows beyond what a
      signed 64-bit size can say. */
  method Take(t: Turn, size: nat, res: Reservation, file: StagingFile) returns (next: Option<nat>)
    requires res.Valid() && file.size == Some(size) && size <= res.reserved && size <= MAX_I64
    requires InBlock(res.reserved, size, res.chunk)
    modifies res`reserved, res.repo`quota, res.repo`blobs, file
    ensures res.Valid() && res.Slack() == old(res.Slack()) && file.size == next
    ensures next.Some? ==> next.value == size + t.n <= res.reserved && next.value <= MAX_I64
    ensures next.Some? ==> InBlock(res.reserved, next.value, res.chunk)
    ensures Charged(old(res.repo.quota), res.repo.quota, res.reserved - old(res.reserved))
    ensures next.Some? <==> Taken(t, size, old(res.reserved), old(res.repo.quota))
    ensures next.Some? && t.n == 0 ==> res.reserved == old(res.reserved)
    ensures res.reserved > old(res.reserved) ==> !Lacks(old(res.repo.quota), res.reserved - old(res.reserved))
  {
    if t.n == 0 { return Some(size); }
    ghost var before := res.reserved;
    var refused := res.BeforeWrite(AsInt64(size + t.n));
    var took := Min(Min(t.n, t.accepted), MAX_I64 - size);
    if refused.Some? || t.writeFails || took != t.n {
      file.size := None;
      return None;
    }
    StillInBlock(before, res.reserved, size, size + t.n, res.chunk);
    file.size := Some(size + took);
    return file.size;
  }

  /** Room is counted from where the upload began: all it has reserved fitted, and the next
      bytes fit what is left exactly when all of them fitted then. */
  lemma RoomFromStart(first: Quota, now: Quota, reserved: nat, total: nat)
    requires Charged(first, now, reserved) && !Lacks(first, reserved)
    ensures !Lacks(first, total) <==> total <= reserved || !Lacks(now, total - reserved)
  {
  }

  /** The body of the write loop. A turn that fails removes the file. */
  method OneTurn(t: Turn, size: nat, res: Reservation, file: StagingFile) returns (next: Option<nat>)
    requires res.Valid() && file.size == Some(size) && size <= res.reserved && size <= MAX_I64
    requires InBlock(res.reserved, size, res.chunk)
    modifies res`reserved, res.repo`quota, res.repo`blobs, file
    ensures res.Valid() && res.Slack() == old(res.Slack()) && file.size == next
    ensures next.Some? ==> next.value == size + t.n <= res.reserved && next.value <= MAX_I64
    ensures next.Some? ==> InBlock(res.reserved, next.value, res.chunk)
    ensures Charged(old(res.repo.quota), res.repo.quota, res.reserved - old(res.reserved))
    ensures next.Some? <==> !t.cancelled && t.end != ReadFailed && Taken(t, size, old(res.reserved), old(res.repo.quota))
    ensures next.Some? && t.n == 0 ==> res.reserved == old(res.reserved)
    ensures res.reserved > old(res.reserved) ==> !Lacks(old(res.repo.quota), res.reserved - old(res.reserved))
  {
    if t.cancelled {
      file.size := None;
      return None;
    }
    next := Take(t, size, res, file);
    if next.Some? && t.end == ReadFailed {
      file.size := None;
      return None;
    }
  }

  /** The write loop of LocalStorage.Stage with its reservation callback. At every point the
      bytes on disk are covered by the local count and by the ledger row; it returns a size
      exactly when the upload gets through, for a file that holds what the reader delivered,
      and otherwise removes the file. The row is never larger than the delivered bytes
      rounded up to a block. */
  method WriteLoop(turns: seq<Turn>, res: Reservation, file: StagingFile)
    returns (written: Option<nat>, ghost trace: seq<Snapshot>)
    requires res.Valid() && res.reserved == 0 && file.size.None?
    modifies res`reserved, res.repo`quota, res.repo`blobs, file
    ensures res.Valid() && res.Slack() == old(res.Slack()) && file.size == written
    ensures forall s :: s in trace ==> Covered(s)
    ensures written.Some? ==> written.value <= res.reserved && Complete(turns, written.value)
    ensures written.Some? ==> written.value <= MAX_I64 && InBlock(res.reserved, written.value, res.chunk)
    ensures written.Some? <==> exists k: nat :: GetsThrough(turns, k, old(res.repo.quota))
    ensures forall k: nat :: GetsThrough(turns, k, old(res.repo.quota)) ==> written == Some(Delivered(turns[..k + 1]))
    ensures written == Some(0) ==> res.reserved == 0 && Charged(old(res.repo.quota), res.repo.quota, 0)
  {
    ghost var first := res.repo.quota;
    file.size := Some(0);
    trace := [];
    var size := 0;
    for i := 0 to |turns|
      invariant res.Valid() && res.Slack() == old(res.Slack()) && file.size == Some(size)
      invariant size == Delivered(turns[..i]) <= res.reserved && size <= MAX_I64
      invariant InBlock(res.reserved, size, res.chunk) && (size == 0 ==> res.reserved == 0)
      invariant forall s :: s in trace ==> Covered(s)
      invariant Charged(first, res.repo.quota, res.reserved) && !Lacks(first, res.reserved)
      invariant forall j :: 0 <= j < i ==> turns[j].end == More && !turns[j].cancelled && Accepted(turns[j])
    {
      var t := turns[i];
      assert turns[..i + 1][..i] == turns[..i];
      RoomFromStart(first, res.repo.quota, res.reserved, size + t.n);
      var next := OneTurn(t, size, res, file);
      if next.None? {
        NoWayThrough(turns, i, first);
        return None, trace;
      }
      size := next.value;
      trace := trace + [Snapshot(size, res.reserved, res.repo.blobs[res.id].size)];
      if t.end == EOF {
        assert GetsThrough(turns, i, first);
        return Some(size), trace;
      }
    }
    // The reader has nothing more to say: the upload is still waiting when it is cancelled.
    file.size := None;
    return None, trace;
  }

  /** The size is all that the reader delivered up to its end of file. */
  ghost predicate Complete(turns: seq<Turn>, size: nat) {
    exists k :: 0 <= k < |turns| && turns[k].end == EOF && size == Delivered(turns[..k + 1])
  }

  /** As `GetsThrough`, with room for the one byte of an empty file. */
  ghost predicate GetsStaged(turns: seq<Turn>, k: nat, quota: Quota) {
    GetsThrough(turns, k, quota) && !Lacks(quota, Max(1, Delivered(turns[..k + 1])))
  }

  lemma StagedIff(turns: seq<Turn>, written: Option<nat>, first: Quota)
    requires written.Some? <==> exists k: nat :: GetsThrough(turns, k, first)
    requires forall k: nat :: GetsThrough(turns, k, first) ==> written == Some(Delivered(turns[..k + 1]))
    ensures (exists k: nat :: GetsStaged(turns, k, first)) <==> written.Some? && (written == Some(0) ==> !Lacks(first, 1))
  {
    if written.Some? {
      var k: nat :| GetsThrough(turns, k, first);
      assert GetsStaged(turns, k, first) <==> !Lacks(first, Max(1, written.value));
    }
  }

  /** Stage after the loop: an empty file reserves one byte, so that a row about to be placed
      is never of size zero and its activation never exceeds the reservation. */
  method StageUnknown(turns: seq<Turn>, res: Reservation, file: StagingFile) returns (staged: Option<nat>)
    requires res.Valid() && res.reserved == 0 && file.size.None? && res.repo.blobs[res.id].size == 0
    modifies res`reserved, res.repo`quota, res.repo`blobs, file
    ensures res.Valid()
    ensures staged.Some? ==> file.size == staged && staged.value <= res.repo.blobs[res.id].size
    ensures staged.Some? ==>
      0 < res.repo.blobs[res.id].size <= Max(1, Max(staged.value, RoundUp(staged.value, res.chunk)))
    ensures staged.Some? ==> Complete(turns, staged.value)
    ensures staged.Some? <==> exists k: nat :: GetsStaged(turns, k, old(res.repo.quota))
  {
    ghost var trace;
    ghost var first := res.repo.quota;
    staged, trace := WriteLoop(turns, res, file);
    StagedIff(turns, staged, first);
    if staged == Some(0) && res.reserved == 0 {
      var refused := res.repo.Reserve(res.id, 1);
      if refused.Some? { return None; }
    }
  }
}
