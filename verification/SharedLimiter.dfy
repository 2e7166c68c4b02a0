/**
  The table that replicas share: bucket rows under a hard cap, with a counter row that every
  insert and every cleanup locks. Each transaction is one step; any sequence of steps is an
  interleaving of replicas.
 */
module SharedLimiter {
  import opened Common
  import opened TokenBucket

  const CLEANUP_LIMIT: nat := 256

  /** A hashed key. */
  type Key = Name

  predicate Dead(buckets: map<Key, Bucket>, k: Key, now: Time) { k in buckets && Expired(buckets[k], now) }

  function AllDead(buckets: map<Key, Bucket>, now: Time): set<Key> {
    set k | k in buckets && Expired(buckets[k], now)
  }

  /** What DELETE ... WHERE expires_at <= now ORDER BY expires_at LIMIT 256 can pick: expired
      rows, oldest first, as many as the limit admits. Ties may fall either way. */
  ghost predicate Picks(buckets: map<Key, Bucket>, doomed: set<Key>, now: Time) {
    && doomed <= AllDead(buckets, now)
    && |doomed| == (if |AllDead(buckets, now)| <= CLEANUP_LIMIT then |AllDead(buckets, now)| else CLEANUP_LIMIT)
    && (forall k, x :: k in doomed && x in AllDead(buckets, now) && x !in doomed ==> buckets[k].expires <= buckets[x].expires)
  }

  lemma Fewer(a: set<Key>, b: set<Key>)
    requires a <= b
    ensures |a| <= |b| && |b - a| == |b| - |a|
  {
    assert b == a + (b - a);
  }

  lemma DropRows(buckets: map<Key, Bucket>, doomed: set<Key>)
    requires doomed <= buckets.Keys
    ensures |buckets - doomed| == |buckets| - |doomed|
  {
    assert (buckets - doomed).Keys == buckets.Keys - doomed;
    Fewer(doomed, buckets.Keys);
  }

  class Store {
    const maxEntries: nat
    var buckets: map<Key, Bucket>
    var entryCount: int
    var expiredEvictions: nat
    var capacityRejections: nat
    ghost var inserts: nat

    constructor (maxEntries: nat)
      ensures Valid() && this.maxEntries == maxEntries && buckets == map[] && inserts == 0 && expiredEvictions == 0
    {
      this.maxEntries := maxEntries;
      buckets, entryCount, expiredEvictions, capacityRejections, inserts := map[], 0, 0, 0, 0;
    }

    /** The counter is the number of rows and never passes the cap, and every row ever
        inserted is still there or was evicted after it expired. */
    ghost predicate Valid()
      reads this
    {
      entryCount == |buckets| && |buckets| <= maxEntries && inserts == |buckets| + expiredEvictions
    }

    /** updateExisting: a key without a row is left to the next transaction. */
    method UpdateExisting(k: Key, p: Policy, now: Time) returns (allowed: bool, found: bool)
      requires Valid()
      modifies this`buckets
      ensures Valid() && found == (k in old(buckets))
      ensures found ==> buckets == old(buckets)[k := Updated(p, old(buckets)[k], now)] && allowed == buckets[k].lastAllowed
      ensures !found ==> buckets == old(buckets) && !allowed
      ensures buckets == After(old(buckets), maxEntries, (x: Key) => p, Existing(k, now))
      ensures allowed == Grants(old(buckets), maxEntries, (x: Key) => p, Existing(k, now), k)
    {
      if k !in buckets { return false, false; }
      buckets := buckets[k := Updated(p, buckets[k], now)];
      return buckets[k].lastAllowed, true;
    }

    /** cleanupExpiredRateLimitBuckets, on the rows the DELETE picked. The clamp of the
        counter at zero never bites. */
    method CleanupExpired(doomed: set<Key>, now: Time) returns (deleted: nat)
      requires Valid() && Picks(buckets, doomed, now)
      modifies this`buckets, this`entryCount, this`expiredEvictions
      ensures Valid() && deleted == |doomed| <= CLEANUP_LIMIT
      ensures buckets == old(buckets) - doomed && expiredEvictions == old(expiredEvictions) + deleted
      ensures entryCount == old(entryCount) - deleted
      ensures deleted < CLEANUP_LIMIT ==> AllDead(buckets, now) == {}
    {
      DropRows(buckets, doomed);
      Fewer(doomed, AllDead(buckets, now));
      buckets := buckets - doomed;
      deleted := |doomed|;
      if deleted == 0 {
        return;
      }
      entryCount := Max(entryCount - deleted, 0);
      expiredEvictions := expiredEvictions + deleted;
    }

    /** insertBounded: recheck the key, make room if the table is full, refuse if that does
        not help, else insert a full bucket less one token. The statements read the clock one
        after another: the cleanup at `cleanAt`, the update or insert at `now`. */
    method InsertBounded(k: Key, p: Policy, doomed: set<Key>, cleanAt: Time, now: Time) returns (allowed: bool)
      requires Valid() && Picks(buckets, doomed, cleanAt)
      modifies this
      ensures Valid()
      ensures inserts == old(inserts) + (if k !in old(buckets) && allowed then 1 else 0)
      ensures capacityRejections == old(capacityRejections) + (if k in old(buckets) || allowed then 0 else 1)
      ensures k !in old(buckets) ==> (!allowed <==> |old(buckets)| >= maxEntries && |old(buckets) - doomed| >= maxEntries)
      ensures allowed <==> k in buckets && buckets[k].lastAllowed
      ensures buckets == After(old(buckets), maxEntries, (x: Key) => p, Insert(k, doomed, cleanAt, now))
      ensures allowed == Grants(old(buckets), maxEntries, (x: Key) => p, Insert(k, doomed, cleanAt, now), k)
    {
      InsertIs(buckets, maxEntries, k, p, doomed, cleanAt, now);
      if k in buckets {
        buckets := buckets[k := Updated(p, buckets[k], now)];
        return buckets[k].lastAllowed;
      }
      allowed := InsertNew(k, p, doomed, cleanAt, now);
    }

    method InsertNew(k: Key, p: Policy, doomed: set<Key>, cleanAt: Time, now: Time) returns (allowed: bool)
      requires Valid() && Picks(buckets, doomed, cleanAt) && k !in buckets
      modifies this
      ensures Valid()
      ensures var kept := if |old(buckets)| >= maxEntries then old(buckets) - doomed else old(buckets);
        allowed == (|kept| < maxEntries) && buckets == (if allowed then kept[k := Inserted(p, now)] else kept)
      ensures !allowed <==> |old(buckets)| >= maxEntries && |old(buckets) - doomed| >= maxEntries
      ensures inserts == old(inserts) + (if allowed then 1 else 0)
      ensures capacityRejections == old(capacityRejections) + (if allowed then 0 else 1)
    {
      var count := entryCount;
      if count >= maxEntries {
        var deleted := CleanupExpired(doomed, cleanAt);
        count := count - deleted;
      }
      if count >= maxEntries {
        capacityRejections := capacityRejections + 1;
        return false;
      }
      buckets := buckets[k := Inserted(p, now)];
      entryCount := entryCount + 1;
      inserts := inserts + 1;
      return true;
    }
  }

  // -------------------------------------------------- the store seen by one key

  /** One transaction of some replica, with the clock readings of its statements. */
  datatype Txn =
    | Existing(k: Key, now: Time)
    | Insert(k: Key, doomed: set<Key>, cleanAt: Time, now: Time)
    | Cleanup(doomed: set<Key>, cleanAt: Time)

  /** The rows after a transaction: what the methods of `Store` ensure. */
  function After(buckets: map<Key, Bucket>, max: nat, policy: Key -> Policy, t: Txn): map<Key, Bucket> {
    match t
    case Existing(k, now) => if k in buckets then buckets[k := Updated(policy(k), buckets[k], now)] else buckets
    case Insert(k, doomed, _, now) =>
      if k in buckets then buckets[k := Updated(policy(k), buckets[k], now)]
      else
        var kept := if |buckets| >= max then buckets - doomed else buckets;
        if |kept| >= max then kept else kept[k := Inserted(policy(k), now)]
    case Cleanup(doomed, _) => buckets - doomed
  }

  /** Whether the transaction decides to allow a request of key k. */
  predicate Grants(buckets: map<Key, Bucket>, max: nat, policy: Key -> Policy, t: Txn, k: Key) {
    match t
    case Existing(x, now) => x == k && k in buckets && Updated(policy(k), buckets[k], now).lastAllowed
    case Insert(x, doomed, _, now) =>
      x == k && if k in buckets then Updated(policy(k), buckets[k], now).lastAllowed
                else |if |buckets| >= max then buckets - doomed else buckets| < max
    case Cleanup(_, _) => false
  }

  /** The insert, case by case. */
  lemma InsertIs(buckets: map<Key, Bucket>, max: nat, k: Key, p: Policy, doomed: set<Key>, cleanAt: Time, now: Time)
    ensures var t, policy := Insert(k, doomed, cleanAt, now), (x: Key) => p;
      if k in buckets
      then After(buckets, max, policy, t) == buckets[k := Updated(p, buckets[k], now)]
        && (Grants(buckets, max, policy, t, k) <==> Updated(p, buckets[k], now).lastAllowed)
      else var kept := if |buckets| >= max then buckets - doomed else buckets;
        After(buckets, max, policy, t) == (if |kept| < max then kept[k := Inserted(p, now)] else kept)
        && (Grants(buckets, max, policy, t, k) <==> |kept| < max)
  {
  }

  function RowOf(buckets: map<Key, Bucket>, k: Key): Option<Bucket> { if k in buckets then Some(buckets[k]) else None }

  predicate OnlyDead(buckets: map<Key, Bucket>, doomed: set<Key>, now: Time) { doomed <= AllDead(buckets, now) }

  ghost predicate Sane(buckets: map<Key, Bucket>, t: Txn) {
    match t
    case Existing(_, _) => true
    case Insert(_, doomed, cleanAt, _) => OnlyDead(buckets, doomed, cleanAt)
    case Cleanup(doomed, cleanAt) => OnlyDead(buckets, doomed, cleanAt)
  }

  /** What the transaction does to the row of key k, and when; most leave it alone. */
  function EventOf(buckets: map<Key, Bucket>, max: nat, t: Txn, k: Key): Option<Event> {
    match t
    case Existing(x, now) => if x == k && k in buckets then Some(Touch(now)) else None
    case Insert(x, doomed, cleanAt, now) =>
      if x == k then
        if k in buckets || |if |buckets| >= max then buckets - doomed else buckets| < max then Some(Touch(now)) else None
      else if x !in buckets && |buckets| >= max && k in doomed then Some(Purge(cleanAt)) else None
    case Cleanup(doomed, cleanAt) => if k in doomed then Some(Purge(cleanAt)) else None
  }

  /** Whatever the other keys and the other replicas do, each key lives the life of one
      token bucket: a transaction is one event in it, or none. */
  lemma OneKeysView(buckets: map<Key, Bucket>, max: nat, policy: Key -> Policy, t: Txn, k: Key)
    requires Sane(buckets, t)
    ensures match EventOf(buckets, max, t, k)
      case None => RowOf(After(buckets, max, policy, t), k) == RowOf(buckets, k) && !Grants(buckets, max, policy, t, k)
      case Some(e) =>
        && RowOf(After(buckets, max, policy, t), k) == Step(policy(k), RowOf(buckets, k), e)
        && (Grants(buckets, max, policy, t, k) <==> Allows(policy(k), RowOf(buckets, k), e))
  {
    match t
    case Existing(x, now) =>
    case Cleanup(doomed, cleanAt) => assert k in doomed ==> Dead(buckets, k, cleanAt);
    case Insert(x, doomed, cleanAt, now) => assert k in doomed ==> Dead(buckets, k, cleanAt);
  }

  ghost predicate SaneRun(buckets: map<Key, Bucket>, max: nat, policy: Key -> Policy, txns: seq<Txn>)
    decreases |txns|
  {
    txns != [] ==> Sane(buckets, txns[0]) && SaneRun(After(buckets, max, policy, txns[0]), max, policy, txns[1..])
  }

  function Granted(buckets: map<Key, Bucket>, max: nat, policy: Key -> Policy, txns: seq<Txn>, k: Key): nat
    decreases |txns|
  {
    if txns == [] then 0
    else
      var rest := Granted(After(buckets, max, policy, txns[0]), max, policy, txns[1..], k);
      if Grants(buckets, max, policy, txns[0], k) then 1 + rest else rest
  }

  function RunStore(buckets: map<Key, Bucket>, max: nat, policy: Key -> Policy, txns: seq<Txn>): map<Key, Bucket>
    decreases |txns|
  {
    if txns == [] then buckets else RunStore(After(buckets, max, policy, txns[0]), max, policy, txns[1..])
  }

  function EventsOf(buckets: map<Key, Bucket>, max: nat, policy: Key -> Policy, txns: seq<Txn>, k: Key): seq<Event>
    decreases |txns|
  {
    if txns == [] then []
    else
      var rest := EventsOf(After(buckets, max, policy, txns[0]), max, policy, txns[1..], k);
      match EventOf(buckets, max, txns[0], k)
      case None => rest
      case Some(e) => [e] + rest
  }

  lemma {:induction false} KeysHistory(buckets: map<Key, Bucket>, max: nat, policy: Key -> Policy, txns: seq<Txn>, k: Key)
    requires SaneRun(buckets, max, policy, txns)
    ensures var events := EventsOf(buckets, max, policy, txns, k);
      && Granted(buckets, max, policy, txns, k) == Allowed(policy(k), RowOf(buckets, k), events)
      && RowOf(RunStore(buckets, max, policy, txns), k) == Runs(policy(k), RowOf(buckets, k), events)
    decreases |txns|
  {
    if txns != [] {
      var next := After(buckets, max, policy, txns[0]);
      OneKeysView(buckets, max, policy, txns[0], k);
      KeysHistory(next, max, policy, txns[1..], k);
      var events := EventsOf(buckets, max, policy, txns, k);
      if EventOf(buckets, max, txns[0], k).Some? {
        assert events[1..] == EventsOf(next, max, policy, txns[1..], k);
      }
    }
  }

  /** Some transactions of any replicas on an empty table, then those of a window. Only the
      clock readings that reach the row of key k have to be in order, as its row lock makes
      them. */
  ghost predicate History(max: nat, policy: Key -> Policy, before: seq<Txn>, inside: seq<Txn>, k: Key, start: Time, from: Time, to: Time) {
    && from <= to
    && SaneRun(map[], max, policy, before) && SaneRun(RunStore(map[], max, policy, before), max, policy, inside)
    && Window(EventsOf(map[], max, policy, before, k),
              EventsOf(RunStore(map[], max, policy, before), max, policy, inside, k), start, from, to)
  }

  /** Key k was granted at most `burst + rps * T` requests in the window. */
  ghost predicate GrantsBounded(max: nat, policy: Key -> Policy, before: seq<Txn>, inside: seq<Txn>, k: Key, from: Time, to: Time)
    requires from <= to
  {
    Granted(RunStore(map[], max, policy, before), max, policy, inside, k) as real
      <= policy(k).burst as real + (to - from) as real * policy(k).rps / 1000000.0
  }

  /** In every interleaving of replicas, starting from an empty table, a key is allowed at
      most `burst + rps * T` requests in any window of length T, across expiry, cleanup and
      re-insertion, provided its idle bucket refills before it expires. */
  lemma SharedWindowBound(max: nat, policy: Key -> Policy, before: seq<Txn>, inside: seq<Txn>, k: Key, start: Time, from: Time, to: Time)
    requires policy(k).Valid() && policy(k).RefillsBeforeExpiry() && History(max, policy, before, inside, k, start, from, to)
    ensures GrantsBounded(max, policy, before, inside, k, from, to)
  {
    var mid := RunStore(map[], max, policy, before);
    KeysHistory(map[], max, policy, before, k);
    KeysHistory(mid, max, policy, inside, k);
    WindowBound(policy(k), EventsOf(map[], max, policy, before, k), EventsOf(mid, max, policy, inside, k), start, from, to);
  }

  // ------------------------------------------------------- what is always allowed

  /** In every interleaving, the requests of a key that find its row or room for one are all
      allowed as long as they stay within `burst + rps * T` in every window. */
  lemma SharedPacedAllowed(max: nat, policy: Key -> Policy, txns: seq<Txn>, k: Key, from: Time, to: Time)
    requires policy(k).Valid() && SaneRun(map[], max, policy, txns)
    requires var events := EventsOf(map[], max, policy, txns, k);
      Within(events, from, to) && Paced(policy(k), TouchTimes(events))
    ensures Granted(map[], max, policy, txns, k) == |TouchTimes(EventsOf(map[], max, policy, txns, k))|
  {
    KeysHistory(map[], max, policy, txns, k);
    PacedAreAllowed(policy(k), EventsOf(map[], max, policy, txns, k), from, to);
  }

  /** Whatever came before, a request of the key that finds its row, or room for one, at least
      1000000/rps microseconds after the last is allowed. */
  lemma SharedSpacedAllowed(max: nat, policy: Key -> Policy, txns: seq<Txn>, k: Key, doomed: set<Key>, cleanAt: Time, now: Time)
    requires policy(k).Valid() && SaneRun(map[], max, policy, txns)
    requires var rows := RunStore(map[], max, policy, txns);
      OnlyDead(rows, doomed, cleanAt) && (k in rows || |rows| < max || |rows - doomed| < max)
    requires var times := TouchTimes(EventsOf(map[], max, policy, txns, k));
      times != [] ==> (now - times[|times| - 1]) as real >= 1000000.0 / policy(k).rps
    ensures Grants(RunStore(map[], max, policy, txns), max, policy, Insert(k, doomed, cleanAt, now), k)
    ensures k in RunStore(map[], max, policy, txns) ==> Grants(RunStore(map[], max, policy, txns), max, policy, Existing(k, now), k)
  {
    var rows := RunStore(map[], max, policy, txns);
    KeysHistory(map[], max, policy, txns, k);
    SpacedIsAllowed(policy(k), EventsOf(map[], max, policy, txns, k), now);
    OneKeysView(rows, max, policy, Insert(k, doomed, cleanAt, now), k);
    OneKeysView(rows, max, policy, Existing(k, now), k);
  }

  // ------------------------------------------------------ and where it does not hold

  /** Requests of one key, at the times of some touches. */
  function Requests(k: Key, touches: seq<Event>): seq<Txn> {
    seq(|touches|, i requires 0 <= i < |touches| => Insert(k, {}, touches[i].now, touches[i].now))
  }

  /** Where the table has room for the key, any history of touches can happen to its row. */
  lemma {:induction false} AnyTouchesHappen(buckets: map<Key, Bucket>, max: nat, policy: Key -> Policy, k: Key, touches: seq<Event>)
    requires (k in buckets || |buckets| < max) && forall e :: e in touches ==> e.Touch?
    ensures SaneRun(buckets, max, policy, Requests(k, touches))
    ensures EventsOf(buckets, max, policy, Requests(k, touches), k) == touches
    decreases |touches|
  {
    if touches != [] {
      var txns := Requests(k, touches);
      assert touches[0] in touches && txns[0] == Insert(k, {}, touches[0].now, touches[0].now);
      assert txns[1..] == Requests(k, touches[1..]);
      AnyTouchesHappen(After(buckets, max, policy, txns[0]), max, policy, k, touches[1..]);
    }
  }

  /** A table that may hold no row grants nothing. */
  lemma {:induction false} NoRoom(policy: Key -> Policy, txns: seq<Txn>, k: Key)
    ensures Granted(map[], 0, policy, txns, k) == 0 && RunStore(map[], 0, policy, txns) == map[]
    decreases |txns|
  {
    if txns != [] {
      assert After(map[], 0, policy, txns[0]) == map[];
      NoRoom(policy, txns[1..], k);
    }
  }

  lemma SharedDoubleBurst(max: nat, policy: Key -> Policy, k: Key)
    requires policy(k).Valid() && max > 0
    ensures var inside, ttl := Requests(k, DoubleBurst(policy(k))), policy(k).ttl;
      History(max, policy, [], inside, k, 0, 0, ttl) && Granted(map[], max, policy, inside, k) == 2 * policy(k).burst
  {
    var p := policy(k);
    var inside := Requests(k, DoubleBurst(p));
    DoubleBurstAllowed(p);
    AnyTouchesHappen(map[], max, policy, k, DoubleBurst(p));
    KeysHistory(map[], max, policy, inside, k);
    assert Within([], 0, 0);
  }

  lemma NoRoomBounded(policy: Key -> Policy, before: seq<Txn>, inside: seq<Txn>, k: Key, from: Time, to: Time)
    requires policy(k).Valid() && from <= to
    ensures GrantsBounded(0, policy, before, inside, k, from, to)
  {
    NoRoom(policy, before, k);
    NoRoom(policy, inside, k);
    GainGrows(policy(k), 0, to - from);
  }

  lemma DoubleBurstUnbounded(max: nat, policy: Key -> Policy, k: Key)
    requires policy(k).Valid() && max > 0 && !policy(k).RefillsBeforeExpiry()
    ensures var inside := Requests(k, DoubleBurst(policy(k)));
      History(max, policy, [], inside, k, 0, 0, policy(k).ttl) && !GrantsBounded(max, policy, [], inside, k, 0, policy(k).ttl)
  {
    SharedDoubleBurst(max, policy, k);
  }

  lemma EitherBounded(max: nat, policy: Key -> Policy, before: seq<Txn>, inside: seq<Txn>, k: Key, start: Time, from: Time, to: Time)
    requires policy(k).Valid() && (max == 0 || policy(k).RefillsBeforeExpiry())
    requires History(max, policy, before, inside, k, start, from, to)
    ensures GrantsBounded(max, policy, before, inside, k, from, to)
  {
    if max == 0 {
      NoRoomBounded(policy, before, inside, k, from, to);
    } else {
      SharedWindowBound(max, policy, before, inside, k, start, from, to);
    }
  }

  /** The promise of the shared table, exactly: it holds for a key in every interleaving if
      and only if its idle bucket refills before it expires, or the table has no room at all. */
  lemma SharedBoundHoldsIff(max: nat, policy: Key -> Policy, k: Key)
    requires policy(k).Valid()
    ensures max == 0 || policy(k).ttl as real * policy(k).rps / 1000000.0 >= policy(k).burst as real <==>
      forall before, inside, start, from, to | History(max, policy, before, inside, k, start, from, to) ::
        GrantsBounded(max, policy, before, inside, k, from, to)
  {
    RefillsIs(policy(k));
    if max == 0 || policy(k).RefillsBeforeExpiry() {
      forall before, inside, start, from, to | History(max, policy, before, inside, k, start, from, to)
        ensures GrantsBounded(max, policy, before, inside, k, from, to)
      {
        EitherBounded(max, policy, before, inside, k, start, from, to);
      }
    } else {
      DoubleBurstUnbounded(max, policy, k);
    }
  }
}
