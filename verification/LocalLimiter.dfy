/**
  The in-process limiter cache: a map of limiters and a list of their keys, least recently
  seen first.
 */
module LocalLimiter {
  import opened Common

  /** A client key; only its identity matters. */
  type Key = Name

  /** A limiter is opaque: a number tells one from another. */
  datatype Entry = Entry(limiter: nat, lastSeen: Time)

  // ------------------------------------------------------------------ the list

  predicate Differ(order: seq<Key>, i: int, j: int) { 0 <= i < j < |order| ==> order[i] != order[j] }

  ghost predicate NoRepeats(order: seq<Key>) { forall i, j {:trigger Differ(order, i, j)} :: Differ(order, i, j) }

  function Find(order: seq<Key>, k: Key): (at: nat)
    requires k in order
    ensures at < |order| && order[at] == k
  {
    if order[0] == k then 0 else 1 + Find(order[1..], k)
  }

  function Cut(order: seq<Key>, at: nat): seq<Key>
    requires at < |order|
  {
    order[..at] + order[at + 1..]
  }

  function Removed(order: seq<Key>, k: Key): seq<Key> { if k in order then Cut(order, Find(order, k)) else order }

  predicate Older(entries: map<Key, Entry>, order: seq<Key>, i: int, j: int) {
    0 <= i < j < |order| && order[i] in entries && order[j] in entries ==>
      entries[order[i]].lastSeen <= entries[order[j]].lastSeen
  }

  /** From the least to the most recently seen. */
  ghost predicate ByAge(entries: map<Key, Entry>, order: seq<Key>) {
    forall i, j {:trigger Older(entries, order, i, j)} :: Older(entries, order, i, j)
  }

  /** Where entry i of the shortened list was. */
  function Shift(at: nat, i: int): int { if i < at then i else i + 1 }

  lemma CutIs(order: seq<Key>, at: nat)
    requires at < |order| && NoRepeats(order)
    ensures NoRepeats(Cut(order, at))
    ensures forall x :: x in Cut(order, at) <==> x in order && x != order[at]
  {
    var r := Cut(order, at);
    forall i, j ensures Differ(r, i, j) { assert Differ(order, Shift(at, i), Shift(at, j)); }
    forall x | x in order && x != order[at] ensures x in r {
      var i :| 0 <= i < |order| && order[i] == x;
      assert r[if i < at then i else i - 1] == x;
    }
    forall i | 0 <= i < |r| ensures r[i] in order && r[i] != order[at] {
      assert if i < at then Differ(order, i, at) else Differ(order, at, i + 1);
    }
  }

  lemma CutByAge(entries: map<Key, Entry>, order: seq<Key>, at: nat)
    requires at < |order| && ByAge(entries, order)
    ensures ByAge(entries, Cut(order, at))
  {
    forall i, j ensures Older(entries, Cut(order, at), i, j) { assert Older(entries, order, Shift(at, i), Shift(at, j)); }
  }

  /** Without k the list keeps its other keys, in their order. */
  lemma RemovedIs(order: seq<Key>, k: Key)
    requires NoRepeats(order)
    ensures NoRepeats(Removed(order, k))
    ensures forall x :: x in Removed(order, k) <==> x in order && x != k
  {
    if k in order { CutIs(order, Find(order, k)); }
  }

  lemma RemovedByAge(entries: map<Key, Entry>, order: seq<Key>, k: Key)
    requires ByAge(entries, order)
    ensures ByAge(entries, Removed(order, k))
  {
    if k in order { CutByAge(entries, order, Find(order, k)); }
  }

  lemma PushedNoRepeats(order: seq<Key>, k: Key)
    requires NoRepeats(order) && k !in order
    ensures NoRepeats(order + [k])
  {
    forall i, j ensures Differ(order + [k], i, j) { assert Differ(order, i, j); }
  }

  /** The youngest key goes to the back. */
  lemma PushedByAge(entries: map<Key, Entry>, order: seq<Key>, k: Key)
    requires ByAge(entries, order) && k in entries && forall x :: x in order && x in entries ==> entries[x].lastSeen <= entries[k].lastSeen
    ensures ByAge(entries, order + [k])
  {
    forall i, j ensures Older(entries, order + [k], i, j) {
      if 0 <= i < j < |order| { assert Older(entries, order, i, j); }
      else if 0 <= i < j == |order| { assert order[i] in order; }
    }
  }

  /** Ages of other keys do not matter. */
  lemma SameAges(a: map<Key, Entry>, b: map<Key, Entry>, order: seq<Key>)
    requires ByAge(a, order) && forall x :: x in order ==> x in a && (x in b ==> b[x] == a[x])
    ensures ByAge(b, order)
  {
    forall i, j ensures Older(b, order, i, j) { assert Older(a, order, i, j); }
  }

  function Live(entries: map<Key, Entry>, ttl: nat, now: Time): map<Key, Entry> {
    map k | k in entries && now - entries[k].lastSeen < ttl :: entries[k]
  }

  // ----------------------------------------------------------------- the cache

  class RateLimiter {
    const ttl: nat
    const maxEntries: nat
    var limiters: map<Key, Entry>
    var lastSeenOrder: seq<Key>
    var nextCleanup: Time
    var expiredEvicted: nat
    var capacityEvicted: nat
    var nextLimiter: nat
    ghost var clock: Time
    ghost var insertions: nat

    constructor (ttl: nat, maxEntries: nat, now: Time)
      requires ttl > 0 && maxEntries > 0
      ensures Valid() && clock == now && limiters == map[] && this.ttl == ttl && this.maxEntries == maxEntries
    {
      this.ttl, this.maxEntries := ttl, maxEntries;
      limiters, lastSeenOrder, nextCleanup := map[], [], now + ttl;
      expiredEvicted, capacityEvicted, nextLimiter, clock, insertions := 0, 0, 0, now, 0;
    }

    /** Map and list hold the same keys, ordered by last use. */
    ghost predicate InStep()
      reads this
    {
      && NoRepeats(lastSeenOrder) && (forall k :: k in lastSeenOrder <==> k in limiters)
      && ByAge(limiters, lastSeenOrder)
      && (forall k :: k in limiters ==> limiters[k].lastSeen <= clock && limiters[k].limiter < nextLimiter)
      && insertions == |limiters| + expiredEvicted + capacityEvicted
      && ttl > 0 && maxEntries > 0
    }

    /** The cache never holds more than its limit, and every insertion is live or was evicted
        for one of the two reasons. */
    ghost predicate Valid()
      reads this
    {
      InStep() && |limiters| <= maxEntries
    }

    method RemoveEntry(k: Key)
      requires InStep() && k in limiters
      modifies this`limiters, this`lastSeenOrder
      ensures limiters == old(limiters) - {k} && |limiters| == old(|limiters|) - 1
      ensures lastSeenOrder == Removed(old(lastSeenOrder), k)
      ensures NoRepeats(lastSeenOrder) && (forall x :: x in lastSeenOrder <==> x in limiters) && ByAge(limiters, lastSeenOrder)
    {
      RemovedIs(lastSeenOrder, k);
      RemovedByAge(limiters, lastSeenOrder, k);
      assert (limiters - {k}).Keys == limiters.Keys - {k};
      SameAges(limiters, limiters - {k}, Removed(lastSeenOrder, k));
      limiters := limiters - {k};
      lastSeenOrder := Removed(lastSeenOrder, k);
    }

    /** evictExpired: looking only at the front removes exactly the expired entries. */
    method EvictExpired(now: Time)
      requires InStep() && clock <= now
      modifies this`limiters, this`lastSeenOrder, this`expiredEvicted
      ensures InStep() && limiters == Live(old(limiters), ttl, now)
      ensures expiredEvicted == old(expiredEvicted) + (old(|limiters|) - |limiters|)
    {
      while |lastSeenOrder| > 0
        invariant InStep() && expiredEvicted == old(expiredEvicted) + (old(|limiters|) - |limiters|)
        invariant forall k :: k in limiters ==> k in old(limiters) && limiters[k] == old(limiters)[k]
        invariant forall k :: k in old(limiters) && k !in limiters ==> now - old(limiters)[k].lastSeen >= ttl
        decreases |lastSeenOrder|
      {
        var k := lastSeenOrder[0];
        if now - limiters[k].lastSeen < ttl {
          AllYounger(limiters, lastSeenOrder);
          return;
        }
        RemovedIs(lastSeenOrder, k);
        RemoveEntry(k);
        expiredEvicted := expiredEvicted + 1;
      }
      assert forall k :: k in limiters ==> k in lastSeenOrder;
    }

    /** evictOldest takes the least recently seen key. */
    method EvictOldest() returns (ghost victim: Key)
      requires InStep() && |limiters| > 0
      modifies this`limiters, this`lastSeenOrder, this`capacityEvicted
      ensures InStep() && victim in old(limiters) && limiters == old(limiters) - {victim}
      ensures |limiters| == old(|limiters|) - 1 && capacityEvicted == old(capacityEvicted) + 1
      ensures forall k :: k in limiters ==> old(limiters)[victim].lastSeen <= limiters[k].lastSeen
    {
      NotEmpty(limiters, lastSeenOrder);
      AllYounger(limiters, lastSeenOrder);
      var k := lastSeenOrder[0];
      victim := k;
      RemoveEntry(k);
      capacityEvicted := capacityEvicted + 1;
    }

    method CleanUpIfDue(now: Time)
      requires Valid() && clock <= now
      modifies this`limiters, this`lastSeenOrder, this`expiredEvicted, this`nextCleanup
      ensures Valid()
      ensures limiters == (if now < old(nextCleanup) then old(limiters) else Live(old(limiters), ttl, now))
      ensures nextCleanup == (if now < old(nextCleanup) then old(nextCleanup) else now + ttl)
    {
      if now >= nextCleanup {
        LiveIsFewer(limiters, ttl, now);
        EvictExpired(now);
        nextCleanup := now + ttl;
      }
    }

    /** The key was seen within the time to live. */
    ghost predicate Fresh(entries: map<Key, Entry>, k: Key, now: Time) { k in entries && now - entries[k].lastSeen < ttl }

    /** The entries that a call finds after its cleanup, if one was due. */
    function Kept(entries: map<Key, Entry>, due: Time, now: Time): map<Key, Entry> {
      if now < due then entries else Live(entries, ttl, now)
    }

    /** Room for a new entry of k: an expired one of its own goes, and at the cap the oldest. */
    method MakeRoom(k: Key, now: Time) returns (ghost victim: Option<Key>)
      requires Valid() && clock == now && !Fresh(limiters, k, now)
      modifies this`limiters, this`lastSeenOrder, this`expiredEvicted, this`capacityEvicted
      ensures InStep() && |limiters| < maxEntries && k !in limiters
      ensures forall x :: x in limiters ==> x in old(limiters) && limiters[x] == old(limiters)[x]
      ensures forall x :: x in old(limiters) && x !in limiters ==> x == k || victim == Some(x)
      ensures victim.Some? ==> victim.value in old(limiters) && victim.value != k
      ensures victim.Some? ==> forall x :: x in limiters ==> old(limiters)[victim.value].lastSeen <= limiters[x].lastSeen
      ensures capacityEvicted == old(capacityEvicted) + (if victim.Some? then 1 else 0)
      ensures victim.Some? <==> |old(limiters) - {k}| >= maxEntries
    {
      victim := None;
      if k in limiters {
        RemoveEntry(k);
        expiredEvicted := expiredEvicted + 1;
      }
      if |limiters| >= maxEntries {
        ghost var oldest := EvictOldest();
        victim := Some(oldest);
      }
    }

    /** The second half of getLimiter, for a key without a current limiter. */
    method Admit(k: Key, now: Time) returns (limiter: nat, ghost victim: Option<Key>)
      requires Valid() && clock == now && !Fresh(limiters, k, now)
      modifies this
      ensures Valid() && clock == now && nextCleanup == old(nextCleanup) && k in limiters && limiters[k] == Entry(limiter, now)
      ensures limiter == old(nextLimiter) && insertions == old(insertions) + 1
      ensures forall x :: x in limiters && x != k ==> x in old(limiters) && limiters[x] == old(limiters)[x]
      ensures forall x :: x in old(limiters) && x !in limiters ==> x == k || victim == Some(x)
      ensures victim.Some? ==> victim.value in old(limiters) && victim.value != k
      ensures victim.Some? ==> forall x :: x in old(limiters) && x != k ==> old(limiters)[victim.value].lastSeen <= old(limiters)[x].lastSeen
      ensures capacityEvicted == old(capacityEvicted) + (if victim.Some? then 1 else 0)
      ensures victim.Some? <==> |old(limiters) - {k}| >= maxEntries
    {
      victim := MakeRoom(k, now);
      limiter := nextLimiter;
      Insert(k, now);
    }

    /** getLimiter, under a clock that does not run backwards: a key seen within the time to
        live keeps its limiter, any other key gets a new one; an entry that has not expired
        leaves the cache only as the least recently seen of a full one. */
    method GetLimiter(k: Key, now: Time) returns (limiter: nat, ghost victim: Option<Key>)
      requires Valid() && clock <= now
      modifies this
      ensures Valid() && clock == now && k in limiters && limiters[k] == Entry(limiter, now)
      ensures Fresh(old(limiters), k, now) ==>
        limiter == old(limiters)[k].limiter && victim.None? && insertions == old(insertions)
      ensures !Fresh(old(limiters), k, now) ==> limiter == old(nextLimiter) && insertions == old(insertions) + 1
      ensures forall x :: x in limiters && x != k ==> x in old(limiters) && limiters[x] == old(limiters)[x]
      ensures forall x :: x in old(limiters) && x !in limiters ==> !Fresh(old(limiters), x, now) || victim == Some(x)
      ensures victim.Some? ==> victim.value in old(limiters)
      ensures victim.Some? ==> forall x :: x in limiters && x != k ==> old(limiters)[victim.value].lastSeen <= limiters[x].lastSeen
      ensures capacityEvicted == old(capacityEvicted) + (if victim.Some? then 1 else 0)
      ensures victim.Some? <==> !Fresh(old(limiters), k, now) && |Kept(old(limiters), old(nextCleanup), now) - {k}| >= maxEntries
      ensures victim.Some? && Fresh(old(limiters), victim.value, now) ==> |Live(old(limiters), ttl, now)| >= maxEntries
    {
      CleanUpIfDue(now);
      clock := now;
      if k in limiters && now - limiters[k].lastSeen < ttl {
        limiter, victim := limiters[k].limiter, None;
        Touch(k, now);
        return;
      }
      ghost var kept := limiters;
      assert kept == Kept(old(limiters), old(nextCleanup), now);
      assert forall x :: x in old(limiters) && x !in kept ==> !Fresh(old(limiters), x, now);
      limiter, victim := Admit(k, now);
      assert victim.Some? && Fresh(old(limiters), victim.value, now) ==> |Live(old(limiters), ttl, now)| >= maxEntries by {
        if victim.Some? && Fresh(old(limiters), victim.value, now) { AllLive(old(limiters), kept, k, victim.value, ttl, now); }
      }
    }

    /** An entry that is seen again moves to the back. */
    method Touch(k: Key, now: Time)
      requires Valid() && clock == now && k in limiters
      modifies this`limiters, this`lastSeenOrder
      ensures Valid() && limiters == old(limiters)[k := old(limiters)[k].(lastSeen := now)]
      ensures lastSeenOrder == Removed(old(lastSeenOrder), k) + [k]
    {
      RemovedIs(lastSeenOrder, k);
      RemovedByAge(limiters, lastSeenOrder, k);
      Pushed(limiters, Removed(lastSeenOrder, k), k, limiters[k].(lastSeen := now));
      limiters := limiters[k := limiters[k].(lastSeen := now)];
      lastSeenOrder := Removed(lastSeenOrder, k) + [k];
      assert limiters.Keys == old(limiters).Keys;
    }

    method Insert(k: Key, now: Time)
      requires InStep() && |limiters| < maxEntries && clock == now && k !in limiters
      modifies this`limiters, this`lastSeenOrder, this`nextLimiter, this`insertions
      ensures Valid() && limiters == old(limiters)[k := Entry(old(nextLimiter), now)]
      ensures lastSeenOrder == old(lastSeenOrder) + [k] && insertions == old(insertions) + 1
    {
      Pushed(limiters, lastSeenOrder, k, Entry(nextLimiter, now));
      limiters := limiters[k := Entry(nextLimiter, now)];
      lastSeenOrder := lastSeenOrder + [k];
      nextLimiter := nextLimiter + 1;
      insertions := insertions + 1;
      assert limiters.Keys == old(limiters).Keys + {k};
    }
  }

  /** A key written last, with the latest time, goes to the back of a list without it. */
  lemma Pushed(entries: map<Key, Entry>, order: seq<Key>, k: Key, e: Entry)
    requires NoRepeats(order) && ByAge(entries, order) && k !in order
    requires forall x :: x in order ==> x in entries && entries[x].lastSeen <= e.lastSeen
    ensures NoRepeats(order + [k]) && ByAge(entries[k := e], order + [k])
    ensures forall x :: x in order + [k] <==> x in order || x == k
  {
    SameAges(entries, entries[k := e], order);
    PushedByAge(entries[k := e], order, k);
    PushedNoRepeats(order, k);
  }

  /** Where the oldest entry that remains has not expired, none of the others has. */
  lemma AllLive(entries: map<Key, Entry>, kept: map<Key, Entry>, k: Key, victim: Key, ttl: nat, now: Time)
    requires kept == entries || kept == Live(entries, ttl, now)
    requires victim in kept && victim != k && now - kept[victim].lastSeen < ttl
    requires forall x :: x in kept && x != k ==> kept[victim].lastSeen <= kept[x].lastSeen
    ensures |Live(entries, ttl, now)| >= |kept - {k}|
  {
    var live, rest := Live(entries, ttl, now).Keys, (kept - {k}).Keys;
    assert live == rest + (live - rest);
  }

  lemma NotEmpty(entries: map<Key, Entry>, order: seq<Key>)
    requires |entries| > 0 && forall k :: k in order <==> k in entries
    ensures order != []
  {
    var k :| k in entries.Keys;
    assert k in order;
  }

  /** No key is older than the front of the list. */
  lemma AllYounger(entries: map<Key, Entry>, order: seq<Key>)
    requires order != [] && ByAge(entries, order) && forall k :: k in order <==> k in entries
    ensures forall k :: k in entries ==> entries[order[0]].lastSeen <= entries[k].lastSeen
  {
    forall k | k in entries ensures entries[order[0]].lastSeen <= entries[k].lastSeen {
      var i :| 0 <= i < |order| && order[i] == k;
      assert Older(entries, order, 0, i);
    }
  }

  lemma LiveIsFewer(entries: map<Key, Entry>, ttl: nat, now: Time)
    ensures |Live(entries, ttl, now)| <= |entries|
  {
    var a, b := Live(entries, ttl, now).Keys, entries.Keys;
    assert b == a + (b - a);
  }
}
