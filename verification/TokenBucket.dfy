/** One row of the shared rate limiter: a token bucket that expires. */
module TokenBucket {
  import opened Common

  /** Requests per second, burst, and time to live in microseconds. */
  datatype Policy = Policy(rps: real, burst: nat, ttl: nat)
  {
    predicate Valid() { rps > 0.0 && burst > 0 && ttl > 0 }

    /** Tokens gained in some microseconds. */
    function Gain(micros: nat): real { micros as real * rps / 1000000.0 }

    /** An idle bucket is full again by the time it expires. */
    predicate RefillsBeforeExpiry() { Gain(ttl) >= burst as real }
  }

  datatype Bucket = Bucket(tokens: real, lastRefill: Time, expires: Time, lastAllowed: bool)

  function Least(a: real, b: real): real { if a <= b then a else b }

  function Elapsed(b: Bucket, now: Time): nat { if now >= b.lastRefill then now - b.lastRefill else 0 }

  function Refilled(p: Policy, b: Bucket, now: Time): real {
    Least(p.burst as real, b.tokens + p.Gain(Elapsed(b, now)))
  }

  predicate Expired(b: Bucket, now: Time) { b.expires <= now }

  /** What one request makes of its row, all columns at once. */
  function Updated(p: Policy, b: Bucket, now: Time): Bucket {
    var refilled := Refilled(p, b, now);
    Bucket(
      if Expired(b, now) then p.burst as real - 1.0
      else refilled - (if refilled >= 1.0 then 1.0 else 0.0),
      now, now + p.ttl, Expired(b, now) || refilled >= 1.0)
  }

  function Inserted(p: Policy, now: Time): Bucket { Bucket(p.burst as real - 1.0, now, now + p.ttl, true) }

  /** The row as the database updates it: column by column, left to right, each assignment
      seeing the ones before it. */
  class Row {
    var lastAllowed: bool
    var tokens: real
    var lastRefill: Time
    var expires: Time

    function Value(): Bucket
      reads this
    {
      Bucket(tokens, lastRefill, expires, lastAllowed)
    }

    method Update(p: Policy, now: Time)
      modifies this
      ensures Value() == Updated(p, old(Value()), now)
    {
      lastAllowed := expires <= now || Least(p.burst as real, tokens + p.Gain(Elapsed(Value(), now))) >= 1.0;
      tokens :=
        if expires <= now then p.burst as real - 1.0
        else Least(p.burst as real, tokens + p.Gain(Elapsed(Value(), now)))
             - (if Least(p.burst as real, tokens + p.Gain(Elapsed(Value(), now))) >= 1.0 then 1.0 else 0.0);
      lastRefill := now;
      expires := now + p.ttl;
    }
  }

  // ------------------------------------------------------ the life of one key

  /** What can happen to the row of a key: a request that reaches it, a cleanup pass. A
      request refused for want of room leaves it alone. */
  datatype Event = Touch(now: Time) | Purge(now: Time)

  function Step(p: Policy, row: Option<Bucket>, e: Event): Option<Bucket> {
    match e
    case Touch(now) => Some(if row.Some? then Updated(p, row.value, now) else Inserted(p, now))
    case Purge(now) => if row.Some? && Expired(row.value, now) then None else row
  }

  predicate Allows(p: Policy, row: Option<Bucket>, e: Event) {
    match e
    case Touch(now) => row.None? || Updated(p, row.value, now).lastAllowed
    case _ => false
  }

  function Runs(p: Policy, row: Option<Bucket>, events: seq<Event>): Option<Bucket>
    decreases |events|
  {
    if events == [] then row else Runs(p, Step(p, row, events[0]), events[1..])
  }

  function Allowed(p: Policy, row: Option<Bucket>, events: seq<Event>): nat
    decreases |events|
  {
    if events == [] then 0
    else (if Allows(p, row, events[0]) then 1 else 0) + Allowed(p, Step(p, row, events[0]), events[1..])
  }

  /** The database clock does not run backwards, and the events lie between two instants. */
  predicate Within(events: seq<Event>, from: Time, to: Time)
    decreases |events|
  {
    if events == [] then from <= to else from <= events[0].now && Within(events[1..], events[0].now, to)
  }

  // ------------------------------------------------------------------ the bound

  /** Rows as the transactions write them, at some time before `now`. */
  predicate RowOk(p: Policy, row: Option<Bucket>, now: Time) {
    row.Some? ==>
      && 0.0 <= row.value.tokens <= p.burst as real
      && row.value.lastRefill <= now && row.value.expires == row.value.lastRefill + p.ttl
  }

  /** Tokens a request could draw on: a missing or expired row counts as a full one. */
  function Available(p: Policy, row: Option<Bucket>, now: Time): real {
    if row.None? || Expired(row.value, now) then p.burst as real else Refilled(p, row.value, now)
  }

  lemma GainAdds(p: Policy, a: nat, b: nat)
    requires p.Valid()
    ensures p.Gain(a + b) == p.Gain(a) + p.Gain(b)
  {
  }

  lemma GainGrows(p: Policy, a: nat, b: nat)
    requires p.Valid() && a <= b
    ensures 0.0 <= p.Gain(a) <= p.Gain(b)
  {
    assert b as real * p.rps == a as real * p.rps + (b - a) as real * p.rps;
    assert 0.0 <= (b - a) as real * p.rps && 0.0 <= a as real * p.rps;
  }

  /** Expiry is indistinguishable from a full refill. */
  lemma ExpiredIsFull(p: Policy, b: Bucket, now: Time)
    requires p.Valid() && p.RefillsBeforeExpiry() && RowOk(p, Some(b), now) && Expired(b, now)
    ensures Refilled(p, b, now) == p.burst as real
  {
    GainGrows(p, p.ttl, Elapsed(b, now));
  }

  lemma AvailableGrows(p: Policy, row: Option<Bucket>, from: Time, to: Time)
    requires p.Valid() && p.RefillsBeforeExpiry() && RowOk(p, row, from) && from <= to
    ensures Available(p, row, to) <= Available(p, row, from) + p.Gain(to - from)
    ensures 0.0 <= Available(p, row, to) <= p.burst as real
  {
    GainGrows(p, 0, to - from);
    if row.Some? {
      var b := row.value;
      GainAdds(p, Elapsed(b, from), to - from);
      GainGrows(p, 0, Elapsed(b, from));
      if Expired(b, to) { ExpiredIsFull(p, b, to); }
    }
  }

  /** An allowed request takes one token; nothing else takes or gives any. */
  lemma StepTakes(p: Policy, row: Option<Bucket>, e: Event)
    requires p.Valid() && p.RefillsBeforeExpiry() && RowOk(p, row, e.now)
    ensures RowOk(p, Step(p, row, e), e.now)
    ensures Available(p, Step(p, row, e), e.now) + (if Allows(p, row, e) then 1.0 else 0.0) <= Available(p, row, e.now)
  {
    GainGrows(p, 0, 0);
    if row.Some? {
      GainGrows(p, 0, Elapsed(row.value, e.now));
      if Expired(row.value, e.now) { ExpiredIsFull(p, row.value, e.now); }
    }
  }

  lemma {:induction false} AllowedBound(p: Policy, row: Option<Bucket>, events: seq<Event>, from: Time, to: Time)
    requires p.Valid() && p.RefillsBeforeExpiry() && RowOk(p, row, from) && Within(events, from, to) && from <= to
    ensures Allowed(p, row, events) as real <= Available(p, row, from) + p.Gain(to - from)
    decreases |events|
  {
    if events == [] {
      AvailableGrows(p, row, from, from);
      GainGrows(p, 0, to - from);
    } else {
      var e := events[0];
      InOrder(events[1..], e.now, to);
      AvailableGrows(p, row, from, e.now);
      StepTakes(p, row, e);
      AllowedBound(p, Step(p, row, e), events[1..], e.now, to);
      GainAdds(p, e.now - from, to - e.now);
    }
  }

  lemma {:induction false} InOrder(events: seq<Event>, from: Time, to: Time)
    requires Within(events, from, to)
    ensures from <= to
    decreases |events|
  {
    if events != [] { InOrder(events[1..], events[0].now, to); }
  }

  /** A window of a history: some events go before it, all in clock order. */
  ghost predicate Window(before: seq<Event>, inside: seq<Event>, start: Time, from: Time, to: Time) {
    Within(before, start, from) && Within(inside, from, to)
  }

  lemma {:induction false} RowsStayOk(p: Policy, row: Option<Bucket>, events: seq<Event>, from: Time, to: Time)
    requires p.Valid() && p.RefillsBeforeExpiry() && RowOk(p, row, from) && Within(events, from, to)
    ensures RowOk(p, Runs(p, row, events), to)
    decreases |events|
  {
    if events != [] {
      StepTakes(p, row, events[0]);
      RowsStayOk(p, Step(p, row, events[0]), events[1..], events[0].now, to);
    }
  }

  /** The requests allowed in the window. */
  ghost function AllowedInside(p: Policy, before: seq<Event>, inside: seq<Event>): nat {
    Allowed(p, Runs(p, None, before), inside)
  }

  ghost predicate Bounded(p: Policy, before: seq<Event>, inside: seq<Event>, from: Time, to: Time)
    requires from <= to
  {
    AllowedInside(p, before, inside) as real <= p.burst as real + (to - from) as real * p.rps / 1000000.0
  }

  lemma WindowBound(p: Policy, before: seq<Event>, inside: seq<Event>, start: Time, from: Time, to: Time)
    requires p.Valid() && p.RefillsBeforeExpiry() && Window(before, inside, start, from, to) && from <= to
    ensures Bounded(p, before, inside, from, to)
  {
    RowsStayOk(p, None, before, start, from);
    var row := Runs(p, None, before);
    AllowedBound(p, row, inside, from, to);
    AvailableGrows(p, row, from, from);
  }

  // ----------------------------------------------------- what is always allowed

  /** When the requests of a history reached the row. */
  function TouchTimes(events: seq<Event>): seq<Time> {
    if events == [] then []
    else (if events[0].Touch? then [events[0].now] else []) + TouchTimes(events[1..])
  }

  /** In no window are there more requests than `burst + rps * T`. */
  ghost predicate Paced(p: Policy, times: seq<Time>) {
    forall i, j :: 0 <= i <= j < |times| ==>
      (j - i + 1) as real <= p.burst as real + (times[j] - times[i]) as real * p.rps / 1000000.0
  }

  predicate Ascending(times: seq<Time>) { forall i, j :: 0 <= i <= j < |times| ==> times[i] <= times[j] }

  /** The row holds what the requests since one of them have left of a full bucket. */
  ghost predicate Backed(p: Policy, row: Option<Bucket>, past: seq<Time>) {
    row.Some? ==>
      && past != [] && row.value.lastRefill == past[|past| - 1] && row.value.expires == row.value.lastRefill + p.ttl
      && exists i :: 0 <= i < |past| && LeftSince(p, row.value, past, i)
  }

  predicate LeftSince(p: Policy, b: Bucket, past: seq<Time>, i: nat)
    requires i < |past|
  {
    past[i] <= past[|past| - 1] && b.tokens >= p.burst as real + p.Gain(past[|past| - 1] - past[i]) - (|past| - i) as real
  }

  lemma TouchBacked(p: Policy, row: Option<Bucket>, past: seq<Time>, now: Time)
    requires p.Valid() && Backed(p, row, past) && Ascending(past + [now]) && Paced(p, past + [now])
    ensures Allows(p, row, Touch(now)) && Backed(p, Step(p, row, Touch(now)), past + [now])
  {
    var all, n := past + [now], |past|;
    assert all[n] == now;
    var after := Step(p, row, Touch(now)).value;
    if row.None? || Expired(row.value, now) || Refilled(p, row.value, now) == p.burst as real {
      assert LeftSince(p, after, all, n) by { assert p.Gain(0) == 0.0; }
    } else {
      var i :| 0 <= i < n && LeftSince(p, row.value, past, i);
      assert all[i] == past[i] && all[n - 1] == past[n - 1] && past[n - 1] <= now;
      GainAdds(p, past[n - 1] - past[i], now - past[n - 1]);
      assert (n - i + 1) as real <= p.burst as real + p.Gain(now - past[i]);
      assert LeftSince(p, after, all, i);
    }
  }

  lemma PacedPart(p: Policy, a: seq<Time>, b: seq<Time>)
    requires Paced(p, a + b)
    ensures Paced(p, a)
  {
    forall i, j | 0 <= i <= j < |a| ensures (j - i + 1) as real <= p.burst as real + (a[j] - a[i]) as real * p.rps / 1000000.0 {
      assert a[i] == (a + b)[i] && a[j] == (a + b)[j];
    }
  }

  lemma {:induction false} PacedFrom(p: Policy, row: Option<Bucket>, past: seq<Time>, events: seq<Event>, from: Time, to: Time)
    requires p.Valid() && Backed(p, row, past) && Within(events, from, to)
    requires Ascending(past) && (past != [] ==> past[|past| - 1] <= from)
    requires Paced(p, past + TouchTimes(events))
    ensures Allowed(p, row, events) == |TouchTimes(events)|
    decreases |events|
  {
    if events != [] {
      var e, rest := events[0], events[1..];
      if e.Touch? {
        var next := past + [e.now];
        assert past + TouchTimes(events) == next + TouchTimes(rest);
        PacedPart(p, next, TouchTimes(rest));
        TouchBacked(p, row, past, e.now);
        PacedFrom(p, Step(p, row, e), next, rest, e.now, to);
      } else {
        assert TouchTimes(events) == TouchTimes(rest);
        PacedFrom(p, Step(p, row, e), past, rest, e.now, to);
      }
    }
  }

  /** Requests that stay within `burst + rps * T` in every window are all allowed, whatever
      the cleanup does in between. */
  lemma PacedAreAllowed(p: Policy, events: seq<Event>, from: Time, to: Time)
    requires p.Valid() && Within(events, from, to) && Paced(p, TouchTimes(events))
    ensures Allowed(p, None, events) == |TouchTimes(events)|
  {
    assert [] + TouchTimes(events) == TouchTimes(events);
    PacedFrom(p, None, [], events, from, to);
  }

  /** The row after a history: some tokens, last refilled by the last request. */
  ghost predicate LastTouched(p: Policy, row: Option<Bucket>, past: seq<Time>) {
    row.Some? ==> past != [] && row.value.lastRefill == past[|past| - 1] && row.value.tokens >= 0.0
  }

  lemma {:induction false} RunsLastTouched(p: Policy, row: Option<Bucket>, past: seq<Time>, events: seq<Event>)
    requires p.Valid() && LastTouched(p, row, past)
    ensures LastTouched(p, Runs(p, row, events), past + TouchTimes(events))
    decreases |events|
  {
    if events == [] {
      assert past + TouchTimes(events) == past;
    } else {
      var e, rest := events[0], events[1..];
      var next := if e.Touch? then past + [e.now] else past;
      assert past + TouchTimes(events) == next + TouchTimes(rest);
      if row.Some? { GainGrows(p, 0, Elapsed(row.value, e.now)); }
      RunsLastTouched(p, Step(p, row, e), next, rest);
    }
  }

  /** Whatever came before, a request at least 1000000/rps microseconds after the last one
      that reached the row is allowed. */
  lemma SpacedIsAllowed(p: Policy, before: seq<Event>, now: Time)
    requires p.Valid()
    requires var times := TouchTimes(before); times != [] ==> (now - times[|times| - 1]) as real >= 1000000.0 / p.rps
    ensures Allows(p, Runs(p, None, before), Touch(now))
  {
    var row, times := Runs(p, None, before), TouchTimes(before);
    assert [] + times == times;
    RunsLastTouched(p, None, [], before);
    if row.Some? { OneToken(p, now - times[|times| - 1]); }
  }

  /** A clock that has not moved on, or has run backwards, gives no tokens. */
  lemma NoTimeNoTokens(p: Policy, b: Bucket, now: Time)
    requires p.Valid() && now <= b.lastRefill && now < b.expires && 0.0 <= b.tokens <= p.burst as real
    ensures Updated(p, b, now).lastAllowed <==> b.tokens >= 1.0
    ensures Updated(p, b, now).tokens == if b.tokens >= 1.0 then b.tokens - 1.0 else b.tokens
  {
    assert p.Gain(0) == 0.0;
  }

  lemma OneToken(p: Policy, wait: int)
    requires p.Valid() && wait as real >= 1000000.0 / p.rps
    ensures wait >= 0 && p.Gain(wait) >= 1.0
  {
    assert 1000000.0 / p.rps * p.rps == 1000000.0;
    var w := wait as real;
    assert w * p.rps >= 1000000.0 by { assert (w - 1000000.0 / p.rps) * p.rps >= 0.0; }
  }

  // ---------------------------------------------------- and where it does not hold

  function Touches(n: nat, now: Time): seq<Event> { seq(n, i => Touch(now)) }

  lemma {:induction false} TouchesWithin(n: nat, now: Time, from: Time, to: Time)
    requires from <= now <= to
    ensures Within(Touches(n, now), from, to)
    decreases n
  {
    if n > 0 {
      assert Touches(n, now)[1..] == Touches(n - 1, now);
      TouchesWithin(n - 1, now, now, to);
    }
  }

  /** A bucket with n whole tokens allows n requests at once. */
  lemma {:induction false} SpendAll(p: Policy, b: Bucket, n: nat, now: Time)
    requires p.Valid() && b.tokens == n as real && n <= p.burst && b.lastRefill == now && b.expires == now + p.ttl
    ensures Allowed(p, Some(b), Touches(n, now)) == n
    ensures Runs(p, Some(b), Touches(n, now)).Some?
    ensures var r := Runs(p, Some(b), Touches(n, now)).value; r.lastRefill == now && r.expires == now + p.ttl
    decreases n
  {
    if n > 0 {
      assert Touches(n, now)[1..] == Touches(n - 1, now);
      GainGrows(p, 0, 0);
      SpendAll(p, Updated(p, b, now), n - 1, now);
    }
  }

  lemma {:induction false} AllowedAppend(p: Policy, row: Option<Bucket>, a: seq<Event>, b: seq<Event>)
    ensures Allowed(p, row, a + b) == Allowed(p, row, a) + Allowed(p, Runs(p, row, a), b)
    decreases |a|
  {
    if a == [] { assert a + b == b; }
    else {
      assert (a + b)[1..] == a[1..] + b && (a + b)[0] == a[0];
      AllowedAppend(p, Step(p, row, a[0]), a[1..], b);
    }
  }

  lemma {:induction false} WithinAppend(a: seq<Event>, b: seq<Event>, from: Time, mid: Time, to: Time)
    requires Within(a, from, mid) && Within(b, mid, to)
    ensures Within(a + b, from, to)
    decreases |a|
  {
    InOrder(b, mid, to);
    if a == [] {
      assert a + b == b;
      InOrder(a, from, mid);
    } else {
      assert (a + b)[1..] == a[1..] + b && (a + b)[0] == a[0];
      WithinAppend(a[1..], b, a[0].now, mid, to);
    }
  }

  /** A full burst at one instant, and another as soon as the row has expired. */
  function DoubleBurst(p: Policy): seq<Event> { Touches(p.burst, 0) + Touches(p.burst, p.ttl) }

  lemma DoubleBurstAllowed(p: Policy)
    requires p.Valid()
    ensures Within(DoubleBurst(p), 0, p.ttl) && Allowed(p, None, DoubleBurst(p)) == 2 * p.burst
  {
    var first, second := Touches(p.burst, 0), Touches(p.burst, p.ttl);
    TouchesWithin(p.burst, 0, 0, p.ttl);
    TouchesWithin(p.burst, p.ttl, p.ttl, p.ttl);
    TouchesWithin(p.burst, 0, 0, p.ttl);
    WithinAppend(first, second, 0, p.ttl, p.ttl);
    assert first[1..] == Touches(p.burst - 1, 0) && second[1..] == Touches(p.burst - 1, p.ttl);
    SpendAll(p, Inserted(p, 0), p.burst - 1, 0);
    var row := Runs(p, None, first);
    assert row == Runs(p, Some(Inserted(p, 0)), first[1..]);
    SpendAll(p, Updated(p, row.value, p.ttl), p.burst - 1, p.ttl);
    AllowedAppend(p, None, first, second);
  }

  /** The promise of the limiter, exactly: every window of every history of a key allows at
      most `burst + rps * T` requests if and only if an idle bucket refills before it
      expires. */
  lemma BoundHoldsIff(p: Policy)
    requires p.Valid()
    ensures p.ttl as real * p.rps / 1000000.0 >= p.burst as real <==>
      forall before, inside, start, from, to | Window(before, inside, start, from, to) && from <= to ::
        Bounded(p, before, inside, from, to)
  {
    RefillsIs(p);
    if p.RefillsBeforeExpiry() {
      forall before, inside, start, from, to | Window(before, inside, start, from, to) && from <= to
        ensures Bounded(p, before, inside, from, to)
      {
        WindowBound(p, before, inside, start, from, to);
      }
    } else {
      DoubleBurstBreaks(p);
    }
  }

  lemma RefillsIs(p: Policy)
    ensures p.RefillsBeforeExpiry() <==> p.ttl as real * p.rps / 1000000.0 >= p.burst as real
  {
  }

  lemma DoubleBurstBreaks(p: Policy)
    requires p.Valid() && !p.RefillsBeforeExpiry()
    ensures Window([], DoubleBurst(p), 0, 0, p.ttl) && !Bounded(p, [], DoubleBurst(p), 0, p.ttl)
  {
    DoubleBurstAllowed(p);
    assert Within([], 0, 0);
  }
}
