/** Subscription time arithmetic: activity, interval, deadline, completion, and the
    response counts a `Subscription` object updates (src/shared/subscription.py). */
module Subscriptions {

  /** The immutable parameters of a subscription that its time arithmetic and the processor
      read.  All are unsigned on chain. */
  datatype Terms = Terms(
    activeAt: nat,
    period: nat,
    frequency: nat,
    redundancy: nat,
    paymentAmount: nat,
    requiresProof: bool)

  predicate IsCallback(t: Terms) { t.period == 0 }

  predicate ProvidesPayment(t: Terms) { t.paymentAmount > 0 }

  /** `time.time() > active_at`: strict, and on the untruncated clock. */
  predicate Active(t: Terms, now: real) { now > t.activeAt as real }

  /** The current interval; the source raises when the subscription is inactive.  The clock
      is truncated to seconds first, and is positive because the subscription is active. */
  function Interval(t: Terms, now: real): int
    requires Active(t, now)
  {
    if t.period == 0 then 1 else (now.Floor - t.activeAt) / t.period + 1
  }

  predicate PastLastInterval(t: Terms, now: real) {
    Active(t, now) && Interval(t, now) > t.frequency
  }

  predicate LastInterval(t: Terms, now: real) {
    Active(t, now) && Interval(t, now) == t.frequency
  }

  // ---------------------------------------------------------------- interval arithmetic

  /** Second `sec` lies in the half-open window that interval `k` covers. */
  predicate InWindow(t: Terms, k: int, sec: int) {
    t.activeAt + (k - 1) * t.period <= sec < t.activeAt + k * t.period
  }

  lemma {:induction false} FloorMonotone(a: real, b: real)
    requires a <= b
    ensures a.Floor <= b.Floor
  {
    assert a.Floor as real <= a;
    assert b < b.Floor as real + 1.0;
  }

  lemma {:induction false} ActiveFloor(t: Terms, now: real)
    requires Active(t, now)
    ensures now.Floor >= t.activeAt
  {
    assert now < now.Floor as real + 1.0;
  }

  lemma {:induction false} DivWindow(x: int, p: int)
    requires p > 0
    ensures x / p * p <= x < (x / p + 1) * p
  {
    assert x == p * (x / p) + x % p;
  }

  lemma {:induction false} MulLess(a: int, b: int, p: int)
    requires p > 0 && a < b
    ensures a * p + p <= b * p
    decreases b - a
  {
    assert b * p == (b - 1) * p + p;
    if a < b - 1 {
      MulLess(a, b - 1, p);
    }
  }

  /** For a recurring subscription the interval is the one and only window that contains
      the truncated clock, and windows are numbered from 1. */
  lemma {:induction false} IntervalIsUniqueWindow(t: Terms, now: real, k: int)
    requires Active(t, now) && t.period > 0
    ensures InWindow(t, k, now.Floor) <==> k == Interval(t, now)
    ensures InWindow(t, k, now.Floor) ==> k >= 1
  {
    ActiveFloor(t, now);
    var x, p := now.Floor - t.activeAt, t.period;
    DivWindow(x, p);
    var q := x / p;
    if k - 1 < q {
      MulLess(k - 1, q, p);
    } else if q < k - 1 {
      MulLess(q, k - 1, p);
    }
    assert k * p == (k - 1) * p + p;
    assert (q + 1) * p == q * p + p;
  }

  /** Time never takes a subscription back: it stays active and its interval never falls. */
  lemma {:induction false} IntervalMonotone(t: Terms, a: real, b: real)
    requires a <= b && Active(t, a)
    ensures Active(t, b) && Interval(t, a) <= Interval(t, b)
  {
    if t.period > 0 {
      FloorMonotone(a, b);
      IntervalIsUniqueWindow(t, a, Interval(t, a));
      IntervalIsUniqueWindow(t, b, Interval(t, b));
      var ia, ib := Interval(t, a), Interval(t, b);
      assert ib * t.period == (ib - 1) * t.period + t.period;
      if ib < ia {
        MulLess(ib - 1, ia - 1, t.period);
      }
    }
  }

  /** Interval k of a recurring subscription has been reached at these seconds. */
  lemma {:induction false} IntervalReached(t: Terms, now: real, k: int)
    requires Active(t, now) && t.period > 0
    ensures k <= Interval(t, now) <==> now.Floor >= t.activeAt + (k - 1) * t.period
  {
    var q := Interval(t, now);
    IntervalIsUniqueWindow(t, now, q);
    if k < q {
      MulLess(k - 1, q - 1, t.period);
    } else if q < k {
      if q < k - 1 { MulLess(q, k - 1, t.period); }
    }
  }

  /** The deadline of a recurring subscription in seconds: it has expired exactly when the
      truncated clock has reached `active_at + frequency * period`.  With frequency 0 the
      deadline is the activation time itself, where the strict activity test still counts. */
  lemma {:induction false} PastLastIsDeadline(t: Terms, now: real)
    requires t.period > 0
    ensures PastLastInterval(t, now)
       <==> Active(t, now) && now.Floor >= t.activeAt + t.frequency * t.period
    ensures t.frequency >= 1 ==>
      (PastLastInterval(t, now) <==> now.Floor >= t.activeAt + t.frequency * t.period)
  {
    if Active(t, now) {
      var k := Interval(t, now);
      IntervalIsUniqueWindow(t, now, k);
      if k > t.frequency {
        if t.frequency < k - 1 { MulLess(t.frequency, k - 1, t.period); }
      } else if k < t.frequency {
        MulLess(k, t.frequency, t.period);
      }
    } else if t.frequency >= 1 {
      assert now.Floor as real <= now;
      assert now.Floor <= t.activeAt;
      MulLess(0, t.frequency, t.period);
    }
  }

  /** Once expired, always expired. */
  lemma {:induction false} PastLastIsPermanent(t: Terms, a: real, b: real)
    requires a <= b && PastLastInterval(t, a)
    ensures PastLastInterval(t, b)
  {
    IntervalMonotone(t, a, b);
  }

  /** A callback expires at some time if and only if its frequency is 0. */
  lemma {:induction false} CallbackExpiresOnlyWithoutFrequency(t: Terms)
    requires IsCallback(t)
    ensures (exists now: real :: PastLastInterval(t, now)) <==> t.frequency == 0
  {
    if t.frequency == 0 {
      var now := t.activeAt as real + 1.0;
      assert PastLastInterval(t, now);
    }
  }

  // ------------------------------------------------------- response counts and completion

  datatype Outcome = Done | RuntimeError

  /** The response counts of a subscription, by interval. */
  datatype Record = Record(responses: map<int, int>)

  function ResponseCount(r: Record, interval: int): int {
    if interval in r.responses then r.responses[interval] else 0
  }

  /** On (or past) the last interval, with the full redundancy received in that interval. */
  predicate Completed(t: Terms, r: Record, now: real) {
    (PastLastInterval(t, now) || LastInterval(t, now))
    && ResponseCount(r, t.frequency) == t.redundancy
  }

  /** What `set_response_count` accepts: an active subscription and no future interval. */
  predicate MaySetCount(t: Terms, now: real, interval: int) {
    Active(t, now) && interval <= Interval(t, now)
  }

  /** In seconds: a count is accepted once the clock has passed the activation time and reached
      the start of its interval; a callback has interval 1 alone. */
  lemma {:induction false} MaySetCountExact(t: Terms, now: real, interval: int)
    ensures MaySetCount(t, now, interval) <==>
      now > t.activeAt as real
      && if t.period == 0 then interval <= 1 else now.Floor >= t.activeAt + (interval - 1) * t.period
  {
    if Active(t, now) && t.period > 0 { IntervalReached(t, now, interval); }
  }

  /** In seconds: a recurring subscription is completed exactly when it is active, its final
      interval has begun, and the count recorded for that interval is the redundancy. */
  lemma {:induction false} CompletedExact(t: Terms, r: Record, now: real)
    requires t.period > 0
    ensures Completed(t, r, now) <==>
      now > t.activeAt as real && now.Floor >= t.activeAt + (t.frequency - 1) * t.period
      && (if t.frequency in r.responses then r.responses[t.frequency] else 0) == t.redundancy
  {
    if Active(t, now) { IntervalReached(t, now, t.frequency); }
  }

  /** A callback is completed exactly when it is active, of frequency 0 or 1, and the count
      recorded for the interval of that number is the redundancy. */
  lemma {:induction false} CallbackCompletedExact(t: Terms, r: Record, now: real)
    requires t.period == 0
    ensures Completed(t, r, now) <==>
      now > t.activeAt as real && t.frequency <= 1
      && (if t.frequency in r.responses then r.responses[t.frequency] else 0) == t.redundancy
  {
    if Active(t, now) { assert Interval(t, now) == 1; }
  }

  /** A `Subscription` object: the method mutates the dictionary in place, reading the
      clock through a parameter. */
  class Subscription {
    const terms: Terms
    var responses: map<int, int>

    constructor (terms: Terms)
      ensures this.terms == terms && Value() == Record(map[])
    {
      this.terms := terms;
      responses := map[];
    }

    function Value(): Record
      reads this
    {
      Record(responses)
    }

    /** Records a count, or raises and leaves the object as it was. */
    method SetResponseCount(now: real, interval: int, count: int) returns (o: Outcome)
      modifies this`responses
      ensures o == Done <==>
        now > terms.activeAt as real
        && if terms.period == 0 then interval <= 1 else now.Floor >= terms.activeAt + (interval - 1) * terms.period
      ensures o == Done ==> responses == old(responses)[interval := count]
      ensures o != Done ==> Value() == old(Value())
      ensures forall k :: k != interval ==> ResponseCount(Value(), k) == ResponseCount(old(Value()), k)
      ensures Value() == ApplyCall(terms, old(Value()), Call(now, interval, count))
    {
      MaySetCountExact(terms, now, interval);
      if !Active(terms, now) { return RuntimeError; }
      if interval > Interval(terms, now) { return RuntimeError; }
      responses := responses[interval := count];
      return Done;
    }
  }

  /** One `set_response_count` call at clock reading `now`. */
  datatype Call = Call(now: real, interval: int, count: int)

  function ApplyCall(t: Terms, r: Record, c: Call): Record {
    if MaySetCount(t, c.now, c.interval)
    then r.(responses := r.responses[c.interval := c.count])
    else r
  }

  function ApplyCalls(t: Terms, r: Record, cs: seq<Call>): Record
    decreases |cs|
  {
    if cs == [] then r else ApplyCalls(t, ApplyCall(t, r, cs[0]), cs[1..])
  }

  /** The clock never runs backwards along a history that starts at `from`. */
  predicate InOrder(from: real, cs: seq<Call>)
    decreases |cs|
  {
    cs == [] || (from <= cs[0].now && InOrder(cs[0].now, cs[1..]))
  }

  function LastReading(from: real, cs: seq<Call>): real
    decreases |cs|
  {
    if cs == [] then from else LastReading(cs[0].now, cs[1..])
  }

  predicate NothingBeyondCurrent(t: Terms, r: Record, now: real) {
    forall k :: k in r.responses ==> Active(t, now) && k <= Interval(t, now)
  }

  lemma {:induction false} LastReadingIsLatest(from: real, cs: seq<Call>)
    requires InOrder(from, cs)
    ensures from <= LastReading(from, cs)
    decreases |cs|
  {
    if cs != [] { LastReadingIsLatest(cs[0].now, cs[1..]); }
  }

  /** Whatever the history of calls, no response count is ever recorded for an interval
      that has not started yet. */
  lemma {:induction false} NoCountForFutureInterval(t: Terms, r: Record, from: real, cs: seq<Call>, now: real)
    requires InOrder(from, cs) && LastReading(from, cs) <= now
    requires NothingBeyondCurrent(t, r, from)
    ensures NothingBeyondCurrent(t, ApplyCalls(t, r, cs), now)
    decreases |cs|
  {
    var next := if cs == [] then now else cs[0].now;
    forall k | k in r.responses ensures Active(t, next) && k <= Interval(t, next) {
      IntervalMonotone(t, from, next);
    }
    if cs != [] {
      NoCountForFutureInterval(t, ApplyCall(t, r, cs[0]), cs[0].now, cs[1..], now);
    }
  }

  /** No call of the history changes the count of interval `k`. */
  predicate Preserves(t: Terms, r: Record, cs: seq<Call>, k: int)
    decreases |cs|
  {
    cs == [] ||
    (ResponseCount(ApplyCall(t, r, cs[0]), k) == ResponseCount(r, k)
     && Preserves(t, ApplyCall(t, r, cs[0]), cs[1..], k))
  }

  lemma {:induction false} PreservedCount(t: Terms, r: Record, cs: seq<Call>, k: int)
    requires Preserves(t, r, cs, k)
    ensures ResponseCount(ApplyCalls(t, r, cs), k) == ResponseCount(r, k)
    decreases |cs|
  {
    if cs != [] { PreservedCount(t, ApplyCall(t, r, cs[0]), cs[1..], k); }
  }

  /** A completed subscription is completed at every later time, as long as the count of
      its final interval is left alone. */
  lemma {:induction false} CompletionIsStable(t: Terms, r: Record, cs: seq<Call>, a: real, b: real)
    requires a <= b && Completed(t, r, a) && Preserves(t, r, cs, t.frequency)
    ensures Completed(t, ApplyCalls(t, r, cs), b)
  {
    IntervalMonotone(t, a, b);
    PreservedCount(t, r, cs, t.frequency);
  }

  /** The caveat is exact: from a completed state, one further accepted call keeps the
      subscription completed if and only if it does not put another count on the final
      interval. */
  lemma {:induction false} CompletionLostOnlyByFinalCount(t: Terms, r: Record, c: Call, now: real)
    requires Completed(t, r, c.now) && c.now <= now && MaySetCount(t, c.now, c.interval)
    ensures Completed(t, ApplyCall(t, r, c), now) <==> (c.interval == t.frequency ==> c.count == t.redundancy)
  {
    IntervalMonotone(t, c.now, now);
  }
}
