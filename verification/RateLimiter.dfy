/** The rate limiter of pkg/ratelimiter/ratelimiter.go. One scalar, `currentDelay`, stands for every
    admission handed out so far; the lemmas recover the whole schedule from it. Times are integers in
    one unit, and each reading of the clock is a parameter. */
module RateLimiting {
  import opened Arithmetic

  datatype Call = When(item: string, now: int) | Forget(item: string) | NumRequeues(item: string)

  datatype Limiter = Limiter(failures: map<string, nat>, currentDelay: int)

  function Count(failures: map<string, nat>, item: string): nat {
    if item in failures then failures[item] else 0
  }

  /** A new limiter created at clock reading `created`. */
  function Fresh(created: int, interval: int): Limiter { Limiter(map[], created - interval) }

  function Apply(l: Limiter, interval: int, call: Call): Limiter {
    match call
    case When(item, now) =>
      var next := l.currentDelay + interval;
      Limiter(l.failures[item := Count(l.failures, item) + 1], if now > next then now else next)
    case Forget(item) => l.(failures := l.failures - {item})
    case NumRequeues(_) => l
  }

  function Run(created: int, interval: int, calls: seq<Call>): Limiter {
    if calls == [] then Fresh(created, interval)
    else Apply(Run(created, interval, calls[..|calls| - 1]), interval, calls[|calls| - 1])
  }

  /** The admission times handed out along a history, in order. */
  function Admissions(created: int, interval: int, calls: seq<Call>): (a: seq<int>)
    ensures |a| == |Readings(calls)|
  {
    if calls == [] then []
    else
      var before := calls[..|calls| - 1];
      var earlier := Admissions(created, interval, before);
      if calls[|calls| - 1].When? then earlier + [Run(created, interval, calls).currentDelay] else earlier
  }

  /** The clock readings of the When calls of a history, in order. */
  function Readings(calls: seq<Call>): seq<int> {
    if calls == [] then []
    else
      var before := Readings(calls[..|calls| - 1]);
      match calls[|calls| - 1]
      case When(_, now) => before + [now]
      case _ => before
  }

  /** The scalar is the last admission, or one interval before creation when there is none. */
  lemma {:induction false} ScalarIsLastAdmission(created: int, interval: int, calls: seq<Call>)
    ensures var a := Admissions(created, interval, calls);
            Run(created, interval, calls).currentDelay == if a == [] then created - interval else a[|a| - 1]
  {
    if calls != [] { ScalarIsLastAdmission(created, interval, calls[..|calls| - 1]); }
  }

  // ----- closed form -----

  /** The earliest time the k-th admission (from 0) may have on account of reading i <= k, or of the
      creation when i is -1. */
  function Bound(created: int, interval: int, readings: seq<int>, k: nat, i: int): int
    requires -1 <= i <= k < |readings|
  {
    if i == -1 then created + k * interval else readings[i] + (k - i) * interval
  }

  /** Every admission is the maximum of its bounds: no bound exceeds it and it attains one. */
  lemma {:induction false} AdmissionClosedForm(created: int, interval: int, calls: seq<Call>, k: nat)
    requires k < |Readings(calls)|
    ensures var r, a := Readings(calls), Admissions(created, interval, calls);
            && (forall i :: -1 <= i <= k ==> Bound(created, interval, r, k, i) <= a[k])
            && (exists i :: -1 <= i <= k && Bound(created, interval, r, k, i) == a[k])
    decreases |calls|
  {
    var before := calls[..|calls| - 1];
    var r, a := Readings(calls), Admissions(created, interval, calls);
    var r0 := Readings(before);
    if k < |r0| {
      AdmissionClosedForm(created, interval, before, k);
      forall i | -1 <= i <= k
        ensures Bound(created, interval, r, k, i) == Bound(created, interval, r0, k, i) {}
      var j :| -1 <= j <= k && Bound(created, interval, r0, k, j) == a[k];
      assert Bound(created, interval, r, k, j) == a[k];
    } else {
      ScalarIsLastAdmission(created, interval, before);
      assert Bound(created, interval, r, k, k) == r[k];
      if k == 0 {
        assert Bound(created, interval, r, 0, -1) == created;
      } else {
        AdmissionClosedForm(created, interval, before, k - 1);
        forall i | -1 <= i <= k - 1
          ensures Bound(created, interval, r, k, i) == Bound(created, interval, r0, k - 1, i) + interval
        {
          var m := if i == -1 then k else k - i;
          assert m * interval == (m - 1) * interval + interval;
        }
        var j :| -1 <= j <= k - 1 && Bound(created, interval, r0, k - 1, j) == a[k - 1];
        assert Bound(created, interval, r, k, j) == a[k - 1] + interval;
      }
    }
  }

  ghost predicate MonotoneClock(created: int, readings: seq<int>) {
    && (forall i :: 0 <= i < |readings| ==> created <= readings[i])
    && (forall i, j :: 0 <= i < j < |readings| ==> readings[i] <= readings[j])
  }

  /** The k-th delay is never negative, and on a monotone clock it is at most k intervals. */
  lemma DelayBounds(created: int, interval: int, calls: seq<Call>, k: nat)
    requires k < |Readings(calls)|
    ensures var delay := Admissions(created, interval, calls)[k] - Readings(calls)[k];
            0 <= delay && (interval >= 0 && MonotoneClock(created, Readings(calls)) ==> delay <= k * interval)
  {
    AdmissionClosedForm(created, interval, calls, k);
    var r, a := Readings(calls), Admissions(created, interval, calls);
    assert Bound(created, interval, r, k, k) == r[k];
    var i :| -1 <= i <= k && Bound(created, interval, r, k, i) == a[k];
    if interval >= 0 && MonotoneClock(created, r) {
      var m := if i == -1 then k else k - i;
      assert m * interval <= k * interval;
    }
  }

  // ----- optimality -----

  /** In request order, not before creation or request, and at least one interval apart. */
  ghost predicate Schedule(created: int, interval: int, readings: seq<int>, b: seq<int>) {
    && |b| == |readings|
    && (forall i :: 0 <= i < |b| ==> readings[i] <= b[i])
    && (|b| > 0 ==> created <= b[0])
    && (forall i :: 0 < i < |b| ==> b[i - 1] + interval <= b[i])
  }

  lemma {:induction false} AdmissionsAreASchedule(created: int, interval: int, calls: seq<Call>)
    ensures Schedule(created, interval, Readings(calls), Admissions(created, interval, calls))
  {
    if calls != [] {
      var before := calls[..|calls| - 1];
      AdmissionsAreASchedule(created, interval, before);
      ScalarIsLastAdmission(created, interval, before);
    }
  }

  /** The limiter's schedule is the pointwise least of all schedules of the same requests. */
  lemma {:induction false} AdmissionsAreLeast(created: int, interval: int, calls: seq<Call>, b: seq<int>, k: nat)
    requires Schedule(created, interval, Readings(calls), b)
    requires k < |b|
    ensures Admissions(created, interval, calls)[k] <= b[k]
    decreases |calls|
  {
    var before := calls[..|calls| - 1];
    if k < |Readings(before)| {
      AdmissionsAreLeast(created, interval, before, b[..|Readings(before)|], k);
    } else {
      ScalarIsLastAdmission(created, interval, before);
      if k > 0 { AdmissionsAreLeast(created, interval, before, b[..|Readings(before)|], k - 1); }
    }
  }

  // ----- window bound -----

  function CountWithin(a: seq<int>, lo: int, hi: int): nat {
    if a == [] then 0
    else CountWithin(a[..|a| - 1], lo, hi) + if lo <= a[|a| - 1] < hi then 1 else 0
  }

  lemma {:induction false} CountNoneBelow(a: seq<int>, lo: int, hi: int)
    requires forall i :: 0 <= i < |a| ==> a[i] < lo
    ensures CountWithin(a, lo, hi) == 0
  {
    if a != [] { CountNoneBelow(a[..|a| - 1], lo, hi); }
  }

  lemma {:induction false} SpacedIsIncreasing(a: seq<int>, interval: int, i: nat, j: nat)
    requires interval > 0 && forall i :: 0 < i < |a| ==> a[i - 1] + interval <= a[i]
    requires i <= j < |a|
    ensures a[i] <= a[j]
    decreases j
  {
    if i < j { SpacedIsIncreasing(a, interval, i, j - 1); }
  }

  lemma {:induction false} SpacedCount(a: seq<int>, interval: int, lo: int, hi: int)
    requires interval > 0 && forall i :: 0 < i < |a| ==> a[i - 1] + interval <= a[i]
    ensures var c := CountWithin(a, lo, hi);
            c > 0 ==> (c - 1) * interval < hi - lo && (c - 1) * interval <= a[|a| - 1] - lo
  {
    if a != [] {
      var before := a[..|a| - 1];
      SpacedCount(before, interval, lo, hi);
      var x := a[|a| - 1];
      var c0 := CountWithin(before, lo, hi);
      if lo <= x < hi && c0 > 0 {
        assert c0 * interval == (c0 - 1) * interval + interval;
      }
    }
  }

  /** For a positive interval, any half-open window of length w holds at most ceil(w / interval)
      admissions, however Forget and NumRequeues are interleaved. */
  lemma WindowBound(created: int, interval: int, calls: seq<Call>, lo: int, w: nat)
    requires interval > 0
    ensures CountWithin(Admissions(created, interval, calls), lo, lo + w) <= (w + interval - 1) / interval
  {
    var a := Admissions(created, interval, calls);
    AdmissionsAreASchedule(created, interval, calls);
    SpacedCount(a, interval, lo, lo + w);
    var c := CountWithin(a, lo, lo + w);
    if c > 0 { assert c * interval == (c - 1) * interval + interval; }
    DivLower(c, w + interval - 1, interval);
  }

  lemma DivLower(c: nat, n: nat, d: nat)
    requires d > 0 && c * d <= n
    ensures c <= n / d
  {
    var q := n / d;
    assert n < q * d + d;
    if q < c {
      MulOrder(q + 1, c, d);
    }
  }

  // ----- the counters -----

  /** How often `item` was enqueued since it was last forgotten. */
  function EnqueuedSinceForgotten(calls: seq<Call>, item: string): nat {
    if calls == [] then 0
    else
      var before := calls[..|calls| - 1];
      match calls[|calls| - 1]
      case When(i, _) => EnqueuedSinceForgotten(before, item) + if i == item then 1 else 0
      case Forget(i) => if i == item then 0 else EnqueuedSinceForgotten(before, item)
      case NumRequeues(_) => EnqueuedSinceForgotten(before, item)
  }

  lemma {:induction false} CounterMeaning(created: int, interval: int, calls: seq<Call>, item: string)
    ensures Count(Run(created, interval, calls).failures, item) == EnqueuedSinceForgotten(calls, item)
  {
    if calls != [] { CounterMeaning(created, interval, calls[..|calls| - 1], item); }
  }

  /** The limiter object. The ghost history `calls` records every call made on it. */
  class RateLimiter {
    var failures: map<string, nat>
    var currentDelay: int
    const delayInterval: int
    ghost const created: int
    ghost var calls: seq<Call>

    ghost predicate Valid()
      reads this
    {
      Limiter(failures, currentDelay) == Run(created, delayInterval, calls)
    }

    constructor (interval: int, now: int)
      ensures Valid() && calls == [] && delayInterval == interval && created == now
    {
      failures, currentDelay, delayInterval := map[], now - interval, interval;
      created, calls := now, [];
    }

    method When(item: string, now: int) returns (delay: int)
      requires Valid()
      modifies this
      ensures Valid() && calls == old(calls) + [Call.When(item, now)]
      ensures failures == old(failures)[item := Count(old(failures), item) + 1]
      ensures var a := Admissions(created, delayInterval, calls);
              a != [] && a[|a| - 1] == now + delay && 0 <= delay
    {
      failures := failures[item := (if item in failures then failures[item] else 0) + 1];
      var newDelay := currentDelay + delayInterval;
      if now > newDelay {
        currentDelay := now;
        delay := 0;
      } else {
        currentDelay := newDelay;
        delay := currentDelay - now;
      }
      calls := calls + [Call.When(item, now)];
      assert calls[..|calls| - 1] == old(calls);
    }

    method Forget(item: string)
      requires Valid()
      modifies this
      ensures Valid() && calls == old(calls) + [Call.Forget(item)]
      ensures item !in failures && currentDelay == old(currentDelay)
      ensures forall i :: i != item ==> Count(failures, i) == Count(old(failures), i)
      ensures Admissions(created, delayInterval, calls) == Admissions(created, delayInterval, old(calls))
    {
      failures := failures - {item};
      calls := calls + [Call.Forget(item)];
      assert calls[..|calls| - 1] == old(calls);
    }

    method NumRequeues(item: string) returns (n: nat)
      requires Valid()
      modifies `calls
      ensures Valid() && calls == old(calls) + [Call.NumRequeues(item)]
      ensures n == EnqueuedSinceForgotten(calls, item)
      ensures Admissions(created, delayInterval, calls) == Admissions(created, delayInterval, old(calls))
    {
      CounterMeaning(created, delayInterval, calls, item);
      n := if item in failures then failures[item] else 0;
      calls := calls + [Call.NumRequeues(item)];
      assert calls[..|calls| - 1] == old(calls);
    }
  }
}
