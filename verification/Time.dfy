/**
 Deadlines: a clock value plus milliseconds, and the milliseconds left.
 */
module Time {
  import opened Common

  const NS_PER_S := 1_000_000_000
  const NS_PER_MS := 1_000_000

  /** A timespec. */
  datatype Spec = Spec(sec: int, nsec: int)

  /** What the clock returns. */
  predicate Normalized(t: Spec) {
    0 <= t.nsec < NS_PER_S
  }

  /** The instant a timespec denotes, in nanoseconds. */
  function Nanos(t: Spec): int {
    t.sec * NS_PER_S + t.nsec
  }

  /** Division of C, truncating toward zero, and its remainder. */
  function Quot(x: int, n: int): int
    requires n > 0
  {
    if x >= 0 then x / n else -((-x) / n)
  }

  function Rem(x: int, n: int): int
    requires n > 0
  {
    x - Quot(x, n) * n
  }

  lemma {:induction false} QuotRange(x: int, n: int)
    requires n > 0
    ensures -n < Rem(x, n) < n && (x >= 0 ==> Rem(x, n) >= 0) && (x <= 0 ==> Rem(x, n) <= 0)
  {
    if x >= 0 {
      assert x == (x / n) * n + x % n;
    } else {
      var q := (-x) / n;
      assert -x == q * n + (-x) % n;
      assert (-q) * n == -(q * n);
    }
  }

  // ---------------------------------------------------------------- deadlines

  /** `ms` milliseconds after `now`. */
  function Deadline(now: Spec, ms: int): Spec {
    var nsec := now.nsec + Rem(ms, 1000) * NS_PER_MS;
    var sec := now.sec + Quot(ms, 1000);
    if nsec > NS_PER_S then Spec(sec + 1, nsec - NS_PER_S) else Spec(sec, nsec)
  }

  /** The deadline is exact, although its nanoseconds may equal a whole second. */
  lemma {:induction false} DeadlineExact(now: Spec, ms: int)
    ensures Nanos(Deadline(now, ms)) == Nanos(now) + ms * NS_PER_MS
    ensures Normalized(now) && ms >= 0 ==> 0 <= Deadline(now, ms).nsec <= NS_PER_S
  {
    QuotRange(ms, 1000);
  }

  /** The bound is met: a whole second of nanoseconds is left as it is. */
  lemma {:induction false} DeadlineNotNormalized(now: Spec, ms: int)
    requires Normalized(now) && ms >= 0
    ensures Normalized(Deadline(now, ms)) <==> now.nsec + (ms % 1000) * NS_PER_MS != NS_PER_S
  {
    QuotRange(ms, 1000);
    assert ms == (ms / 1000) * 1000 + ms % 1000;
  }

  /** Milliseconds from `current` to `end`. */
  function Remain(end: Spec, current: Spec): int {
    if current.sec > end.sec || (current.sec == end.sec && current.nsec > end.nsec) then 0
    else (end.sec - current.sec) * 1000 + Quot(end.nsec - current.nsec, NS_PER_MS)
  }

  /** Never negative, less than a millisecond away from the true distance, and 0 once the
      deadline has passed. */
  lemma {:induction false} RemainAccurate(end: Spec, current: Spec)
    requires 0 <= end.nsec <= NS_PER_S && Normalized(current)
    ensures Remain(end, current) >= 0
    ensures Nanos(current) >= Nanos(end) ==> Remain(end, current) == 0
    ensures Nanos(current) <= Nanos(end) ==>
              var error := Remain(end, current) * NS_PER_MS - (Nanos(end) - Nanos(current));
              -NS_PER_MS < error < NS_PER_MS
  {
    var d := end.nsec - current.nsec;
    QuotRange(d, NS_PER_MS);
    var q := Quot(d, NS_PER_MS);
    assert d == q * NS_PER_MS + Rem(d, NS_PER_MS);
  }

  lemma {:induction false} QuotMonotone(x: int, y: int, n: int)
    requires n > 0 && x <= y
    ensures Quot(x, n) <= Quot(y, n)
  {
    QuotRange(x, n);
    QuotRange(y, n);
    var p, q, r, t := Quot(x, n), Quot(y, n), Rem(x, n), Rem(y, n);
    hide Quot, Rem;
    RemDefined(x, n);
    RemDefined(y, n);
    if p > q {
      Apart(x, y, n, p, q, r, t);
    }
  }

  lemma {:induction false} RemDefined(x: int, n: int)
    requires n > 0
    ensures x == Quot(x, n) * n + Rem(x, n)
  {
    hide Quot;
  }

  /** A greater quotient and signs that agree make a greater number. */
  lemma {:induction false} Apart(x: int, y: int, n: int, p: int, q: int, r: int, t: int)
    requires n > 0 && p > q && x == p * n + r && y == q * n + t && -n < r < n && -n < t < n
    requires (x >= 0 ==> r >= 0) && (x <= 0 ==> r <= 0) && (y >= 0 ==> t >= 0) && (y <= 0 ==> t <= 0)
    ensures x > y
  {
    var a := p - q;
    AtLeastFactor(a, n);
    Distributes(p, q, n);
  }

  lemma {:induction false} Distributes(p: int, q: int, n: int)
    ensures (p - q) * n == p * n - q * n
  {
  }

  /** The remaining time never increases as the clock advances. */
  lemma {:induction false} RemainMonotone(end: Spec, earlier: Spec, later: Spec)
    requires 0 <= end.nsec <= NS_PER_S && Normalized(earlier) && Normalized(later)
    requires Nanos(earlier) <= Nanos(later)
    ensures Remain(end, later) <= Remain(end, earlier)
  {
    RemainAccurate(end, earlier);
    RemainAccurate(end, later);
    var x, y := end.nsec - earlier.nsec, end.nsec - later.nsec;
    QuotMonotone(y, x + NS_PER_S, NS_PER_MS);
    if earlier.sec == later.sec {
      QuotMonotone(y, x, NS_PER_MS);
    }
    QuotCarry(x, y);
  }

  /** A whole second more makes at most 1000 more milliseconds. */
  lemma {:induction false} QuotCarry(x: int, y: int)
    requires y < x + NS_PER_S
    ensures Quot(y, NS_PER_MS) <= Quot(x, NS_PER_MS) + 1000
  {
    QuotRange(x, NS_PER_MS);
    QuotRange(y, NS_PER_MS);
    var p, q := Quot(x, NS_PER_MS), Quot(y, NS_PER_MS);
    assert x == p * NS_PER_MS + Rem(x, NS_PER_MS);
    assert y == q * NS_PER_MS + Rem(y, NS_PER_MS);
  }

  /** A timer of `ms` milliseconds starts at exactly `ms` and never shows more, so the result
      fits the integer the delay came in. */
  lemma {:induction false} TimerBounds(now: Spec, ms: nat, current: Spec)
    requires Normalized(now) && Normalized(current) && Nanos(now) <= Nanos(current)
    ensures Remain(Deadline(now, ms), now) == ms
    ensures 0 <= Remain(Deadline(now, ms), current) <= ms
  {
    DeadlineExact(now, ms);
    RemainAccurate(Deadline(now, ms), now);
    RemainAccurate(Deadline(now, ms), current);
    RemainMonotone(Deadline(now, ms), now, current);
  }

  // ---------------------------------------------------------------- in place

  class Timespec {
    var sec: int
    var nsec: int

    ghost function View(): Spec
      reads this
    {
      Spec(sec, nsec)
    }

    /** Overwrites the timespec with the clock, then adds the delay. */
    method AddMs(clock: Spec, ms: int)
      modifies this
      ensures View() == Deadline(clock, ms)
      ensures Nanos(View()) == Nanos(clock) + ms * NS_PER_MS
    {
      sec, nsec := clock.sec, clock.nsec;
      sec := sec + Quot(ms, 1000);
      nsec := nsec + Rem(ms, 1000) * NS_PER_MS;
      if nsec > NS_PER_S {
        sec := sec + 1;
        nsec := nsec - NS_PER_S;
      }
      DeadlineExact(clock, ms);
    }
  }
}
