// Timestamps and their 64-bit difference (include/common.h).
module Clock {
  import opened Words

  const NSEC_IN_SECOND: nat := 1_000_000_000
  datatype Timespec = Timespec(sec: int, nsec: int)

  /** The range in which clock_gettime delivers tv_nsec. */
  predicate Normalised(t: Timespec) {
    0 <= t.nsec < NSEC_IN_SECOND
  }

  function Nanos(t: Timespec): int {
    t.sec * NSEC_IN_SECOND + t.nsec
  }

  /** The normalised timestamp that denotes `n` nanoseconds. */
  function OfNanos(n: nat): (t: Timespec)
    ensures Normalised(t) && Nanos(t) == n
  {
    Timespec(n / NSEC_IN_SECOND, n % NSEC_IN_SECOND)
  }

  /** ts_diff: computed on signed longs, delivered as a uint64_t. */
  function TsDiff(start: Timespec, end: Timespec): nat {
    Wrap64((end.sec - start.sec) * NSEC_IN_SECOND + (end.nsec - start.nsec))
  }

  /** The (int64_t) cast of a uint64_t. */
  function Signed(ns: nat): int {
    if ns < TWO_63 then ns else ns - TWO_64
  }

  /** Whenever the true difference fits 63 bits, the wrapped difference read as a signed
      number is the true difference, whichever of the two timestamps is later. */
  lemma TsDiffSigned(start: Timespec, end: Timespec)
    requires -TWO_63 <= Nanos(end) - Nanos(start) < TWO_63
    ensures Signed(TsDiff(start, end)) == Nanos(end) - Nanos(start)
  {
    assert (end.sec - start.sec) * NSEC_IN_SECOND + (end.nsec - start.nsec) == Nanos(end) - Nanos(start);
  }

  lemma TsDiffExact(start: Timespec, end: Timespec)
    requires 0 <= Nanos(end) - Nanos(start) < TWO_64
    ensures TsDiff(start, end) == Nanos(end) - Nanos(start)
  {
    assert (end.sec - start.sec) * NSEC_IN_SECOND + (end.nsec - start.nsec) == Nanos(end) - Nanos(start);
  }

  /** Intervals that meet add up, even when every one of the three differences wraps. */
  lemma TsDiffAdditive(a: Timespec, b: Timespec, c: Timespec)
    ensures Wrap64(TsDiff(a, b) + TsDiff(b, c)) == TsDiff(a, c)
  {
    var x, y := Nanos(b) - Nanos(a), Nanos(c) - Nanos(b);
    assert (b.sec - a.sec) * NSEC_IN_SECOND + (b.nsec - a.nsec) == x;
    assert (c.sec - b.sec) * NSEC_IN_SECOND + (c.nsec - b.nsec) == y;
    assert (c.sec - a.sec) * NSEC_IN_SECOND + (c.nsec - a.nsec) == x + y;
    WrapAdd(x, y);
  }
}
