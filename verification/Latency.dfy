// Per-source latency statistics (wfey.c, source_event_* and the report at the end of main).
module Latency {
  import opened Clock
  import opened Words

  /** The four uint64_t accumulators of struct Source. */
  datatype Stats = Stats(totalns: nat, minns: nat, maxns: nat, count: nat)

  /** What main stores before the source thread exists. */
  const FRESH := Stats(0, TWO_64 - 1, 0, 0)

  /** The difference is kept only when it is positive as an int64_t. */
  predicate Accepted(ns: nat) {
    Signed(ns) > 0
  }

  /** The accounting at the end of source_event_reset. */
  function Account(st: Stats, ns: nat): Stats {
    if !Accepted(ns) then st
    else Stats(Wrap64(st.totalns + ns),
               if ns < st.minns then ns else st.minns,
               if ns > st.maxns then ns else st.maxns,
               Wrap64(st.count + 1))
  }

  /** The accumulators of a source after a sweep that no other thread disturbs. */
  function AfterSweep(active: bool, st: Stats, start: Timespec, now: Timespec): Stats {
    if active then Account(st, TsDiff(start, now)) else st
  }

  predicate Samples(log: seq<nat>) {
    forall k :: 0 <= k < |log| ==> 0 < log[k] < TWO_63
  }

  function Sum(log: seq<nat>): nat {
    if log == [] then 0 else Sum(log[..|log| - 1]) + log[|log| - 1]
  }

  predicate Least(x: nat, log: seq<nat>) {
    x in log && forall k :: 0 <= k < |log| ==> x <= log[k]
  }

  predicate Greatest(x: nat, log: seq<nat>) {
    x in log && forall k :: 0 <= k < |log| ==> log[k] <= x
  }

  /** The accumulators describe a history of samples: its length, sum, minimum and maximum. */
  predicate Tracks(st: Stats, log: seq<nat>) {
    && st.count == Wrap64(|log|)
    && st.totalns == Wrap64(Sum(log))
    && if log == [] then st.minns == TWO_64 - 1 && st.maxns == 0
       else Least(st.minns, log) && Greatest(st.maxns, log)
  }

  /** Accounting a difference appends it to the tracked history, or drops it. */
  lemma {:induction false} AccountTracks(st: Stats, log: seq<nat>, ns: nat)
    requires Samples(log) && Tracks(st, log) && ns < TWO_64
    ensures Samples(Logged(log, ns)) && Tracks(Account(st, ns), Logged(log, ns))
  {
    if Accepted(ns) {
      TotalsAppend(st, log, ns);
      ExtremesAppend(st, log, ns);
    }
  }

  lemma {:induction false} SumAppend(log: seq<nat>, ns: nat)
    ensures Sum(log + [ns]) == Sum(log) + ns
  {
    assert (log + [ns])[..|log|] == log;
  }

  lemma {:induction false} TotalsAppend(st: Stats, log: seq<nat>, ns: nat)
    requires Tracks(st, log) && Accepted(ns)
    ensures Account(st, ns).count == Wrap64(|log + [ns]|) && Account(st, ns).totalns == Wrap64(Sum(log + [ns]))
  {
    SumAppend(log, ns);
    WrapAdd(Sum(log), ns);
    WrapAdd(|log|, 1);
  }

  lemma {:induction false} ExtremesAppend(st: Stats, log: seq<nat>, ns: nat)
    requires Samples(log) && Tracks(st, log) && Accepted(ns) && ns < TWO_64
    ensures Least(Account(st, ns).minns, log + [ns]) && Greatest(Account(st, ns).maxns, log + [ns])
  {
    assert (log + [ns])[|log|] == ns;
    assert forall k :: 0 <= k < |log| ==> (log + [ns])[k] == log[k];
  }

  function Logged(log: seq<nat>, ns: nat): seq<nat> {
    if Accepted(ns) then log + [ns] else log
  }

  /** Only a positive elapsed time is logged, and then exactly. */
  lemma LoggedStamps(log: seq<nat>, start: Timespec, end: Timespec)
    requires -TWO_63 <= Nanos(end) - Nanos(start) < TWO_63
    ensures Logged(log, TsDiff(start, end))
         == if Nanos(start) < Nanos(end) then log + [Nanos(end) - Nanos(start)] else log
  {
    TsDiffSigned(start, end);
  }

  lemma {:induction false} SumBounds(log: seq<nat>, lo: nat, hi: nat)
    requires forall k :: 0 <= k < |log| ==> lo <= log[k] <= hi
    ensures lo * |log| <= Sum(log) <= hi * |log|
  {
    if log != [] {
      var init, last := log[..|log| - 1], log[|log| - 1];
      SumBounds(init, lo, hi);
      assert lo * |log| == lo * |init| + lo && hi * |log| == hi * |init| + hi;
    }
  }

  /** The roundings on the way to the printed mean: conversion to double or quotient in double,
      assignment to a float, printing with two decimals. */
  datatype Rounding = Rounding(double: real -> real, single: real -> real, print2: real -> real)

  datatype Row = Row(least: nat, greatest: nat, mean: real)

  ghost predicate Monotone(f: real -> real) {
    forall x, y :: x <= y ==> f(x) <= f(y)
  }

  /** Any rounding mode is monotone; a double holds the integers up to 2^53 exactly. */
  ghost predicate Sound(r: Rounding) {
    && Monotone(r.double) && Monotone(r.single) && Monotone(r.print2)
    && forall n: nat :: n <= 0x20_0000_0000_0000 ==> Exact(r.double, n)
  }

  ghost predicate Exact(f: real -> real, n: nat) { f(n as real) == n as real }

  function Printed(r: Rounding, x: real): real {
    r.print2(r.single(x))
  }

  /** The latency row main prints for a source; a source without samples prints 0, 0, -1. */
  ghost function Report(st: Stats, r: Rounding): Row
    requires Sound(r)
  {
    if st.count == 0 then Row(0, 0, -1.0)
    else
      DivisorPositive(r, st.count);
      Row(st.minns, st.maxns, Printed(r, r.double(r.double(st.totalns as real) / r.double(st.count as real))))
  }

  lemma DivisorPositive(r: Rounding, count: nat)
    requires Sound(r) && count > 0
    ensures r.double(count as real) >= 1.0
  {
    assert Exact(r.double, 1);
    assert 1 as real <= count as real;
  }

  /** The row shows the extremes of the samples and their mean, rounded, between them, rounded alike. */
  ghost predicate Describes(row: Row, log: seq<nat>, r: Rounding)
    requires log != []
  {
    && Least(row.least, log) && Greatest(row.greatest, log)
    && row.mean == Printed(r, r.double(Sum(log) as real / |log| as real))
    && Printed(r, row.least as real) <= row.mean <= Printed(r, row.greatest as real)
  }

  /** For up to 104 days of latency in all, the printed row describes the samples; -1 is printed
      exactly for a source without samples. */
  lemma {:induction false} ReportIsConsistent(st: Stats, log: seq<nat>, r: Rounding)
    requires Samples(log) && Tracks(st, log) && Sum(log) <= 0x20_0000_0000_0000 && Sound(r)
    ensures if log == [] then Report(st, r) == Row(0, 0, -1.0) else Describes(Report(st, r), log, r)
  {
    SumBounds(log, 1, TWO_63);
    if log != [] {
      SumBounds(log, st.minns, st.maxns);
      MeanBounds(st.minns, st.maxns, st.totalns, st.count);
      MemberBound(log, st.minns);
      MemberBound(log, st.maxns);
      assert Exact(r.double, st.totalns) && Exact(r.double, st.count);
      RoundedBetween(r, st.minns, st.maxns, st.totalns as real / st.count as real);
    }
  }

  lemma {:induction false} MemberBound(log: seq<nat>, x: nat)
    requires x in log
    ensures x <= Sum(log)
  {
    if x != log[|log| - 1] { MemberBound(log[..|log| - 1], x); }
  }

  lemma RoundedBetween(r: Rounding, lo: nat, hi: nat, q: real)
    requires Sound(r) && hi <= 0x20_0000_0000_0000 && lo as real <= q <= hi as real
    ensures Printed(r, lo as real) <= Printed(r, r.double(q)) <= Printed(r, hi as real)
  {
    assert lo <= hi;
    assert Exact(r.double, lo) && Exact(r.double, hi);
    assert r.double(lo as real) <= r.double(q) <= r.double(hi as real);
    assert r.single(lo as real) <= r.single(r.double(q)) <= r.single(hi as real);
  }

  lemma MeanBounds(lo: nat, hi: nat, t: nat, n: nat)
    requires n > 0 && lo * n <= t <= hi * n
    ensures lo as real <= t as real / n as real <= hi as real
    ensures t as real / n as real * n as real == t as real
  {
    var q := t as real / n as real;
    assert q * n as real == t as real;
    assert (lo * n) as real == lo as real * n as real;
    assert (hi * n) as real == hi as real * n as real;
  }
}
