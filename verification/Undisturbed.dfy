// A sweep in the step relation that no other thread disturbs: EP steps alone take it to its end,
// and its effect on each source is the parallel of EventLoop.Served, in terms of the same function.
module Undisturbed {
  import opened Clock
  import opened Latency
  import opened Protocol

  /** What a sweep does to one source; `now` is the nanosecond at which it runs. */
  predicate ServedBy(x: Source, y: Source, now: nat) {
    && !y.active && y.start == x.start && y.pc == x.pc && y.endFlag == x.endFlag
    && y.stats == AfterSweep(x.active, x.stats, OfNanos(x.start), OfNanos(now))
  }

  function ActiveFrom(srcs: seq<Source>, i: nat): nat
    requires i <= |srcs|
    decreases |srcs| - i
  {
    if i == |srcs| then 0 else (if srcs[i].active then 1 else 0) + ActiveFrom(srcs, i + 1)
  }

  lemma {:induction false} ActiveElsewhere(srcs: seq<Source>, srcs': seq<Source>, i: nat)
    requires i <= |srcs| == |srcs'| && forall k :: i <= k < |srcs| ==> srcs[k] == srcs'[k]
    ensures ActiveFrom(srcs, i) == ActiveFrom(srcs', i)
    decreases |srcs| - i
  {
    if i < |srcs| { ActiveElsewhere(srcs, srcs', i + 1); }
  }

  /** Everything but the EP's counters, index and position, and source i. */
  predicate OnlySource(s: State, t: State, i: nat) {
    && |t.srcs| == |s.srcs| && (forall k :: 0 <= k < |s.srcs| && k != i ==> t.srcs[k] == s.srcs[k])
    && t.main == s.main && t.bars == s.bars && t.heap == s.heap && t.now == s.now
    && t.db == s.db && t.event == s.event && t.armed == s.armed && t.presses == s.presses
    && t.ep.endFlag == s.ep.endFlag && t.ep.signal == s.ep.signal && t.ep.t == s.ep.t
  }

  lemma SweepStepShaped(c: Config, s: State)
    requires Shaped(c, s) && Sweeping(s.ep.pc)
    ensures Shaped(c, ApplyEpSweep(s))
  {
    match s.ep.pc {
      case ETest => case EWork => case EEndStamp => case EStore => case EDiff =>
    }
  }

  predicate OnlyEp(acts: seq<Act>) {
    forall k :: 0 <= k < |acts| ==> acts[k].EpStep?
  }

  lemma StepFirst(c: Config, s: State, acts: seq<Act>, t: State)
    requires Shaped(c, s) && Sweeping(s.ep.pc) && Run(c, ApplyEpSweep(s), acts, t) && OnlyEp(acts)
    ensures Run(c, s, [EpStep(false)] + acts, t) && OnlyEp([EpStep(false)] + acts)
  {
    var all := [EpStep(false)] + acts;
    assert all[0] == EpStep(false) && all[1..] == acts;
    assert EpEnabled(s) && Apply(c, s, EpStep(false)) == ApplyEpSweep(s);
  }

  predicate AtActive(s: State) {
    s.ep.pc.ETest? && s.ep.i < |s.srcs| && s.srcs[s.ep.i].active
  }

  predicate AtEndStamp(s: State) {
    s.ep.pc.EEndStamp? && s.ep.i < |s.srcs|
  }

  /** Test and work. */
  function Worked(s: State): State
    requires AtActive(s)
  {
    ApplyEpSweep(ApplyEpSweep(s))
  }

  /** The reset: end stamp, RESET store, accounting. */
  function WasReset(s: State): State
    requires AtEndStamp(s)
  {
    ApplyEpSweep(ApplyEpSweep(ApplyEpSweep(s)))
  }

  lemma WorkedIs(s: State)
    requires AtActive(s)
    ensures Worked(s) == s.(ep := s.ep.(pc := EEndStamp, n := s.ep.n.(events := s.ep.n.events + 1)))
  {
  }

  lemma WasResetIs(s: State)
    requires AtEndStamp(s)
    ensures WasReset(s).ep == s.ep.(pc := ETest, i := s.ep.i + 1)
    ensures OnlySource(s, WasReset(s), s.ep.i)
    ensures WasReset(s).srcs[s.ep.i].pc == s.srcs[s.ep.i].pc
    ensures WasReset(s).srcs[s.ep.i].endFlag == s.srcs[s.ep.i].endFlag
    ensures !WasReset(s).srcs[s.ep.i].active && WasReset(s).srcs[s.ep.i].start == s.srcs[s.ep.i].start
    ensures WasReset(s).srcs[s.ep.i].stats
         == Account(s.srcs[s.ep.i].stats, TsDiff(OfNanos(s.srcs[s.ep.i].start), OfNanos(s.now)))
  {
    var a := ApplyEpSweep(s);
    var b := ApplyEpSweep(a);
    assert a.ep.pc.EStore? && b.ep.pc.EDiff? && a.ep.i == b.ep.i == s.ep.i;
  }

  lemma HandledServes(s: State)
    requires AtActive(s)
    ensures AtEndStamp(Worked(s))
    ensures var t := WasReset(Worked(s));
            && t.ep.pc.ETest? && t.ep.i == s.ep.i + 1 && t.ep.n == s.ep.n.(events := s.ep.n.events + 1)
            && OnlySource(s, t, s.ep.i) && ServedBy(s.srcs[s.ep.i], t.srcs[s.ep.i], s.now)
  {
    WorkedIs(s);
    WasResetIs(Worked(s));
  }

  lemma WorkFirst(c: Config, s: State, rest: seq<Act>, t: State) returns (acts: seq<Act>)
    requires Shaped(c, s) && AtActive(s) && Run(c, Worked(s), rest, t) && OnlyEp(rest)
    ensures Run(c, s, acts, t) && OnlyEp(acts)
  {
    var s1 := ApplyEpSweep(s);
    SweepStepShaped(c, s);
    StepFirst(c, s1, rest, t);
    acts := [EpStep(false)] + rest;
    StepFirst(c, s, acts, t);
    acts := [EpStep(false)] + acts;
  }

  lemma StoreFirst(c: Config, s: State, rest: seq<Act>, t: State) returns (acts: seq<Act>)
    requires Shaped(c, s) && s.ep.pc.EStore? && Run(c, ApplyEpSweep(ApplyEpSweep(s)), rest, t) && OnlyEp(rest)
    ensures Run(c, s, acts, t) && OnlyEp(acts)
  {
    SweepStepShaped(c, s);
    StepFirst(c, ApplyEpSweep(s), rest, t);
    acts := [EpStep(false)] + rest;
    StepFirst(c, s, acts, t);
    acts := [EpStep(false)] + acts;
  }

  lemma ResetFirst(c: Config, s: State, rest: seq<Act>, t: State) returns (acts: seq<Act>)
    requires Shaped(c, s) && AtEndStamp(s) && Run(c, WasReset(s), rest, t) && OnlyEp(rest)
    ensures Run(c, s, acts, t) && OnlyEp(acts)
  {
    SweepStepShaped(c, s);
    acts := StoreFirst(c, ApplyEpSweep(s), rest, t);
    StepFirst(c, s, acts, t);
    acts := [EpStep(false)] + acts;
  }

  lemma HandleFirst(c: Config, s: State, rest: seq<Act>, t: State) returns (acts: seq<Act>)
    requires Shaped(c, s) && AtActive(s) && AtEndStamp(Worked(s))
    requires Run(c, WasReset(Worked(s)), rest, t) && OnlyEp(rest)
    ensures Run(c, s, acts, t) && OnlyEp(acts)
  {
    WorkedIs(s);
    acts := ResetFirst(c, Worked(s), rest, t);
    acts := WorkFirst(c, s, acts, t);
  }

  /** The sources from i on served, those before it and everything else left alone. */
  predicate SweptFrom(s: State, t: State, i: nat) {
    && i <= |s.srcs| == |t.srcs|
    && t.ep.pc.ELoopTest? && t.ep.n == s.ep.n.(events := s.ep.n.events + ActiveFrom(s.srcs, i))
    && (forall k :: 0 <= k < i ==> t.srcs[k] == s.srcs[k])
    && (forall k :: i <= k < |s.srcs| ==> ServedBy(s.srcs[k], t.srcs[k], s.now))
    && t.main == s.main && t.bars == s.bars && t.heap == s.heap && t.now == s.now
    && t.db == s.db && t.event == s.event && t.armed == s.armed && t.presses == s.presses
  }

  lemma SweptBy(s: State, m: State, t: State)
    requires s.ep.i < |s.srcs| && SweptFrom(m, t, s.ep.i + 1) && OnlySource(s, m, s.ep.i)
    requires ServedBy(s.srcs[s.ep.i], m.srcs[s.ep.i], s.now)
    requires m.ep.n == s.ep.n.(events := s.ep.n.events + if s.srcs[s.ep.i].active then 1 else 0)
    ensures SweptFrom(s, t, s.ep.i)
  {
    ActiveElsewhere(s.srcs, m.srcs, s.ep.i + 1);
  }

  lemma SkipInactive(c: Config, s: State)
    requires Shaped(c, s) && s.ep.pc.ETest? && s.ep.i < |s.srcs| && !s.srcs[s.ep.i].active
    ensures ApplyEpSweep(s) == s.(ep := s.ep.(i := s.ep.i + 1))
  {
  }

  /** From any point between two sources, the EP alone finishes the sweep. */
  lemma {:induction false} SweepAlone(c: Config, s: State) returns (acts: seq<Act>, t: State)
    requires Shaped(c, s) && s.ep.pc.ETest?
    ensures Run(c, s, acts, t) && OnlyEp(acts) && SweptFrom(s, t, s.ep.i)
    decreases |s.srcs| - s.ep.i
  {
    if s.ep.i == |s.srcs| {
      acts, t := EndAlone(c, s);
    } else {
      var next := AfterSource(c, s);
      var rest;
      rest, t := SweepAlone(c, next);
      SweptBy(s, next, t);
      acts := SourceFirst(c, s, next, rest, t);
    }
  }

  lemma EndAlone(c: Config, s: State) returns (acts: seq<Act>, t: State)
    requires Shaped(c, s) && s.ep.pc.ETest? && s.ep.i == |s.srcs|
    ensures Run(c, s, acts, t) && OnlyEp(acts) && SweptFrom(s, t, s.ep.i)
  {
    t := ApplyEpSweep(s);
    assert Run(c, t, [], t);
    StepFirst(c, s, [], t);
    acts := [EpStep(false)] + [];
  }

  function PastSource(s: State): State
    requires s.ep.pc.ETest? && s.ep.i < |s.srcs|
  {
    if s.srcs[s.ep.i].active then
      WorkedIs(s);
      WasReset(Worked(s))
    else ApplyEpSweep(s)
  }

  lemma AfterSource(c: Config, s: State) returns (next: State)
    requires Shaped(c, s) && s.ep.pc.ETest? && s.ep.i < |s.srcs|
    ensures next == PastSource(s) && Shaped(c, next) && next.ep.pc.ETest? && next.ep.i == s.ep.i + 1
    ensures OnlySource(s, next, s.ep.i) && ServedBy(s.srcs[s.ep.i], next.srcs[s.ep.i], s.now)
    ensures next.ep.n == s.ep.n.(events := s.ep.n.events + if s.srcs[s.ep.i].active then 1 else 0)
  {
    next := PastSource(s);
    if s.srcs[s.ep.i].active { HandledServes(s); } else { SkipInactive(c, s); }
  }

  lemma SourceFirst(c: Config, s: State, next: State, rest: seq<Act>, t: State) returns (acts: seq<Act>)
    requires Shaped(c, s) && s.ep.pc.ETest? && s.ep.i < |s.srcs| && next == PastSource(s)
    requires Run(c, next, rest, t) && OnlyEp(rest)
    ensures Run(c, s, acts, t) && OnlyEp(acts)
  {
    if s.srcs[s.ep.i].active {
      WorkedIs(s);
      acts := HandleFirst(c, s, rest, t);
    } else {
      StepFirst(c, s, rest, t);
      acts := [EpStep(false)] + rest;
    }
  }
}
