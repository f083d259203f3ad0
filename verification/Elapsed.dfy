// The EP's idle time and every source's latency samples over a whole run, told by the clock at the
// steps that take the stamps.
module Elapsed {
  import opened Clock
  import opened Latency
  import opened Words
  import opened Protocol
  import opened Phases
  import opened Delivery
  import opened IdleTime
  import opened Accounting
  import opened Observed

  // ----- The clock -----

  lemma StepClock(c: Config, s: State, a: Act)
    requires Shaped(c, s) && Enabled(c, s, a)
    ensures Apply(c, s, a).now == s.now + if a.Tick? then a.d else 0
  {
    match a
    case SrcStep(i) => if SrcLooping(s.srcs[i].pc) { LoopKeeps(c, s, i); } else { GateClock(c, s, i); }
    case EpStep(lost) => EpClock(c, s, lost);
    case MainStep => MainClock(c, s);
    case _ =>
  }

  lemma EpClock(c: Config, s: State, lost: bool)
    requires EpInBounds(s) && EpEnabled(s)
    ensures ApplyEp(c, s, lost).now == s.now
  {
    if EpWaking(s.ep.pc) { WakingLeads(c, s, lost); }
    else if Sweeping(s.ep.pc) { SweepKeeps(s); }
    else if EpBoots(s.ep.pc) { BootKeeps(c, s); }
    else { QuitKeeps(s); }
  }

  lemma MainClock(c: Config, s: State)
    requires s.main.i < |s.srcs|
    ensures ApplyMain(c, s).now == s.now
  {
    if MainLaunches(s.main.pc) { LaunchClock(c, s); }
    else if MainSetsUp(s.main.pc) { SetupKeeps(s); }
    else { MainKeepsBooks(c, s); }
  }

  lemma LaunchClock(c: Config, s: State)
    requires MainLaunches(s.main.pc)
    ensures ApplyMainLaunch(c, s).now == s.now
  {
  }

  function Ticks(acts: seq<Act>): nat {
    if acts == [] then 0 else (if acts[0].Tick? then acts[0].d else 0) + Ticks(acts[1..])
  }

  /** Time passes only between the steps of the threads. */
  lemma {:induction false} RunClock(c: Config, s: State, acts: seq<Act>, t: State)
    requires Run(c, s, acts, t)
    ensures t.now == s.now + Ticks(acts)
    decreases |acts|
  {
    if acts != [] {
      StepClock(c, s, acts[0]);
      RunClock(c, Apply(c, s, acts[0]), acts[1..], t);
    }
  }

  // ----- The steps that take stamps and use them -----

  predicate EpFrom(s: State, a: Act, pc: EpPc) { a.EpStep? && s.ep.pc == pc }

  predicate StampsStart(s: State, a: Act, i: nat) { a == SrcStep(i) && i < |s.srcs| && s.srcs[i].pc.SStamp? }

  /** The EP's end stamp for source i; main's reset takes one as well. */
  predicate StampsEnd(s: State, a: Act, i: nat) {
    || (EpFrom(s, a, EEndStamp) && s.ep.i == i)
    || (a.MainStep? && s.main == Main(MInit, i))
  }

  /** The EP accounts the difference of the two. */
  predicate Accounts(s: State, a: Act, i: nat) { EpFrom(s, a, EDiff) && s.ep.i == i }

  lemma StepIdleStart(c: Config, s: State, a: Act)
    requires Shaped(c, s) && Enabled(c, s, a)
    ensures Apply(c, s, a).ep.t.idleStart == if EpFrom(s, a, EIdleStamp) then s.now else s.ep.t.idleStart
  {
    match a
    case SrcStep(i) => if SrcLooping(s.srcs[i].pc) { LoopStamps(c, s, i); } else { GateOnlyMoves(c, s, i); }
    case EpStep(lost) => EpStamps(c, s, lost);
    case MainStep => MainStepEnds(c, s);
    case _ =>
  }

  lemma StepStart(c: Config, s: State, a: Act, i: nat)
    requires Shaped(c, s) && Enabled(c, s, a) && i < |s.srcs|
    ensures var t := Apply(c, s, a);
            |t.srcs| == |s.srcs| && t.srcs[i].start == if StampsStart(s, a, i) then s.now else s.srcs[i].start
  {
    StepStamps(c, s, a, Start(i));
  }

  lemma StepEnd(c: Config, s: State, a: Act, i: nat)
    requires Shaped(c, s) && Enabled(c, s, a) && i < |s.srcs|
    ensures var t := Apply(c, s, a);
            |t.srcs| == |s.srcs| && t.srcs[i].end == if StampsEnd(s, a, i) then s.now else s.srcs[i].end
  {
    StepStamps(c, s, a, End(i));
    EitherHits(c, EpOn(EEndStamp, i), MainAt(MInit, i), s, a);
  }

  // ----- Idle time -----

  /** The time from each stamp before WFE to the stamp after it, summed over a run; `from` is the
      clock at the last stamp before WFE. */
  function IdleSum(c: Config, s: State, acts: seq<Act>, from: nat): int
    decreases |acts|
  {
    if acts == [] || !Shaped(c, s) || !Enabled(c, s, acts[0]) then 0
    else
      (if EpFrom(s, acts[0], EWokeStamp) then s.now - from else 0)
      + IdleSum(c, Apply(c, s, acts[0]), acts[1..], if EpFrom(s, acts[0], EIdleStamp) then s.now else from)
  }

  lemma WakingIdle(c: Config, s: State, lost: bool)
    requires EpWaking(s.ep.pc) && Timed(s) && s.now < TWO_64
    ensures ApplyEpWaking(c, s, lost).ep.t.inactive
         == s.ep.t.inactive + if s.ep.pc.EWokeStamp? then s.now - s.ep.t.idleStart else 0
  {
    if s.ep.pc.EWokeStamp? { IdleAdds(s.ep.t, s.now); }
    else {
      match s.ep.pc {
        case ELoopTest => case EIdleStamp => case EWfe => case ERearm => case EWake =>
      }
    }
  }

  lemma OtherIdle(c: Config, s: State, lost: bool)
    requires EpInBounds(s) && EpEnabled(s) && !EpWaking(s.ep.pc)
    ensures ApplyEp(c, s, lost).ep.t.inactive == s.ep.t.inactive
  {
    if Sweeping(s.ep.pc) { SweepTimes(s); }
  }

  lemma StepIdle(c: Config, s: State, a: Act)
    requires Phased(c, s) && Enabled(c, s, a) && Timed(s) && s.now < TWO_64
    ensures Apply(c, s, a).ep.t.inactive
         == s.ep.t.inactive + if EpFrom(s, a, EWokeStamp) then s.now - s.ep.t.idleStart else 0
  {
    match a
    case SrcStep(i) => if SrcLooping(s.srcs[i].pc) { LoopKeeps(c, s, i); } else { GateOnlyMoves(c, s, i); }
    case EpStep(lost) => if EpWaking(s.ep.pc) { WakingIdle(c, s, lost); } else { OtherIdle(c, s, lost); }
    case MainStep => MainStepEnds(c, s);
    case _ =>
  }

  lemma IdleStep(c: Config, s: State, a: Act, u: State)
    requires Phased(c, s) && Timed(s) && Enabled(c, s, a) && s.now < TWO_64 && u == Apply(c, s, a)
    ensures Phased(c, u) && Timed(u)
    ensures u.ep.t.inactive == s.ep.t.inactive + if EpFrom(s, a, EWokeStamp) then s.now - s.ep.t.idleStart else 0
    ensures u.ep.t.idleStart == if EpFrom(s, a, EIdleStamp) then s.now else s.ep.t.idleStart
  {
    StepIdle(c, s, a);
    StepIdleStart(c, s, a);
    StepPhased(c, s, a);
    StepTimed(c, s, a);
  }

  lemma IdleNext(c: Config, s: State, acts: seq<Act>, from: nat, u: State)
    requires acts != [] && Shaped(c, s) && Enabled(c, s, acts[0]) && u == Apply(c, s, acts[0])
    ensures IdleSum(c, s, acts, from)
         == (if EpFrom(s, acts[0], EWokeStamp) then s.now - from else 0)
            + IdleSum(c, u, acts[1..], if EpFrom(s, acts[0], EIdleStamp) then s.now else from)
  {
  }

  lemma RunFirst(c: Config, s: State, acts: seq<Act>, t: State) returns (u: State)
    requires acts != [] && Run(c, s, acts, t)
    ensures Shaped(c, s) && Enabled(c, s, acts[0]) && u == Apply(c, s, acts[0]) && Run(c, u, acts[1..], t)
    ensures s.now <= u.now <= t.now
  {
    u := Apply(c, s, acts[0]);
    StepClock(c, s, acts[0]);
    RunClock(c, u, acts[1..], t);
  }

  lemma {:induction false} RunIdle(c: Config, s: State, acts: seq<Act>, t: State)
    requires Phased(c, s) && Timed(s) && Run(c, s, acts, t) && t.now < TWO_64
    ensures t.ep.t.inactive == s.ep.t.inactive + IdleSum(c, s, acts, s.ep.t.idleStart)
    decreases |acts|
  {
    if acts != [] {
      var u := RunFirst(c, s, acts, t);
      IdleStep(c, s, acts[0], u);
      IdleNext(c, s, acts, s.ep.t.idleStart, u);
      RunIdle(c, u, acts[1..], t);
    }
  }

  /** An EP that is not between the two stamps takes the first before the second. */
  lemma {:induction false} SumIgnores(c: Config, s: State, acts: seq<Act>, t: State, d: nat, d': nat)
    requires Phased(c, s) && Run(c, s, acts, t) && (s.ep.pc.EWfe? || s.ep.pc.EWokeStamp? ==> d == d')
    ensures IdleSum(c, s, acts, d) == IdleSum(c, s, acts, d')
    decreases |acts|
  {
    if acts != [] {
      var u, e := Apply(c, s, acts[0]), if EpFrom(s, acts[0], EIdleStamp) then s.now else d;
      StepPhased(c, s, acts[0]);
      IntoWfe(c, s, acts[0]);
      SumIgnores(c, u, acts[1..], t, e, if EpFrom(s, acts[0], EIdleStamp) then s.now else d');
    }
  }

  lemma IntoWfe(c: Config, s: State, a: Act)
    requires Phased(c, s) && Enabled(c, s, a)
    ensures var pc := Apply(c, s, a).ep.pc;
            pc.EWfe? || pc.EWokeStamp? ==> EpFrom(s, a, EIdleStamp) || s.ep.pc.EWfe? || s.ep.pc.EWokeStamp?
  {
    match a
    case SrcStep(i) => if SrcLooping(s.srcs[i].pc) { LoopKeeps(c, s, i); } else { GateOnlyMoves(c, s, i); }
    case EpStep(lost) => EpIntoWfe(c, s, lost);
    case MainStep => MainPath(c, s);
    case _ =>
  }

  lemma EpIntoWfe(c: Config, s: State, lost: bool)
    requires EpInBounds(s) && EpEnabled(s)
    ensures var pc := ApplyEp(c, s, lost).ep.pc;
            pc.EWfe? || pc.EWokeStamp? ==> s.ep.pc.EIdleStamp? || s.ep.pc.EWfe?
  {
    if EpWaking(s.ep.pc) { WakingIntoWoke(c, s, lost); }
    else if Sweeping(s.ep.pc) { SweepPath(s); }
  }

  lemma WakingIntoWoke(c: Config, s: State, lost: bool)
    requires EpWaking(s.ep.pc)
    ensures var pc := ApplyEpWaking(c, s, lost).ep.pc;
            pc.EWfe? || pc.EWokeStamp? ==> s.ep.pc.EIdleStamp? || s.ep.pc.EWfe?
  {
    match s.ep.pc {
      case ELoopTest => case EIdleStamp => case EWfe => case EWokeStamp => case ERearm => case EWake =>
    }
  }

  /** Over any run, the inactive total is the time the EP spent between the stamps around WFE. */
  lemma {:induction false} IdleTotal(c: Config, s0: State, acts: seq<Act>, t: State)
    requires c.Valid() && Init(c, s0) && Run(c, s0, acts, t) && t.now < TWO_64
    ensures t.ep.t.inactive == IdleSum(c, s0, acts, 0)
  {
    InitPhased(c, s0);
    RunIdle(c, s0, acts, t);
    SumIgnores(c, s0, acts, t, s0.ep.t.idleStart, 0);
  }

  // ----- Samples -----

  /** The sample that a step adds to the trace. */
  function Sample(s: State, a: Act, i: nat, start: nat, end: nat): seq<nat> {
    if Accounts(s, a, i) && start < end then [end - start] else []
  }

  /** The accepted samples of source i: at each accounting step, the clock at the EP's last end stamp
      for it minus the clock at its last activation stamp, if that is positive. */
  function SampleTrace(c: Config, s: State, acts: seq<Act>, i: nat, start: nat, end: nat): seq<nat>
    decreases |acts|
  {
    if acts == [] || !Shaped(c, s) || !Enabled(c, s, acts[0]) then []
    else
      Sample(s, acts[0], i, start, end)
      + SampleTrace(c, Apply(c, s, acts[0]), acts[1..], i,
                    if StampsStart(s, acts[0], i) then s.now else start,
                    if StampsEnd(s, acts[0], i) then s.now else end)
  }

  lemma DiffLogs(s: State)
    requires EpInBounds(s) && s.ep.pc.EDiff? && Booked(s) && s.now < TWO_63
    ensures var x, y := s.srcs[s.ep.i], ApplyEpSweep(s).srcs[s.ep.i];
            y.h.log == x.h.log + if x.start < x.end then [x.end - x.start] else []
  {
    var x := s.srcs[s.ep.i];
    assert Ordered(x, s.now);
    LoggedStamps(x.h.log, OfNanos(x.start), OfNanos(x.end));
  }

  lemma SweepLogs(s: State, lost: bool, c: Config, i: nat)
    requires EpInBounds(s) && Sweeping(s.ep.pc) && Booked(s) && s.now < TWO_63 && i < |s.srcs|
    ensures var t := ApplyEpSweep(s);
            && |t.srcs| == |s.srcs|
            && t.srcs[i].h.log == s.srcs[i].h.log
                                  + Sample(s, EpStep(lost), i, s.srcs[i].start, s.srcs[i].end)
  {
    SweepKeeps(s);
    if s.ep.i == i {
      if s.ep.pc.EDiff? { DiffLogs(s); } else { SweepSameLog(s); }
    }
  }

  lemma StepLogs(c: Config, s: State, a: Act, i: nat)
    requires Phased(c, s) && Gone(s) && Booked(s) && Enabled(c, s, a) && s.now < TWO_63 && i < |s.srcs|
    ensures var t := Apply(c, s, a);
            && |t.srcs| == |s.srcs|
            && t.srcs[i].h.log == s.srcs[i].h.log
                                  + Sample(s, a, i, s.srcs[i].start, s.srcs[i].end)
  {
    GoFacts(c, s);
    match a
    case SrcStep(j) => if SrcLooping(s.srcs[j].pc) { LoopKeeps(c, s, j); } else { GateOnlyMoves(c, s, j); }
    case EpStep(lost) => if Sweeping(s.ep.pc) { SweepLogs(s, lost, c, i); } else { QuietLogs(c, s, lost); }
    case MainStep => MainTallies(c, s);
    case _ =>
  }

  lemma QuietLogs(c: Config, s: State, lost: bool)
    requires EpInBounds(s) && EpEnabled(s) && !Sweeping(s.ep.pc)
    ensures ApplyEp(c, s, lost).srcs == s.srcs
  {
    if EpWaking(s.ep.pc) { WakingStays(c, s, lost); }
    else if EpBoots(s.ep.pc) { BootKeeps(c, s); }
    else { QuitKeeps(s); }
  }

  lemma LogStep(c: Config, s: State, a: Act, i: nat, u: State)
    requires Phased(c, s) && Gone(s) && Booked(s) && Enabled(c, s, a) && s.now < TWO_63 && i < |s.srcs|
    requires u == Apply(c, s, a)
    ensures Phased(c, u) && Gone(u) && Booked(u) && |u.srcs| == |s.srcs|
    ensures u.srcs[i].h.log == s.srcs[i].h.log
                               + Sample(s, a, i, s.srcs[i].start, s.srcs[i].end)
    ensures u.srcs[i].start == if StampsStart(s, a, i) then s.now else s.srcs[i].start
    ensures u.srcs[i].end == if StampsEnd(s, a, i) then s.now else s.srcs[i].end
  {
    StepLogs(c, s, a, i);
    StepStart(c, s, a, i);
    StepEnd(c, s, a, i);
    StepPhased(c, s, a);
    StepBooked(c, s, a);
    StepGone(c, s, a);
  }

  lemma TraceNext(c: Config, s: State, acts: seq<Act>, i: nat, start: nat, end: nat, u: State)
    requires acts != [] && Shaped(c, s) && Enabled(c, s, acts[0]) && u == Apply(c, s, acts[0])
    ensures SampleTrace(c, s, acts, i, start, end)
         == Sample(s, acts[0], i, start, end)
            + SampleTrace(c, u, acts[1..], i,
                          if StampsStart(s, acts[0], i) then s.now else start,
                          if StampsEnd(s, acts[0], i) then s.now else end)
  {
  }

  lemma {:induction false} RunLogs(c: Config, s: State, acts: seq<Act>, t: State, i: nat)
    requires Phased(c, s) && Gone(s) && Booked(s) && Run(c, s, acts, t) && t.now < TWO_63 && i < |s.srcs|
    ensures |t.srcs| == |s.srcs|
    ensures t.srcs[i].h.log == s.srcs[i].h.log + SampleTrace(c, s, acts, i, s.srcs[i].start, s.srcs[i].end)
    decreases |acts|
  {
    if acts != [] {
      var u := RunFirst(c, s, acts, t);
      LogStep(c, s, acts[0], i, u);
      RunLogs(c, u, acts[1..], t, i);
      TraceNext(c, s, acts, i, s.srcs[i].start, s.srcs[i].end, u);
      TraceJoins(s, acts[0], i, u.srcs[i].h.log, SampleTrace(c, u, acts[1..], i, u.srcs[i].start, u.srcs[i].end));
    }
  }

  lemma TraceJoins(s: State, a: Act, i: nat, log: seq<nat>, rest: seq<nat>)
    requires i < |s.srcs| && log == s.srcs[i].h.log + Sample(s, a, i, s.srcs[i].start, s.srcs[i].end)
    ensures log + rest == s.srcs[i].h.log + (Sample(s, a, i, s.srcs[i].start, s.srcs[i].end) + rest)
  {
  }

  /** From the go barrier on, the accumulators of every source are length, sum, minimum and maximum of
      the samples that the clock at the stamping steps tells; in doorbell builds always, in others if
      the EP has handled no event before. */
  lemma {:induction false} StatisticsOfTrace(c: Config, g: State, acts: seq<Act>, t: State, i: nat)
    requires c.Valid() && Reachable(c, g) && g.main.pc.MArriveGo? && (c.Doorbell() || g.ep.n.events == 0)
    requires Shaped(c, g) && Enabled(c, g, MainStep) && Run(c, Apply(c, g, MainStep), acts, t)
    requires t.now < TWO_63 && i < |g.srcs|
    ensures |t.srcs| == |g.srcs|
    ensures var trace := SampleTrace(c, Apply(c, g, MainStep), acts, i, g.srcs[i].start, g.srcs[i].end);
            Samples(trace) && Tracks(t.srcs[i].stats, trace)
  {
    var u := BooksOpen(c, g, i);
    RunLogs(c, u, acts, t, i);
    RunBooked(c, u, acts, t);
    assert Entered(t.srcs[i], t.now);
    assert [] + SampleTrace(c, u, acts, i, g.srcs[i].start, g.srcs[i].end)
        == SampleTrace(c, u, acts, i, g.srcs[i].start, g.srcs[i].end);
  }

  lemma BooksOpen(c: Config, g: State, i: nat) returns (u: State)
    requires c.Valid() && Reachable(c, g) && g.main.pc.MArriveGo? && (c.Doorbell() || g.ep.n.events == 0)
    requires Shaped(c, g) && Enabled(c, g, MainStep) && i < |g.srcs|
    ensures u == Apply(c, g, MainStep) && u.srcs == g.srcs && u.srcs[i].h.log == []
    ensures Phased(c, u) && Gone(u) && Booked(u)
  {
    u := Apply(c, g, MainStep);
    ReachableTallied(c, g);
    GoFacts(c, g);
    if c.Doorbell() { ReachableAccounted(c, g); }
    OpensBooked(c, g);
    assert Untouched(g.main, i, g.srcs[i]);
  }
}
