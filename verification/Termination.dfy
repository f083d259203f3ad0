// The end of a run: after main has signalled the EP, the EP, main, the idle threads and every source
// that has been told to stop take only boundedly many steps, and one of them can always be taken
// until main has freed the tables and exited.
module Termination {
  import opened Protocol
  import opened Phases
  import opened Delivery
  import opened Shutdown

  // ----- What is left to do -----

  /** A source that has not been told may loop on; once told, it has at most eight steps. */
  function SrcRank(x: Source): nat {
    if !x.endFlag then 8
    else match x.pc
      case SExited => 0 case SWaitEnd => 1 case SArriveEnd => 2 case SLoopTest => 3
      case SSev => 4 case SWait => 4 case SPress => 5 case SArrive => 5
      case SActivate => 6 case SStamp => 7 case SSleep => 8 case SUnborn => 8
  }

  function SrcsRank(srcs: seq<Source>): nat {
    if srcs == [] then 0 else SrcRank(srcs[0]) + SrcsRank(srcs[1..])
  }

  function EpRank(n: nat, e: Ep): int {
    if e.pc.EExited? then 0 else if e.pc.EWaitDone? then 1 else if e.pc.EArriveDone? then 2
    else if e.pc.EFinalStamp? then 3 else 3 + ExitRank(n, e)
  }

  function MainRank(n: nat, m: Main): int {
    if m.pc.MExited? then 0 else if m.pc.MFreeProcessors? then 1 else if m.pc.MFreeSources? then 2
    else if m.pc.MLog? then 3 else if m.pc.MWaitEnd? then 4 else if m.pc.MArriveEnd? then 5
    else if m.pc.MKill? then 2 * (n - m.i) + 4 else if m.pc.MStop? then 2 * (n - m.i) + 5
    else if m.pc.MWaitFinish? then 2 * n + 6 else 2 * n + 7
  }

  function IdleRank(ended: set<Tid>, idle: nat): nat {
    if idle == 0 then 0 else IdleRank(ended, idle - 1) + if TIdle(idle - 1) in ended then 0 else 1
  }

  function SignalRank(e: Ep): nat { if e.signal then 1 else 0 }

  function Remaining(c: Config, s: State): int {
    SrcsRank(s.srcs) + EpRank(|s.srcs|, s.ep) + MainRank(|s.srcs|, s.main)
    + IdleRank(s.bars.ended, c.idle) + SignalRank(s.ep)
  }

  /** Everything but the steps of sources that have not been told, unrelated events and time. */
  predicate Progress(s: State, a: Act) {
    match a
    case SrcStep(i) => i < |s.srcs| && s.srcs[i].endFlag
    case EpStep(_) => true
    case MainStep => true
    case IdleStep(_) => true
    case Deliver => true
    case Stir(_) => false
    case Tick(_) => false
  }

  function ProgressSteps(c: Config, s: State, acts: seq<Act>): nat
    decreases |acts|
  {
    if acts == [] || !Shaped(c, s) || !Enabled(c, s, acts[0]) then 0
    else (if Progress(s, acts[0]) then 1 else 0) + ProgressSteps(c, Apply(c, s, acts[0]), acts[1..])
  }

  // ----- Bounds -----

  lemma {:induction false} SrcsBound(srcs: seq<Source>)
    ensures SrcsRank(srcs) <= 8 * |srcs|
  {
    if srcs != [] { SrcsBound(srcs[1..]); }
  }

  lemma {:induction false} IdleBound(ended: set<Tid>, idle: nat)
    ensures IdleRank(ended, idle) <= idle
  {
    if idle > 0 { IdleBound(ended, idle - 1); }
  }

  lemma MainBound(n: nat, m: Main)
    requires m.i < n && MainKilled(m.pc)
    ensures 0 <= MainRank(n, m) <= 2 * n + 7 && (MainRank(n, m) == 0 ==> m.pc.MExited?)
  {
  }

  lemma EpBound(n: nat, e: Ep)
    requires e.i <= n && (Handling(e.pc) ==> e.i < n)
    ensures 0 <= EpRank(n, e) <= 5 * n + 10
  {
    ExitRankBounds(n, e);
  }

  lemma RemainingBound(c: Config, s: State)
    requires Shaped(c, s) && MainKilled(s.main.pc)
    ensures 0 <= Remaining(c, s) <= 15 * c.sources + c.idle + 18
    ensures Remaining(c, s) == 0 ==> s.main.pc.MExited?
  {
    SrcsBound(s.srcs);
    IdleBound(s.bars.ended, c.idle);
    MainBound(|s.srcs|, s.main);
    EpBound(|s.srcs|, s.ep);
  }

  // ----- Source steps -----

  lemma {:induction false} SrcsUpdate(srcs: seq<Source>, i: nat, x: Source)
    requires i < |srcs|
    ensures SrcsRank(srcs[i := x]) + SrcRank(srcs[i]) == SrcsRank(srcs) + SrcRank(x)
    decreases i
  {
    if i == 0 {
      assert srcs[0 := x][1..] == srcs[1..];
    } else {
      assert srcs[i := x][1..] == srcs[1..][i - 1 := x];
      SrcsUpdate(srcs[1..], i - 1, x);
    }
  }

  lemma {:induction false} SrcsSame(srcs: seq<Source>, srcs': seq<Source>)
    requires |srcs| == |srcs'|
    requires forall i :: 0 <= i < |srcs| ==> srcs[i].pc == srcs'[i].pc && srcs[i].endFlag == srcs'[i].endFlag
    ensures SrcsRank(srcs) == SrcsRank(srcs')
  {
    if srcs != [] { SrcsSame(srcs[1..], srcs'[1..]); }
  }

  lemma LoopDescends(c: Config, s: State, i: nat)
    requires i < |s.srcs| && SrcLooping(s.srcs[i].pc)
    ensures var t := ApplySrcLoop(c, s, i);
            && |t.srcs| == |s.srcs| && t.srcs == s.srcs[i := t.srcs[i]] && t.srcs[i].endFlag == s.srcs[i].endFlag
            && (s.srcs[i].endFlag ==> SrcRank(t.srcs[i]) < SrcRank(s.srcs[i]))
            && t.ep == s.ep && t.main == s.main && t.bars == s.bars
  {
    match s.srcs[i].pc {
      case SLoopTest => case SSleep => case SStamp => case SActivate => case SPress => case SSev =>
    }
  }

  lemma GateDescends(c: Config, s: State, i: nat)
    requires SrcEnabled(c, s, i) && !SrcLooping(s.srcs[i].pc)
    ensures var t := ApplySrcGate(s, i);
            && |t.srcs| == |s.srcs| && t.srcs == s.srcs[i := t.srcs[i]] && t.srcs[i].endFlag == s.srcs[i].endFlag
            && (s.srcs[i].endFlag ==> SrcRank(t.srcs[i]) < SrcRank(s.srcs[i]))
            && t.ep == s.ep && t.main == s.main && s.bars.ended <= t.bars.ended <= s.bars.ended + {TSrc(i)}
  {
    match s.srcs[i].pc {
      case SArrive => case SWait => case SArriveEnd => case SWaitEnd =>
    }
  }

  lemma {:induction false} IdleSame(ended: set<Tid>, ended': set<Tid>, idle: nat)
    requires forall k :: 0 <= k < idle ==> (TIdle(k) in ended <==> TIdle(k) in ended')
    ensures IdleRank(ended, idle) == IdleRank(ended', idle)
  {
    if idle > 0 { IdleSame(ended, ended', idle - 1); }
  }

  lemma SrcDescends(c: Config, s: State, i: nat)
    requires SrcEnabled(c, s, i)
    ensures var t := ApplySrc(c, s, i);
            Remaining(c, t) + (if s.srcs[i].endFlag then 1 else 0) <= Remaining(c, s)
  {
    var t := ApplySrc(c, s, i);
    if SrcLooping(s.srcs[i].pc) { LoopDescends(c, s, i); } else { GateDescends(c, s, i); }
    SrcsUpdate(s.srcs, i, t.srcs[i]);
    IdleSame(s.bars.ended, t.bars.ended, c.idle);
  }

  // ----- EP steps -----

  /** The EP leaves program counters and stop flags of the sources, main and the end barrier alone. */
  predicate EpKeepsOthers(s: State, t: State) {
    && |t.srcs| == |s.srcs| && t.main == s.main && t.bars.ended == s.bars.ended && t.ep.signal == s.ep.signal
    && (forall j :: 0 <= j < |s.srcs| ==> t.srcs[j].pc == s.srcs[j].pc && t.srcs[j].endFlag == s.srcs[j].endFlag)
  }

  lemma SweepKeepsOthers(s: State)
    requires EpInBounds(s) && Sweeping(s.ep.pc)
    ensures EpKeepsOthers(s, ApplyEpSweep(s))
  {
    match s.ep.pc {
      case ETest => case EWork => case EEndStamp => case EStore => case EDiff =>
    }
  }

  lemma BootKeepsOthers(c: Config, s: State)
    requires EpBoots(s.ep.pc)
    ensures EpKeepsOthers(s, ApplyEpBoot(c, s))
  {
    match s.ep.pc {
      case EDbReset => case EArm => case EArrive => case EWait => case EActiveStamp =>
    }
  }

  lemma QuitDescends(s: State)
    requires EpQuits(s.ep.pc)
    ensures var t := ApplyEpQuit(s); EpKeepsOthers(s, t) && EpRank(|s.srcs|, t.ep) < EpRank(|s.srcs|, s.ep)
  {
    match s.ep.pc {
      case EFinalStamp => case EArriveDone => case EWaitDone =>
    }
  }

  lemma EpLeavesOthers(c: Config, s: State, lost: bool)
    requires EpInBounds(s) && EpEnabled(s)
    ensures EpKeepsOthers(s, ApplyEp(c, s, lost))
  {
    if EpWaking(s.ep.pc) { WakingStays(c, s, lost); }
    else if Sweeping(s.ep.pc) { SweepKeepsOthers(s); }
    else if EpBoots(s.ep.pc) { BootKeepsOthers(c, s); }
    else { QuitDescends(s); }
  }

  /** An EP that leaves its loop is at its final stamp. */
  lemma LeavesAtStamp(c: Config, s: State, lost: bool)
    requires EpInBounds(s) && EpEnabled(s) && !EpLeft(s.ep.pc)
    ensures EpLeft(ApplyEp(c, s, lost).ep.pc) ==> ApplyEp(c, s, lost).ep.pc.EFinalStamp?
  {
    if EpWaking(s.ep.pc) { WakingLands(c, s, lost); }
    else if Sweeping(s.ep.pc) { SweepLands(s); }
    else if EpBoots(s.ep.pc) { BootStaysIn(c, s); }
  }

  lemma BootStaysIn(c: Config, s: State)
    requires EpBoots(s.ep.pc)
    ensures !EpLeft(ApplyEpBoot(c, s).ep.pc)
  {
    match s.ep.pc {
      case EDbReset => case EArm => case EArrive => case EWait => case EActiveStamp =>
    }
  }

  lemma EpDescends(c: Config, s: State, lost: bool)
    requires Stoppable(c, s) && MainKilled(s.main.pc) && EpEnabled(s)
    ensures var t := ApplyEp(c, s, lost);
            |t.srcs| == |s.srcs| && EpRank(|s.srcs|, t.ep) < EpRank(|s.srcs|, s.ep)
  {
    EpLeavesOthers(c, s, lost);
    if EpLeft(s.ep.pc) {
      QuitDescends(s);
    } else {
      ExitRankBounds(|s.srcs|, s.ep);
      EpExits(c, s, lost);
      LeavesAtStamp(c, s, lost);
    }
  }

  // ----- Steps of main -----

  lemma MainDescends(c: Config, s: State)
    requires s.main.i < |s.srcs| && MainKilled(s.main.pc) && MainEnabled(c, s)
    ensures var t := ApplyMain(c, s);
            && |t.srcs| == |s.srcs| && MainRank(|s.srcs|, t.main) < MainRank(|s.srcs|, s.main)
            && SrcsRank(t.srcs) <= SrcsRank(s.srcs)
            && t.ep.pc == s.ep.pc && t.ep.i == s.ep.i && t.ep.signal == s.ep.signal
            && s.bars.ended <= t.bars.ended <= s.bars.ended + {TMain}
  {
    if MainStops(s.main.pc) { StopDescends(s); }
    else if MainCleansUp(s.main.pc) { CleanUpDescends(c, s); }
  }

  lemma StopDescends(s: State)
    requires s.main.i < |s.srcs| && MainStops(s.main.pc)
    ensures var t := ApplyMainStop(s);
            && |t.srcs| == |s.srcs| && MainRank(|s.srcs|, t.main) < MainRank(|s.srcs|, s.main)
            && SrcsRank(t.srcs) <= SrcsRank(s.srcs) && t.ep == s.ep
            && s.bars.ended <= t.bars.ended <= s.bars.ended + {TMain}
  {
    SrcsUpdate(s.srcs, s.main.i, s.srcs[s.main.i].(endFlag := true));
    match s.main.pc {
      case MWaitFinish => case MStop => case MKill => case MArriveEnd =>
    }
  }

  lemma CleanUpDescends(c: Config, s: State)
    requires MainCleansUp(s.main.pc)
    ensures var t := ApplyMainCleanUp(s);
            && MainRank(|s.srcs|, t.main) < MainRank(|s.srcs|, s.main)
            && t.srcs == s.srcs && t.ep == s.ep && t.bars == s.bars
  {
    match s.main.pc {
      case MWaitEnd => case MLog => case MFreeSources => case MFreeProcessors =>
    }
  }

  // ----- Idle threads -----

  lemma {:induction false} IdleDescends(ended: set<Tid>, idle: nat, k: nat)
    requires k < idle && TIdle(k) !in ended
    ensures IdleRank(ended + {TIdle(k)}, idle) < IdleRank(ended, idle)
  {
    if k < idle - 1 { IdleDescends(ended, idle - 1, k); }
    else { IdleSame(ended, ended + {TIdle(k)}, idle - 1); }
  }

  // ----- Runs -----

  lemma EpRemains(c: Config, s: State, lost: bool)
    requires Stoppable(c, s) && MainKilled(s.main.pc) && EpEnabled(s)
    ensures Remaining(c, ApplyEp(c, s, lost)) < Remaining(c, s)
  {
    EpDescends(c, s, lost);
    EpLeavesOthers(c, s, lost);
    SrcsSame(s.srcs, ApplyEp(c, s, lost).srcs);
  }

  lemma MainRemains(c: Config, s: State)
    requires s.main.i < |s.srcs| && MainKilled(s.main.pc) && MainEnabled(c, s)
    ensures Remaining(c, ApplyMain(c, s)) < Remaining(c, s)
  {
    MainDescends(c, s);
    IdleSame(s.bars.ended, ApplyMain(c, s).bars.ended, c.idle);
  }

  lemma StepDescends(c: Config, s: State, a: Act)
    requires Stoppable(c, s) && MainKilled(s.main.pc) && Enabled(c, s, a)
    ensures Remaining(c, Apply(c, s, a)) + (if Progress(s, a) then 1 else 0) <= Remaining(c, s)
  {
    match a
    case SrcStep(i) => SrcDescends(c, s, i);
    case EpStep(lost) => EpRemains(c, s, lost);
    case MainStep => MainRemains(c, s);
    case IdleStep(k) => IdleDescends(s.bars.ended, c.idle, k);
    case _ =>
  }

  lemma {:induction false} RunDescends(c: Config, s: State, acts: seq<Act>, t: State)
    requires Stoppable(c, s) && MainKilled(s.main.pc) && Run(c, s, acts, t)
    ensures Stoppable(c, t) && MainKilled(t.main.pc)
    ensures ProgressSteps(c, s, acts) + Remaining(c, t) <= Remaining(c, s)
    decreases |acts|
  {
    if acts != [] {
      var u := Apply(c, s, acts[0]);
      StepStoppable(c, s, acts[0]);
      StepDescends(c, s, acts[0]);
      StaysKilled(c, s, acts[0]);
      RunDescends(c, u, acts[1..], t);
    }
  }

  lemma StaysKilled(c: Config, s: State, a: Act)
    requires Stoppable(c, s) && MainKilled(s.main.pc) && Enabled(c, s, a)
    ensures MainKilled(Apply(c, s, a).main.pc)
  {
    match a
    case EpStep(lost) => EpIsMove(c, s, lost);
    case _ => OthersAside(c, s, a);
  }

  // ----- Every source has been told before main waits for it -----

  predicate Told(s: State) {
    && (s.main.pc.MStop? ==> forall j :: 0 <= j < s.main.i && j < |s.srcs| ==> s.srcs[j].endFlag)
    && (s.main.pc.MKill? ==> forall j :: 0 <= j <= s.main.i && j < |s.srcs| ==> s.srcs[j].endFlag)
    && (AfterStops(s.main.pc) ==> forall j :: 0 <= j < |s.srcs| ==> s.srcs[j].endFlag)
  }

  predicate AfterStops(pc: MainPc) { pc.MArriveEnd? || MainLeg(pc) >= 7 }

  lemma SrcTold(c: Config, s: State, i: nat)
    requires SrcEnabled(c, s, i) && Told(s)
    ensures Told(ApplySrc(c, s, i))
  {
    if SrcLooping(s.srcs[i].pc) { LoopDescends(c, s, i); } else { GateDescends(c, s, i); }
  }

  lemma MainTold(c: Config, s: State)
    requires s.main.i < |s.srcs| && Told(s)
    ensures Told(ApplyMain(c, s))
  {
    if MainLaunches(s.main.pc) { LaunchTold(c, s); }
    else if MainSetsUp(s.main.pc) { SetupTold(s); }
    else if MainRuns(s.main.pc) { BenchTold(s); }
    else if MainStops(s.main.pc) { StopTold(s); }
    else if MainCleansUp(s.main.pc) { CleanUpDescends(c, s); }
  }

  /** main has not begun to stop the sources. */
  predicate BeforeStops(pc: MainPc) { !pc.MStop? && !pc.MKill? && !AfterStops(pc) }

  lemma LaunchTold(c: Config, s: State)
    requires MainLaunches(s.main.pc)
    ensures BeforeStops(ApplyMainLaunch(c, s).main.pc)
  {
    match s.main.pc {
      case MCreateEp => case MArriveStart => case MWaitStart => case MAlloc =>
    }
  }

  lemma SetupTold(s: State)
    requires s.main.i < |s.srcs| && MainSetsUp(s.main.pc)
    ensures BeforeStops(ApplyMainSetup(s).main.pc)
  {
    match s.main.pc {
      case MInit => case MCreate => case MPrepare => case MArriveGo =>
    }
  }

  lemma BenchTold(s: State)
    requires MainRuns(s.main.pc)
    ensures BeforeStops(ApplyMainRun(s).main.pc)
  {
    match s.main.pc {
      case MWaitGo => case MRun => case MStopEp => case MKillEp => case MArriveFinish =>
    }
  }

  lemma StopTold(s: State)
    requires s.main.i < |s.srcs| && MainStops(s.main.pc) && Told(s)
    ensures Told(ApplyMainStop(s))
  {
    match s.main.pc {
      case MWaitFinish => case MStop => case MKill => case MArriveEnd =>
    }
  }

  lemma StepTold(c: Config, s: State, a: Act)
    requires Shaped(c, s) && Enabled(c, s, a) && Told(s)
    ensures Told(Apply(c, s, a))
  {
    match a
    case SrcStep(i) => SrcTold(c, s, i);
    case EpStep(lost) => EpLeavesOthers(c, s, lost);
    case MainStep => MainTold(c, s);
    case _ => assert Apply(c, s, a).srcs == s.srcs && Apply(c, s, a).main == s.main;
  }

  lemma {:induction false} RunTold(c: Config, s: State, acts: seq<Act>, t: State)
    requires Phased(c, s) && Told(s) && Run(c, s, acts, t)
    ensures Told(t)
    decreases |acts|
  {
    if acts != [] {
      StepPhased(c, s, acts[0]);
      StepTold(c, s, acts[0]);
      RunTold(c, Apply(c, s, acts[0]), acts[1..], t);
    }
  }

  lemma ReachableTold(c: Config, s: State)
    requires c.Valid() && Reachable(c, s)
    ensures Told(s)
  {
    var s0, acts :| Init(c, s0) && Run(c, s0, acts, s);
    InitPhased(c, s0);
    RunTold(c, s0, acts, s);
  }

  // ----- Main results -----

  /** After main has signalled the EP, a run has at most 15 N + idle + 18 steps of the EP, main, the
      idle threads and the sources told to stop, counting the signal's delivery; a run with as many
      as remain ends with the tables freed and main gone. */
  lemma {:induction false} TerminationBound(c: Config, s: State, acts: seq<Act>, t: State)
    requires c.Valid() && Reachable(c, s) && MainKilled(s.main.pc) && Run(c, s, acts, t)
    ensures ProgressSteps(c, s, acts) <= Remaining(c, s) <= 15 * c.sources + c.idle + 18
    ensures ProgressSteps(c, s, acts) == Remaining(c, s) ==> t.main.pc.MExited?
  {
    ReachableStoppable(c, s);
    RunDescends(c, s, acts, t);
    RemainingBound(c, s);
    RemainingBound(c, t);
  }

  ghost predicate SomeProgress(c: Config, s: State) {
    exists a :: Progress(s, a) && Enabled(c, s, a)
  }

  /** Until main is gone, such a step can be taken. */
  lemma {:induction false} AlwaysProgress(c: Config, s: State)
    requires c.Valid() && Reachable(c, s) && MainKilled(s.main.pc) && !s.main.pc.MExited?
    ensures SomeProgress(c, s)
  {
    NoDeadlock(c, s);
    ReachableTold(c, s);
    if MainEnabled(c, s) {
      assert Progress(s, MainStep) && Enabled(c, s, MainStep);
    } else if s.main.pc.MWaitFinish? {
      if EpEnabled(s) {
        assert Progress(s, EpStep(false)) && Enabled(c, s, EpStep(false));
      } else {
        assert Progress(s, Deliver) && Enabled(c, s, Deliver);
      }
    } else if i :| 0 <= i < |s.srcs| && SrcLeg(s.srcs[i].pc) < 3 && SrcEnabled(c, s, i) {
      assert Progress(s, SrcStep(i)) && Enabled(c, s, SrcStep(i));
    } else {
      var k :| 0 <= k < c.idle && IdleEnabled(c, s, k);
      assert Progress(s, IdleStep(k)) && Enabled(c, s, IdleStep(k));
    }
  }
}
