// Shutdown: end_flag and the signal bring the EP out of its loop, and nobody waits forever.
module Shutdown {
  import opened Protocol
  import opened Phases

  // ----- Once main has sent the signal, an EP on its way into WFE has something to wake it -----

  /** main raises end_flag before it signals. An EP that tested the flag just before it was
      raised meets the pending signal, or the event that the handler's return has set. */
  predicate Rousable(s: State) {
    MainKilled(s.main.pc) && (s.ep.pc.EIdleStamp? || s.ep.pc.EWfe?) ==> s.ep.signal || s.event
  }

  predicate Stoppable(c: Config, s: State) {
    Phased(c, s) && Rousable(s)
  }

  lemma InitStoppable(c: Config, s: State)
    requires c.Valid() && Init(c, s)
    ensures Stoppable(c, s)
  {
    InitPhased(c, s);
  }

  lemma SrcRousable(c: Config, s: State, i: nat)
    requires SrcEnabled(c, s, i) && Rousable(s)
    ensures Rousable(ApplySrc(c, s, i))
  {
    SrcIsMove(c, s, i);
    assert s.event ==> ApplySrc(c, s, i).event;
  }

  lemma EpRousable(c: Config, s: State, lost: bool)
    requires Phased(c, s) && Rousable(s) && EpEnabled(s)
    ensures Rousable(ApplyEp(c, s, lost))
  {
    EpIsMove(c, s, lost);
    if EpWaking(s.ep.pc) { WakingIntoWfe(c, s, lost); }
    else if Sweeping(s.ep.pc) { SweepNotIntoWfe(s); }
    else { OtherNotIntoWfe(c, s, lost); }
  }

  /** WFE is approached only from a loop test that found end_flag clear. */
  lemma WakingIntoWfe(c: Config, s: State, lost: bool)
    requires EpWaking(s.ep.pc)
    ensures var t := ApplyEpWaking(c, s, lost);
            && (t.ep.pc.EIdleStamp? ==> s.ep.pc.ELoopTest? && !s.ep.endFlag)
            && (t.ep.pc.EWfe? ==> s.ep.pc.EIdleStamp? && t.event == s.event)
            && t.ep.signal == s.ep.signal && t.ep.endFlag == s.ep.endFlag && t.main == s.main
  {
    WakingStays(c, s, lost);
    match s.ep.pc {
      case ELoopTest => case EIdleStamp => case EWfe => case EWokeStamp => case ERearm => case EWake =>
    }
  }

  lemma SweepNotIntoWfe(s: State)
    requires EpInBounds(s) && Sweeping(s.ep.pc)
    ensures var t := ApplyEpSweep(s); !t.ep.pc.EWfe? && !t.ep.pc.EIdleStamp? && t.ep.n.sweeps == s.ep.n.sweeps
  {
    match s.ep.pc {
      case ETest => case EWork => case EEndStamp => case EStore => case EDiff =>
    }
  }

  lemma BootNotIntoWfe(c: Config, s: State)
    requires EpBoots(s.ep.pc)
    ensures !EpWaking(ApplyEpBoot(c, s).ep.pc) || ApplyEpBoot(c, s).ep.pc.ELoopTest?
    ensures ApplyEpBoot(c, s).ep.n == s.ep.n
  {
    match s.ep.pc {
      case EDbReset => case EArm => case EArrive => case EWait => case EActiveStamp =>
    }
  }

  lemma QuitNotIntoWfe(s: State)
    requires EpQuits(s.ep.pc)
    ensures !EpWaking(ApplyEpQuit(s).ep.pc) && ApplyEpQuit(s).ep.n == s.ep.n
  {
    match s.ep.pc {
      case EFinalStamp => case EArriveDone => case EWaitDone =>
    }
  }

  lemma OtherNotIntoWfe(c: Config, s: State, lost: bool)
    requires EpInBounds(s) && EpEnabled(s) && (EpBoots(s.ep.pc) || EpQuits(s.ep.pc))
    ensures !EpWaking(ApplyEp(c, s, lost).ep.pc) || ApplyEp(c, s, lost).ep.pc.ELoopTest?
    ensures ApplyEp(c, s, lost).ep.n == s.ep.n
  {
    if EpBoots(s.ep.pc) { BootNotIntoWfe(c, s); } else { QuitNotIntoWfe(s); }
  }

  lemma RunRousable(s: State)
    requires Rousable(s) && MainRuns(s.main.pc)
    ensures Rousable(ApplyMainRun(s))
  {
    match s.main.pc {
      case MWaitGo => case MRun => case MStopEp => case MKillEp => case MArriveFinish =>
    }
  }

  lemma StopRousable(s: State)
    requires s.main.i < |s.srcs| && Rousable(s) && MainStops(s.main.pc)
    ensures Rousable(ApplyMainStop(s))
  {
    match s.main.pc {
      case MWaitFinish => case MStop => case MKill => case MArriveEnd =>
    }
  }

  lemma MainRousable(c: Config, s: State)
    requires Phased(c, s) && Rousable(s) && MainEnabled(c, s)
    ensures Rousable(ApplyMain(c, s))
  {
    if MainRuns(s.main.pc) { RunRousable(s); }
    else if MainStops(s.main.pc) { StopRousable(s); }
    else if MainCleansUp(s.main.pc) {
      CleanUpStays(c, s);
      assert ApplyMainCleanUp(s).event == s.event;
    } else {
      MainIsMove(c, s);
    }
  }

  lemma StepStoppable(c: Config, s: State, a: Act)
    requires Stoppable(c, s) && Enabled(c, s, a)
    ensures Stoppable(c, Apply(c, s, a))
  {
    StepPhased(c, s, a);
    match a
    case SrcStep(i) => SrcRousable(c, s, i);
    case EpStep(lost) => EpRousable(c, s, lost);
    case MainStep => MainRousable(c, s);
    case IdleStep(_) =>
    case Deliver =>
    case Stir(_) =>
    case Tick(_) =>
  }

  lemma {:induction false} RunStoppable(c: Config, s: State, acts: seq<Act>, t: State)
    requires Stoppable(c, s) && Run(c, s, acts, t)
    ensures Stoppable(c, t)
    decreases |acts|
  {
    if acts != [] {
      StepStoppable(c, s, acts[0]);
      RunStoppable(c, Apply(c, s, acts[0]), acts[1..], t);
    }
  }

  lemma ReachableStoppable(c: Config, s: State)
    requires c.Valid() && Reachable(c, s)
    ensures Stoppable(c, s)
  {
    var s0, acts :| Init(c, s0) && Run(c, s0, acts, s);
    InitStoppable(c, s0);
    RunStoppable(c, s0, acts, s);
  }

  // ----- EP steps left until it leaves its loop, once end_flag is set -----

  function SweepLeft(n: nat, e: Ep): int {
    5 * (n - e.i) + 2 - if e.pc.ETest? then 0 else if e.pc.EWork? then 1 else if e.pc.EEndStamp? then 2
                         else if e.pc.EStore? then 3 else 4
  }

  function ExitRank(n: nat, e: Ep): int {
    if Sweeping(e.pc) then SweepLeft(n, e)
    else if e.pc.ELoopTest? then 1
    else if e.pc.EWake? then 5 * n + 3 else if e.pc.ERearm? then 5 * n + 4 else if e.pc.EWokeStamp? then 5 * n + 5
    else if e.pc.EWfe? then 5 * n + 6 else if e.pc.EIdleStamp? then 5 * n + 7
    else if e.pc.EActiveStamp? then 2 else if e.pc.EWait? then 3 else 4
  }

  /** A sweep that may still begin. */
  function Prospect(pc: EpPc): nat {
    if EpWaking(pc) && !pc.ELoopTest? then 1 else 0
  }

  lemma WakingExits(c: Config, s: State, lost: bool)
    requires EpWaking(s.ep.pc) && s.ep.endFlag
    ensures var t := ApplyEpWaking(c, s, lost);
            && (t.ep.pc.EFinalStamp? || ExitRank(|s.srcs|, t.ep) < ExitRank(|s.srcs|, s.ep))
            && t.ep.n.sweeps + Prospect(t.ep.pc) <= s.ep.n.sweeps + Prospect(s.ep.pc)
  {
    match s.ep.pc {
      case ELoopTest => case EIdleStamp => case EWfe => case EWokeStamp => case ERearm => case EWake =>
    }
  }

  lemma TestExits(s: State)
    requires EpInBounds(s) && s.ep.pc.ETest?
    ensures ExitRank(|s.srcs|, ApplyEpSweep(s).ep) < ExitRank(|s.srcs|, s.ep)
  {
  }

  lemma SweepExits(s: State)
    requires EpInBounds(s) && Sweeping(s.ep.pc)
    ensures ExitRank(|s.srcs|, ApplyEpSweep(s).ep) < ExitRank(|s.srcs|, s.ep)
  {
    if s.ep.pc.ETest? { TestExits(s); }
    else {
      match s.ep.pc {
        case EWork => case EEndStamp => case EStore => case EDiff =>
      }
    }
  }

  lemma BootExits(c: Config, s: State)
    requires EpBoots(s.ep.pc) && EpLeg(s.ep.pc) >= 1
    ensures ExitRank(|s.srcs|, ApplyEpBoot(c, s).ep) < ExitRank(|s.srcs|, s.ep)
  {
    match s.ep.pc {
      case EWait => case EActiveStamp => case _ =>
    }
  }

  lemma EpExits(c: Config, s: State, lost: bool)
    requires Stoppable(c, s) && MainKilled(s.main.pc) && EpEnabled(s) && !EpLeft(s.ep.pc)
    ensures var t := ApplyEp(c, s, lost);
            && (EpLeft(t.ep.pc) || ExitRank(|s.srcs|, t.ep) < ExitRank(|s.srcs|, s.ep))
            && t.ep.n.sweeps + Prospect(t.ep.pc) <= s.ep.n.sweeps + Prospect(s.ep.pc)
            && |t.srcs| == |s.srcs|
  {
    EpIsMove(c, s, lost);
    KilledFacts(c, s);
    if EpWaking(s.ep.pc) {
      WakingExits(c, s, lost);
    } else if Sweeping(s.ep.pc) {
      SweepExits(s);
      SweepNotIntoWfe(s);
      SweepLands(s);
      assert !EpWaking(ApplyEpSweep(s).ep.pc) || ApplyEpSweep(s).ep.pc.ELoopTest? by { SweepBackToTest(s); }
    } else {
      BootExits(c, s);
      OtherNotIntoWfe(c, s, lost);
    }
  }

  lemma SweepBackToTest(s: State)
    requires EpInBounds(s) && Sweeping(s.ep.pc)
    ensures ApplyEpSweep(s).ep.pc.ELoopTest? || Sweeping(ApplyEpSweep(s).ep.pc)
  {
    match s.ep.pc {
      case ETest => case EWork => case EEndStamp => case EStore => case EDiff =>
    }
  }

  lemma KilledFacts(c: Config, s: State)
    requires Phased(c, s) && MainKilled(s.main.pc)
    ensures s.ep.endFlag && EpLeg(s.ep.pc) >= 1 && !s.ep.pc.EUnborn?
    ensures StartOpen(s)
  {
    assert EpTickets(s.bars, EpLeg(s.ep.pc)) && MainTickets(s.bars, MainLeg(s.main.pc));
    assert MainGates(s.bars, |s.srcs|, MainLeg(s.main.pc));
    assert s.bars.started == {TMain, TEp};
  }

  /** The EP that has not left its loop can step, or the signal's delivery can. */
  lemma EpNotStuck(c: Config, s: State)
    requires Stoppable(c, s) && MainKilled(s.main.pc) && !EpLeft(s.ep.pc)
    ensures EpEnabled(s) || (s.ep.signal && Enabled(c, s, Deliver))
  {
    KilledFacts(c, s);
  }

  /** Steps of the other threads leave the EP where it is and the flag raised. */
  lemma OthersAside(c: Config, s: State, a: Act)
    requires Stoppable(c, s) && MainKilled(s.main.pc) && Enabled(c, s, a) && !a.EpStep?
    ensures var t := Apply(c, s, a);
            && MainKilled(t.main.pc) && |t.srcs| == |s.srcs|
            && t.ep.pc == s.ep.pc && t.ep.i == s.ep.i && t.ep.n == s.ep.n
  {
    match a
    case SrcStep(i) => SrcIsMove(c, s, i);
    case MainStep => MainStaysKilled(c, s);
    case _ =>
  }

  lemma MainStaysKilled(c: Config, s: State)
    requires s.main.i < |s.srcs| && MainEnabled(c, s) && MainKilled(s.main.pc)
    ensures var t := ApplyMain(c, s);
            MainKilled(t.main.pc) && |t.srcs| == |s.srcs| && t.ep.pc == s.ep.pc && t.ep.i == s.ep.i && t.ep.n == s.ep.n
  {
    if MainStops(s.main.pc) {
      match s.main.pc { case MWaitFinish => case MStop => case MKill => case MArriveEnd => }
    } else if MainCleansUp(s.main.pc) {
      CleanUpStays(c, s);
    }
  }

  /** In every run after the signal was sent, each EP step brings the exit closer. */
  lemma {:induction false} RunExits(c: Config, s: State, acts: seq<Act>, t: State)
    requires Stoppable(c, s) && MainKilled(s.main.pc) && Run(c, s, acts, t)
    ensures MainKilled(t.main.pc)
    ensures || EpLeft(t.ep.pc)
            || (!EpLeft(s.ep.pc) && EpSteps(acts) + ExitRank(|s.srcs|, t.ep) <= ExitRank(|s.srcs|, s.ep))
    ensures t.ep.n.sweeps <= s.ep.n.sweeps + Prospect(s.ep.pc)
    decreases |acts|
  {
    if acts != [] {
      var u := Apply(c, s, acts[0]);
      StepStoppable(c, s, acts[0]);
      if acts[0].EpStep? {
        EpIsMove(c, s, acts[0].lost);
        if EpLeft(s.ep.pc) { EpStaysLeft(c, s, acts[0].lost); }
        else { EpExits(c, s, acts[0].lost); }
      } else {
        OthersAside(c, s, acts[0]);
      }
      RunExits(c, u, acts[1..], t);
    }
  }

  /** EP shutdown: once main has raised end_flag and sent SIGUSR1, the EP is out of its loop
      after at most 5 N + 7 of its own steps and at most one further sweep. Until then it can
      always step, or the pending signal can be delivered. */
  lemma {:induction false} EpShutsDown(c: Config, s: State, acts: seq<Act>, t: State)
    requires c.Valid() && Reachable(c, s) && MainKilled(s.main.pc) && Run(c, s, acts, t)
    ensures EpSteps(acts) >= 5 * c.sources + 7 ==> EpLeft(t.ep.pc)
    ensures t.ep.n.sweeps <= s.ep.n.sweeps + 1
    ensures EpLeft(t.ep.pc) || EpEnabled(t) || t.ep.signal
  {
    ReachableStoppable(c, s);
    RunExits(c, s, acts, t);
    RunStoppable(c, s, acts, t);
    if !EpLeft(t.ep.pc) {
      EpNotStuck(c, t);
      ExitRankBounds(c.sources, s.ep);
      ExitRankBounds(c.sources, t.ep);
    }
  }

  lemma ExitRankBounds(n: nat, e: Ep)
    requires e.i <= n && (Handling(e.pc) ==> e.i < n)
    ensures 0 < ExitRank(n, e) <= 5 * n + 7
  {
  }

  // ----- Nobody waits forever -----

  /** Whenever main is blocked at a barrier, some thread that has not yet arrived there can step
      (for the EP asleep in WFE: the signal main has sent can be delivered). */
  lemma NoDeadlock(c: Config, s: State)
    requires c.Valid() && Reachable(c, s) && !s.main.pc.MExited?
    ensures MainEnabled(c, s)
         || (s.main.pc.MWaitStart? && EpLeg(s.ep.pc) < 1 && EpEnabled(s))
         || (s.main.pc.MWaitGo? && exists i :: 0 <= i < |s.srcs| && SrcLeg(s.srcs[i].pc) < 1 && SrcEnabled(c, s, i))
         || (s.main.pc.MWaitFinish? && EpLeg(s.ep.pc) < 3 && (EpEnabled(s) || s.ep.signal))
         || (s.main.pc.MWaitEnd? && ((exists i :: 0 <= i < |s.srcs| && SrcLeg(s.srcs[i].pc) < 3 && SrcEnabled(c, s, i))
                                     || exists k :: 0 <= k < c.idle && IdleEnabled(c, s, k)))
  {
    ReachableStoppable(c, s);
    if !MainEnabled(c, s) {
      match s.main.pc {
        case MWaitStart => StartNotStuck(c, s);
        case MWaitGo => GoNotStuck(c, s);
        case MWaitFinish => FinishNotStuck(c, s);
        case MWaitEnd => EndNotStuck(c, s);
        case _ =>
      }
    }
  }

  // A barrier whose participants have all arrived is open.

  lemma DuoOpens(part: set<Tid>)
    requires part <= {TMain, TEp}
    ensures TMain in part && TEp in part ==> |part| == 2
  {
    if TMain in part && TEp in part { assert part == {TMain, TEp}; }
  }

  lemma GoOpens(c: Config, s: State)
    requires Tickets(c, s) && |s.srcs| == c.sources
    ensures TMain in s.bars.go && (forall i :: 0 <= i < |s.srcs| ==> TSrc(i) in s.bars.go) ==> GoOpen(c, s)
  {
    CrowdIs(c.sources);
    if TMain in s.bars.go && forall i :: 0 <= i < |s.srcs| ==> TSrc(i) in s.bars.go {
      assert s.bars.go == Crowd(c.sources);
    }
  }

  predicate AllEnded(c: Config, s: State) {
    && TMain in s.bars.ended
    && (forall i :: 0 <= i < |s.srcs| ==> TSrc(i) in s.bars.ended)
    && (forall k :: 0 <= k < c.idle ==> TIdle(k) in s.bars.ended)
  }

  lemma EndOpens(c: Config, s: State)
    requires Tickets(c, s) && |s.srcs| == c.sources
    ensures AllEnded(c, s) ==> EndOpen(c, s)
  {
    EveryoneIs(c.sources, c.idle);
    if AllEnded(c, s) {
      assert s.bars.ended == Everyone(c.sources, c.idle);
    }
  }

  lemma StartNotStuck(c: Config, s: State)
    requires Phased(c, s) && s.main.pc.MWaitStart? && !StartOpen(s)
    ensures EpLeg(s.ep.pc) < 1 && EpEnabled(s)
  {
    assert MainTickets(s.bars, 1);
    DuoOpens(s.bars.started);
  }

  lemma GoNotStuck(c: Config, s: State)
    requires Phased(c, s) && s.main.pc.MWaitGo? && !GoOpen(c, s)
    ensures exists i :: 0 <= i < |s.srcs| && SrcLeg(s.srcs[i].pc) < 1 && SrcEnabled(c, s, i)
  {
    assert MainTickets(s.bars, 3);
    GoOpens(c, s);
    var i :| 0 <= i < |s.srcs| && TSrc(i) !in s.bars.go;
    assert SrcTickets(s.bars, i, SrcLeg(s.srcs[i].pc));
    BornEnabled(c, s, i);
  }

  /** A born source that has not finished can step once the go barrier is open or not yet reached. */
  lemma BornEnabled(c: Config, s: State, i: nat)
    requires i < |s.srcs| && !s.srcs[i].pc.SUnborn? && SrcLeg(s.srcs[i].pc) < 3
    requires SrcLeg(s.srcs[i].pc) == 1 ==> GoOpen(c, s)
    ensures SrcEnabled(c, s, i)
  {
  }

  lemma FinishNotStuck(c: Config, s: State)
    requires Stoppable(c, s) && s.main.pc.MWaitFinish? && !FinishOpen(s)
    ensures EpLeg(s.ep.pc) < 3 && (EpEnabled(s) || s.ep.signal)
  {
    assert MainTickets(s.bars, 5);
    KilledFacts(c, s);
    DuoOpens(s.bars.finished);
  }

  lemma EndNotStuck(c: Config, s: State)
    requires Phased(c, s) && s.main.pc.MWaitEnd? && !EndOpen(c, s)
    ensures (exists i :: 0 <= i < |s.srcs| && SrcLeg(s.srcs[i].pc) < 3 && SrcEnabled(c, s, i))
         || exists k :: 0 <= k < c.idle && IdleEnabled(c, s, k)
  {
    assert MainTickets(s.bars, 7) && MainGates(s.bars, |s.srcs|, 7);
    GoOpens(c, s);
    EndOpens(c, s);
    if i :| 0 <= i < |s.srcs| && TSrc(i) !in s.bars.ended {
      assert SrcTickets(s.bars, i, SrcLeg(s.srcs[i].pc));
      BornEnabled(c, s, i);
    } else {
      var k :| 0 <= k < c.idle && TIdle(k) !in s.bars.ended;
      assert IdleEnabled(c, s, k);
    }
  }
}
