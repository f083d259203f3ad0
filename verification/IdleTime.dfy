// Time accounting: the WFE intervals of the EP lie inside its run.
module IdleTime {
  import opened Clock
  import opened Protocol
  import opened Phases
  import opened Words

  /** The active period so far has room for the idle time added up so far; at WFE, up to the
      start of the idle interval under way. */
  predicate Fits(t: Timing, pc: EpPc, now: nat) {
    if EpInLoop(pc) then
      if pc.EWfe? || pc.EWokeStamp? then t.activeStart + t.inactive <= t.idleStart <= now
      else t.activeStart + t.inactive <= now
    else if pc.EFinalStamp? then t.activeStart + t.inactive <= now
    else if EpLeft(pc) then t.activeStart + t.inactive <= t.activeEnd <= now
    else t.inactive == 0
  }

  /** Nanosecond clocks stay below 2^64 for centuries. */
  predicate Timed(s: State) {
    s.now < TWO_64 ==> Fits(s.ep.t, s.ep.pc, s.now)
  }

  lemma IdleAdds(t: Timing, now: nat)
    requires t.activeStart + t.inactive <= t.idleStart <= now < TWO_64
    ensures AddIdle(t, now) == t.(inactive := t.inactive + (now - t.idleStart))
  {
    TsDiffExact(OfNanos(t.idleStart), OfNanos(now));
  }

  lemma WokeTimed(c: Config, s: State, lost: bool)
    requires s.ep.pc.EWokeStamp? && Timed(s)
    ensures Timed(ApplyEpWaking(c, s, lost))
  {
    if s.now < TWO_64 { IdleAdds(s.ep.t, s.now); }
  }

  lemma WakingTimed(c: Config, s: State, lost: bool)
    requires EpWaking(s.ep.pc) && Timed(s)
    ensures Timed(ApplyEpWaking(c, s, lost))
  {
    if s.ep.pc.EWokeStamp? { WokeTimed(c, s, lost); }
    else {
      match s.ep.pc {
        case ELoopTest => case EIdleStamp => case EWfe => case ERearm => case EWake =>
      }
    }
  }

  lemma SweepLeavesTime(s: State)
    requires EpInBounds(s) && Sweeping(s.ep.pc)
    ensures ApplyEpSweep(s).now == s.now && ApplyEpSweep(s).ep.t == s.ep.t
    ensures Sweeping(ApplyEpSweep(s).ep.pc) || ApplyEpSweep(s).ep.pc.ELoopTest?
  {
    match s.ep.pc {
      case ETest => case EWork => case EEndStamp => case EStore => case EDiff =>
    }
  }

  lemma SweepTimed(s: State)
    requires EpInBounds(s) && Sweeping(s.ep.pc) && Timed(s)
    ensures Timed(ApplyEpSweep(s))
  {
    SweepLeavesTime(s);
    TimedKept(s, ApplyEpSweep(s));
  }

  lemma BootLeavesTime(c: Config, s: State)
    requires EpBoots(s.ep.pc) && !s.ep.pc.EActiveStamp?
    ensures var t := ApplyEpBoot(c, s); t.now == s.now && t.ep.t == s.ep.t && EpBoots(t.ep.pc)
  {
    match s.ep.pc {
      case EDbReset => case EArm => case EArrive => case EWait =>
    }
  }

  lemma ActiveStampTimed(c: Config, s: State)
    requires s.ep.pc.EActiveStamp? && Timed(s)
    ensures Timed(ApplyEpBoot(c, s))
  {
  }

  lemma BootTimed(c: Config, s: State)
    requires EpBoots(s.ep.pc) && Timed(s)
    ensures Timed(ApplyEpBoot(c, s))
  {
    if s.ep.pc.EActiveStamp? { ActiveStampTimed(c, s); }
    else {
      BootLeavesTime(c, s);
      TimedKept(s, ApplyEpBoot(c, s));
    }
  }

  lemma QuitTimed(s: State)
    requires EpQuits(s.ep.pc) && Timed(s)
    ensures Timed(ApplyEpQuit(s))
  {
    match s.ep.pc {
      case EFinalStamp => case EArriveDone => case EWaitDone =>
    }
  }

  lemma MainLeavesTime(c: Config, s: State)
    requires s.main.i < |s.srcs| && Births(s)
    ensures ApplyMain(c, s).now == s.now && ApplyMain(c, s).ep.t == s.ep.t
    ensures if s.main.pc.MCreateEp? then s.ep.pc.EUnborn? && EpBoots(ApplyMain(c, s).ep.pc)
            else ApplyMain(c, s).ep.pc == s.ep.pc
  {
  }

  lemma MainTimed(c: Config, s: State)
    requires Phased(c, s) && MainEnabled(c, s) && Timed(s)
    ensures Timed(ApplyMain(c, s))
  {
    MainLeavesTime(c, s);
    TimedKept(s, ApplyMain(c, s));
  }

  lemma TimedKept(s: State, t: State)
    requires Timed(s) && t.now == s.now && t.ep.t == s.ep.t
    requires || t.ep.pc == s.ep.pc
             || ((s.ep.pc.EUnborn? || (EpBoots(s.ep.pc) && !s.ep.pc.EActiveStamp?)) && EpBoots(t.ep.pc))
             || (Sweeping(s.ep.pc) && (Sweeping(t.ep.pc) || t.ep.pc.ELoopTest?))
    ensures Timed(t)
  {
  }

  lemma StepTimed(c: Config, s: State, a: Act)
    requires Phased(c, s) && Enabled(c, s, a) && Timed(s)
    ensures Timed(Apply(c, s, a))
  {
    match a
    case SrcStep(i) =>
      SrcIsMove(c, s, i);
      assert ApplySrc(c, s, i).now == s.now;
    case EpStep(lost) =>
      if EpWaking(s.ep.pc) { WakingTimed(c, s, lost); }
      else if Sweeping(s.ep.pc) { SweepTimed(s); }
      else if EpBoots(s.ep.pc) { BootTimed(c, s); }
      else { QuitTimed(s); }
    case MainStep => MainTimed(c, s);
    case _ =>
  }

  lemma {:induction false} RunTimed(c: Config, s: State, acts: seq<Act>, t: State)
    requires Phased(c, s) && Timed(s) && Run(c, s, acts, t)
    ensures Timed(t)
    decreases |acts|
  {
    if acts != [] {
      StepPhased(c, s, acts[0]);
      StepTimed(c, s, acts[0]);
      RunTimed(c, Apply(c, s, acts[0]), acts[1..], t);
    }
  }

  /** When the EP prints, its idle time is at most its active time, so the printed difference
      of the two uint64_t totals never wraps. */
  lemma IdleWithinActive(c: Config, s: State)
    requires c.Valid() && Reachable(c, s) && EpLeft(s.ep.pc) && !s.ep.pc.EFinalStamp? && s.now < TWO_64
    ensures var active := TsDiff(OfNanos(s.ep.t.activeStart), OfNanos(s.ep.t.activeEnd));
            && active == s.ep.t.activeEnd - s.ep.t.activeStart
            && s.ep.t.inactive <= active
            && Wrap64(active - s.ep.t.inactive) == active - s.ep.t.inactive
  {
    var s0, acts :| Init(c, s0) && Run(c, s0, acts, s);
    InitPhased(c, s0);
    RunTimed(c, s0, acts, s);
    TsDiffExact(OfNanos(s.ep.t.activeStart), OfNanos(s.ep.t.activeEnd));
  }
}
