// What the stamps, words and counters of a state mean over a whole run: each is told by the steps
// taken, the program counters they were taken at and the clock there, in every run of every build.
module Observed {
  import opened Protocol
  import opened Phases
  import opened Delivery
  import opened Pending
  import opened Shutdown

  // ----- Steps of interest -----

  datatype Mark =
    | SrcAt(i: nat, spc: SrcPc)
    | AnySrcAt(spc: SrcPc)
    | EpAt(epc: EpPc)
    | EpOn(epc: EpPc, i: nat)
    | Finds
    | Skips
    | Exchanges
    | MainAt(mpc: MainPc, i: nat)
    | AnyMainAt(mpc: MainPc)
    | Delivers
    | Notices
    | Arms(yes: bool)
    | Disarms
    | Either(m: Mark, n: Mark)

  /** The step `a` from `s` is of this kind: by whom, from where, and on which source. */
  predicate Hits(c: Config, m: Mark, s: State, a: Act) {
    match m
    case SrcAt(i, pc) => a == SrcStep(i) && i < |s.srcs| && s.srcs[i].pc == pc
    case AnySrcAt(pc) => a.SrcStep? && a.i < |s.srcs| && s.srcs[a.i].pc == pc
    case EpAt(pc) => a.EpStep? && s.ep.pc == pc
    case EpOn(pc, i) => a.EpStep? && s.ep.pc == pc && s.ep.i == i
    case Finds => a.EpStep? && s.ep.pc.ETest? && s.ep.i < |s.srcs| && s.srcs[s.ep.i].active
    case Exchanges => a.EpStep? && s.ep.pc.EWake? && c.Doorbell()
    case Skips => a.EpStep? && s.ep.pc.EWake? && !s.db
    case AnyMainAt(pc) => a.MainStep? && s.main.pc == pc
    case Delivers => a.Deliver?
    case Notices => SetsEvent(c, s, a)
    case Arms(yes) => a.EpStep? && (s.ep.pc.EArm? || s.ep.pc.ERearm?) && c.armsDb == yes
    case Disarms => ClearsMonitor(c, s, a)
    case MainAt(pc, i) => a.MainStep? && s.main == Main(pc, i)
    case Either(m1, m2) => Hits(c, m1, s, a) || Hits(c, m2, s, a)
  }

  /** What sets the event register of the EP's core: SEV, an interrupt's return, any unrelated event,
      and the monitor when it is cleared. */
  predicate SetsEvent(c: Config, s: State, a: Act) {
    || a.Deliver? || a.Stir?
    || (a.SrcStep? && a.i < |s.srcs| && s.srcs[a.i].pc.SSev?)
    || (a.SrcStep? && a.i < |s.srcs| && s.srcs[a.i].pc.SPress? && s.armed)
    || (a.EpStep? && s.ep.pc.EWake? && c.Doorbell() && a.lost && s.armed)
  }

  /** What clears the monitor: a store to the armed word, an exception return, losing it. */
  predicate ClearsMonitor(c: Config, s: State, a: Act) {
    || a.Deliver? || (a.Stir? && a.clears)
    || (a.SrcStep? && a.i < |s.srcs| && s.srcs[a.i].pc.SPress?)
    || (a.EpStep? && s.ep.pc.EWake? && c.Doorbell() && a.lost)
  }

  /** How many steps of a run are of this kind. */
  function Count(c: Config, s: State, acts: seq<Act>, m: Mark): nat
    decreases |acts|
  {
    if acts == [] || !Shaped(c, s) || !Enabled(c, s, acts[0]) then 0
    else (if Hits(c, m, s, acts[0]) then 1 else 0) + Count(c, Apply(c, s, acts[0]), acts[1..], m)
  }

  /** The clock at the last step of this kind, or `d` without one. */
  function LastClock(c: Config, s: State, acts: seq<Act>, m: Mark, d: nat): nat
    decreases |acts|
  {
    if acts == [] || !Shaped(c, s) || !Enabled(c, s, acts[0]) then d
    else LastClock(c, Apply(c, s, acts[0]), acts[1..], m, if Hits(c, m, s, acts[0]) then s.now else d)
  }

  /** Whether the last step of either kind was the first kind, or `d` without one. */
  function Toggle(c: Config, s: State, acts: seq<Act>, up: Mark, down: Mark, d: bool): bool
    decreases |acts|
  {
    if acts == [] || !Shaped(c, s) || !Enabled(c, s, acts[0]) then d
    else Toggle(c, Apply(c, s, acts[0]), acts[1..], up, down,
                if Hits(c, up, s, acts[0]) then true else if Hits(c, down, s, acts[0]) then false else d)
  }

  // ----- Stamps -----

  datatype Stamp = Start(i: nat) | End(i: nat) | ActiveStart | ActiveEnd | IdleStart

  function StampOf(f: Stamp, s: State): nat {
    match f
    case Start(i) => if i < |s.srcs| then s.srcs[i].start else 0
    case End(i) => if i < |s.srcs| then s.srcs[i].end else 0
    case ActiveStart => s.ep.t.activeStart
    case ActiveEnd => s.ep.t.activeEnd
    case IdleStart => s.ep.t.idleStart
  }

  /** ts_now(&start_ts) in activate; ts_now(&end_ts) in reset, by the EP or by main; the EP's own. */
  function StampMark(f: Stamp): Mark {
    match f
    case Start(i) => SrcAt(i, SStamp)
    case End(i) => Either(EpOn(EEndStamp, i), MainAt(MInit, i))
    case ActiveStart => EpAt(EActiveStamp)
    case ActiveEnd => EpAt(EFinalStamp)
    case IdleStart => EpAt(EIdleStamp)
  }

  predicate Stamped(c: Config, f: Stamp, s: State, a: Act, t: State) {
    |t.srcs| == |s.srcs| && StampOf(f, t) == if Hits(c, StampMark(f), s, a) then s.now else StampOf(f, s)
  }

  lemma LoopStamps(c: Config, s: State, i: nat)
    requires i < |s.srcs| && SrcLooping(s.srcs[i].pc)
    ensures var t := ApplySrcLoop(c, s, i);
            && t.ep.t == s.ep.t && |t.srcs| == |s.srcs| && t.srcs == s.srcs[i := t.srcs[i]]
            && t.srcs[i].start == (if s.srcs[i].pc.SStamp? then s.now else s.srcs[i].start)
            && t.srcs[i].end == s.srcs[i].end
  {
    match s.srcs[i].pc {
      case SLoopTest => case SSleep => case SStamp => case SActivate => case SPress => case SSev =>
    }
  }

  lemma SrcStamps(c: Config, s: State, i: nat, f: Stamp)
    requires SrcEnabled(c, s, i)
    ensures Stamped(c, f, s, SrcStep(i), ApplySrc(c, s, i))
  {
    if SrcLooping(s.srcs[i].pc) { LoopStamps(c, s, i); } else { GateOnlyMoves(c, s, i); }
  }

  predicate EpTimes(s: State, t: State) {
    && t.ep.t.activeStart == (if s.ep.pc.EActiveStamp? then s.now else s.ep.t.activeStart)
    && t.ep.t.activeEnd == (if s.ep.pc.EFinalStamp? then s.now else s.ep.t.activeEnd)
    && t.ep.t.idleStart == (if s.ep.pc.EIdleStamp? then s.now else s.ep.t.idleStart)
  }

  predicate EpEnds(s: State, t: State) {
    && |t.srcs| == |s.srcs|
    && forall j :: 0 <= j < |s.srcs| ==>
         && t.srcs[j].start == s.srcs[j].start
         && t.srcs[j].end == if s.ep.pc.EEndStamp? && j == s.ep.i then s.now else s.srcs[j].end
  }

  lemma WakingTimes(c: Config, s: State, lost: bool)
    requires EpWaking(s.ep.pc)
    ensures EpTimes(s, ApplyEpWaking(c, s, lost))
  {
    match s.ep.pc {
      case ELoopTest => case EIdleStamp => case EWfe => case EWokeStamp => case ERearm => case EWake =>
    }
  }

  lemma SweepTimes(s: State)
    requires EpInBounds(s) && Sweeping(s.ep.pc)
    ensures ApplyEpSweep(s).ep.t == s.ep.t
  {
    match s.ep.pc {
      case ETest => case EWork => case EEndStamp => case EStore => case EDiff =>
    }
  }

  lemma SweepEnds(s: State)
    requires EpInBounds(s) && Sweeping(s.ep.pc)
    ensures EpEnds(s, ApplyEpSweep(s))
  {
    match s.ep.pc {
      case ETest => case EWork => case EEndStamp => case EStore => case EDiff =>
    }
  }

  lemma BootTimes(c: Config, s: State)
    requires EpBoots(s.ep.pc)
    ensures EpTimes(s, ApplyEpBoot(c, s)) && ApplyEpBoot(c, s).srcs == s.srcs
  {
    match s.ep.pc {
      case EDbReset => case EArm => case EArrive => case EWait => case EActiveStamp =>
    }
  }

  lemma QuitTimes(s: State)
    requires EpQuits(s.ep.pc)
    ensures EpTimes(s, ApplyEpQuit(s)) && ApplyEpQuit(s).srcs == s.srcs
  {
    match s.ep.pc {
      case EFinalStamp => case EArriveDone => case EWaitDone =>
    }
  }

  lemma EpStamps(c: Config, s: State, lost: bool)
    requires EpInBounds(s) && EpEnabled(s)
    ensures EpTimes(s, ApplyEp(c, s, lost)) && EpEnds(s, ApplyEp(c, s, lost))
  {
    if EpWaking(s.ep.pc) { WakingTimes(c, s, lost); WakingStays(c, s, lost); }
    else if Sweeping(s.ep.pc) { SweepTimes(s); SweepEnds(s); }
    else if EpBoots(s.ep.pc) { BootTimes(c, s); }
    else { QuitTimes(s); }
  }

  lemma EpStampsAll(c: Config, s: State, lost: bool, t: State, f: Stamp)
    requires EpInBounds(s) && EpTimes(s, t) && EpEnds(s, t)
    ensures Stamped(c, f, s, EpStep(lost), t)
  {
  }

  predicate MainEnds(s: State, t: State) {
    && t.ep.t == s.ep.t && |t.srcs| == |s.srcs|
    && forall j :: 0 <= j < |s.srcs| ==>
         && t.srcs[j].start == s.srcs[j].start
         && t.srcs[j].end == if s.main.pc.MInit? && j == s.main.i then s.now else s.srcs[j].end
  }

  lemma LaunchEnds(c: Config, s: State)
    requires MainLaunches(s.main.pc)
    ensures MainEnds(s, ApplyMainLaunch(c, s))
  {
    match s.main.pc {
      case MCreateEp => case MArriveStart => case MWaitStart => case MAlloc =>
    }
  }

  lemma SetupEnds(s: State)
    requires s.main.i < |s.srcs| && MainSetsUp(s.main.pc)
    ensures MainEnds(s, ApplyMainSetup(s))
  {
    match s.main.pc {
      case MInit => case MCreate => case MPrepare => case MArriveGo =>
    }
  }

  lemma RunEnds(s: State)
    requires MainRuns(s.main.pc)
    ensures MainEnds(s, ApplyMainRun(s))
  {
    match s.main.pc {
      case MWaitGo => case MRun => case MStopEp => case MKillEp => case MArriveFinish =>
    }
  }

  lemma StopEnds(s: State)
    requires s.main.i < |s.srcs| && MainStops(s.main.pc)
    ensures MainEnds(s, ApplyMainStop(s))
  {
    match s.main.pc {
      case MWaitFinish => case MStop => case MKill => case MArriveEnd =>
    }
  }

  lemma MainStepEnds(c: Config, s: State)
    requires s.main.i < |s.srcs|
    ensures MainEnds(s, ApplyMain(c, s))
  {
    if MainLaunches(s.main.pc) { LaunchEnds(c, s); }
    else if MainSetsUp(s.main.pc) { SetupEnds(s); }
    else if MainRuns(s.main.pc) { RunEnds(s); }
    else if MainStops(s.main.pc) { StopEnds(s); }
  }

  lemma MainStamps(c: Config, s: State, f: Stamp)
    requires s.main.i < |s.srcs|
    ensures Stamped(c, f, s, MainStep, ApplyMain(c, s))
  {
    MainStepEnds(c, s);
    assert s.main == Main(s.main.pc, s.main.i);
  }

  lemma StepStamps(c: Config, s: State, a: Act, f: Stamp)
    requires Shaped(c, s) && Enabled(c, s, a)
    ensures Stamped(c, f, s, a, Apply(c, s, a))
  {
    match a
    case SrcStep(i) => SrcStamps(c, s, i, f);
    case EpStep(lost) =>
      EpStamps(c, s, lost);
      EpStampsAll(c, s, lost, ApplyEp(c, s, lost), f);
    case MainStep => MainStamps(c, s, f);
    case _ =>
  }

  /** Every stamp holds the clock at the last step that takes it: a source's start at its last
      activation, whether or not it was still ACTIVE. */
  lemma {:induction false} StampsAreClocks(c: Config, s: State, acts: seq<Act>, t: State, f: Stamp)
    requires Run(c, s, acts, t)
    ensures StampOf(f, t) == LastClock(c, s, acts, StampMark(f), StampOf(f, s))
    decreases |acts|
  {
    if acts != [] {
      StepStamps(c, s, acts[0], f);
      StampsAreClocks(c, Apply(c, s, acts[0]), acts[1..], t, f);
    }
  }

  // ----- Counters -----

  datatype Tally = Wakeups | Events | Presses | Activations(i: nat) | Resets(i: nat)

  function TallyOf(f: Tally, s: State): nat {
    match f
    case Wakeups => s.ep.n.wakeups
    case Events => s.ep.n.events
    case Presses => s.presses
    case Activations(i) => if i < |s.srcs| then s.srcs[i].h.activations else 0
    case Resets(i) => if i < |s.srcs| then s.srcs[i].h.resets else 0
  }

  /** A wake-up is a step past WFE to the doorbell; an event is a test that finds a source ACTIVE. */
  function TallyMark(f: Tally): Mark {
    match f
    case Wakeups => EpAt(EWake)
    case Events => Finds
    case Presses => AnySrcAt(SPress)
    case Activations(i) => SrcAt(i, SActivate)
    case Resets(i) => EpOn(EStore, i)
  }

  predicate Tallies(c: Config, f: Tally, s: State, a: Act, t: State) {
    |t.srcs| == |s.srcs| && TallyOf(f, t) == TallyOf(f, s) + if Hits(c, TallyMark(f), s, a) then 1 else 0
  }

  lemma LoopTallies(c: Config, s: State, i: nat)
    requires i < |s.srcs| && SrcLooping(s.srcs[i].pc)
    ensures var t := ApplySrcLoop(c, s, i);
            && t.ep == s.ep && |t.srcs| == |s.srcs| && t.srcs == s.srcs[i := t.srcs[i]]
            && t.presses == s.presses + (if s.srcs[i].pc.SPress? then 1 else 0)
            && t.srcs[i].h.activations == s.srcs[i].h.activations + (if s.srcs[i].pc.SActivate? then 1 else 0)
            && t.srcs[i].h.resets == s.srcs[i].h.resets
  {
    match s.srcs[i].pc {
      case SLoopTest => case SSleep => case SStamp => case SActivate => case SPress => case SSev =>
    }
  }

  lemma GateTallies(c: Config, s: State, i: nat)
    requires SrcEnabled(c, s, i) && !SrcLooping(s.srcs[i].pc)
    ensures ApplySrcGate(s, i).presses == s.presses
  {
  }

  lemma SrcTallies(c: Config, s: State, i: nat, f: Tally)
    requires SrcEnabled(c, s, i)
    ensures Tallies(c, f, s, SrcStep(i), ApplySrc(c, s, i))
  {
    if SrcLooping(s.srcs[i].pc) { LoopTallies(c, s, i); }
    else { GateOnlyMoves(c, s, i); GateTallies(c, s, i); }
  }

  predicate EpTallied(s: State, t: State) {
    && t.ep.n.wakeups == s.ep.n.wakeups + (if s.ep.pc.EWake? then 1 else 0)
    && t.ep.n.events == s.ep.n.events
                        + (if s.ep.pc.ETest? && s.ep.i < |s.srcs| && s.srcs[s.ep.i].active then 1 else 0)
    && t.presses == s.presses && |t.srcs| == |s.srcs|
    && forall j :: 0 <= j < |s.srcs| ==>
         && t.srcs[j].h.activations == s.srcs[j].h.activations
         && t.srcs[j].h.resets == s.srcs[j].h.resets + if s.ep.pc.EStore? && j == s.ep.i then 1 else 0
  }

  lemma WakingTallies(c: Config, s: State, lost: bool)
    requires EpWaking(s.ep.pc)
    ensures EpTallied(s, ApplyEpWaking(c, s, lost))
  {
    WakingStays(c, s, lost);
    match s.ep.pc {
      case ELoopTest => case EIdleStamp => case EWfe => case EWokeStamp => case ERearm => case EWake =>
    }
  }

  lemma TestTallies(s: State)
    requires EpInBounds(s) && s.ep.pc.ETest?
    ensures EpTallied(s, ApplyEpSweep(s))
  {
  }

  lemma HandleTallies(s: State)
    requires EpInBounds(s) && Handling(s.ep.pc)
    ensures EpTallied(s, ApplyEpSweep(s))
  {
    match s.ep.pc {
      case EWork => case EEndStamp => case EStore => case EDiff =>
    }
  }

  lemma BootTallies(c: Config, s: State)
    requires EpBoots(s.ep.pc)
    ensures EpTallied(s, ApplyEpBoot(c, s))
  {
    match s.ep.pc {
      case EDbReset => case EArm => case EArrive => case EWait => case EActiveStamp =>
    }
  }

  lemma QuitTallies(s: State)
    requires EpQuits(s.ep.pc)
    ensures EpTallied(s, ApplyEpQuit(s))
  {
    match s.ep.pc {
      case EFinalStamp => case EArriveDone => case EWaitDone =>
    }
  }

  lemma EpTallies(c: Config, s: State, lost: bool)
    requires EpInBounds(s) && EpEnabled(s)
    ensures EpTallied(s, ApplyEp(c, s, lost))
  {
    if EpWaking(s.ep.pc) { WakingTallies(c, s, lost); }
    else if s.ep.pc.ETest? { TestTallies(s); }
    else if Handling(s.ep.pc) { HandleTallies(s); }
    else if EpBoots(s.ep.pc) { BootTallies(c, s); }
    else { QuitTallies(s); }
  }

  lemma EpTalliesAll(c: Config, s: State, lost: bool, t: State, f: Tally)
    requires EpInBounds(s) && EpTallied(s, t)
    ensures Tallies(c, f, s, EpStep(lost), t)
  {
  }

  /** main counts nothing. */
  predicate MainTallied(s: State, t: State) {
    && t.ep.n == s.ep.n && t.presses == s.presses && |t.srcs| == |s.srcs|
    && forall j :: 0 <= j < |s.srcs| ==> t.srcs[j].h == s.srcs[j].h
  }

  lemma LaunchTallies(c: Config, s: State)
    requires MainLaunches(s.main.pc)
    ensures MainTallied(s, ApplyMainLaunch(c, s))
  {
    match s.main.pc {
      case MCreateEp => case MArriveStart => case MWaitStart => case MAlloc =>
    }
  }

  lemma SetupTallies(s: State)
    requires s.main.i < |s.srcs| && MainSetsUp(s.main.pc)
    ensures MainTallied(s, ApplyMainSetup(s))
  {
    match s.main.pc {
      case MInit => case MCreate => case MPrepare => case MArriveGo =>
    }
  }

  lemma RunTallies(s: State)
    requires MainRuns(s.main.pc)
    ensures MainTallied(s, ApplyMainRun(s))
  {
    match s.main.pc {
      case MWaitGo => case MRun => case MStopEp => case MKillEp => case MArriveFinish =>
    }
  }

  lemma StopTallies(s: State)
    requires s.main.i < |s.srcs| && MainStops(s.main.pc)
    ensures MainTallied(s, ApplyMainStop(s))
  {
    match s.main.pc {
      case MWaitFinish => case MStop => case MKill => case MArriveEnd =>
    }
  }

  lemma MainTallies(c: Config, s: State)
    requires s.main.i < |s.srcs|
    ensures MainTallied(s, ApplyMain(c, s))
  {
    if MainLaunches(s.main.pc) { LaunchTallies(c, s); }
    else if MainSetsUp(s.main.pc) { SetupTallies(s); }
    else if MainRuns(s.main.pc) { RunTallies(s); }
    else if MainStops(s.main.pc) { StopTallies(s); }
  }

  lemma StepTallies(c: Config, s: State, a: Act, f: Tally)
    requires Shaped(c, s) && Enabled(c, s, a)
    ensures Tallies(c, f, s, a, Apply(c, s, a))
  {
    match a
    case SrcStep(i) => SrcTallies(c, s, i, f);
    case EpStep(lost) =>
      EpTallies(c, s, lost);
      EpTalliesAll(c, s, lost, ApplyEp(c, s, lost), f);
    case MainStep => MainTallies(c, s);
    case _ =>
  }

  /** Every counter grows by exactly the steps it counts. */
  lemma {:induction false} TalliesCount(c: Config, s: State, acts: seq<Act>, t: State, f: Tally)
    requires Run(c, s, acts, t)
    ensures TallyOf(f, t) == TallyOf(f, s) + Count(c, s, acts, TallyMark(f))
    decreases |acts|
  {
    if acts != [] {
      StepTallies(c, s, acts[0], f);
      TalliesCount(c, Apply(c, s, acts[0]), acts[1..], t, f);
    }
  }

  // ----- Spurious wake-ups -----

  function SkipDeeds(deeds: seq<Deed>): nat {
    if deeds == [] then 0 else (if deeds[0].Skip? then 1 else 0) + SkipDeeds(deeds[1..])
  }

  lemma WakingSpurious(c: Config, s: State, lost: bool)
    requires EpWaking(s.ep.pc)
    ensures ApplyEpWaking(c, s, lost).ep.n.spurious
         == s.ep.n.spurious + if c.Doorbell() && s.ep.pc.EWake? && !s.db then 1 else 0
  {
    match s.ep.pc {
      case ELoopTest => case EIdleStamp => case EWfe => case EWokeStamp => case ERearm => case EWake =>
    }
  }

  lemma SweepSpurious(s: State)
    requires EpInBounds(s) && Sweeping(s.ep.pc)
    ensures ApplyEpSweep(s).ep.n.spurious == s.ep.n.spurious
  {
    match s.ep.pc {
      case ETest => case EWork => case EEndStamp => case EStore => case EDiff =>
    }
  }

  lemma OtherSpurious(c: Config, s: State, lost: bool)
    requires EpEnabled(s) && EpInBounds(s) && !EpWaking(s.ep.pc) && !Sweeping(s.ep.pc)
    ensures ApplyEp(c, s, lost).ep.n.spurious == s.ep.n.spurious
  {
  }

  lemma StepSpurious(c: Config, s: State, a: Act)
    requires Shaped(c, s) && Enabled(c, s, a)
    ensures Apply(c, s, a).ep.n.spurious == s.ep.n.spurious + if c.Doorbell() && DeedOf(s, a).Skip? then 1 else 0
  {
    match a
    case SrcStep(i) => if SrcLooping(s.srcs[i].pc) { LoopTallies(c, s, i); } else { GateOnlyMoves(c, s, i); }
    case EpStep(lost) =>
      if EpWaking(s.ep.pc) { WakingSpurious(c, s, lost); }
      else if Sweeping(s.ep.pc) { SweepSpurious(s); }
      else { OtherSpurious(c, s, lost); }
    case MainStep => MainTallies(c, s);
    case _ =>
  }

  /** `spurious` counts exactly the skipped sweeps; without a doorbell there are none. */
  lemma {:induction false} SpuriousCounts(c: Config, s: State, acts: seq<Act>, t: State)
    requires Run(c, s, acts, t)
    ensures t.ep.n.spurious == s.ep.n.spurious + if c.Doorbell() then SkipDeeds(Deeds(c, s, acts)) else 0
    decreases |acts|
  {
    if acts != [] {
      StepSpurious(c, s, acts[0]);
      SpuriousCounts(c, Apply(c, s, acts[0]), acts[1..], t);
    }
  }

  // ----- Words that two kinds of step set and clear -----

  datatype Word = Active(i: nat) | Told(i: nat) | EpTold | Signal | Bell | Register | Monitor

  function WordOf(f: Word, s: State): bool {
    match f
    case Active(i) => i < |s.srcs| && s.srcs[i].active
    case Told(i) => i < |s.srcs| && s.srcs[i].endFlag
    case EpTold => s.ep.endFlag
    case Signal => s.ep.signal
    case Bell => s.db
    case Register => s.event
    case Monitor => s.armed
  }

  function Sets(f: Word): Mark {
    match f
    case Active(i) => SrcAt(i, SActivate)
    case Told(i) => MainAt(MStop, i)
    case EpTold => AnyMainAt(MStopEp)
    case Signal => AnyMainAt(MKillEp)
    case Bell => AnySrcAt(SPress)
    case Register => Notices
    case Monitor => Arms(true)
  }

  function Clears(f: Word): Mark {
    match f
    case Active(i) => Either(EpOn(EStore, i), MainAt(MInit, i))
    case Told(i) => MainAt(MCreate, i)
    case EpTold => AnyMainAt(MCreateEp)
    case Signal => Delivers
    case Bell => Either(EpAt(EDbReset), Exchanges)
    case Register => EpAt(EWfe)
    case Monitor => Either(Arms(false), Disarms)
  }

  predicate Switches(c: Config, f: Word, s: State, a: Act, t: State) {
    && |t.srcs| == |s.srcs|
    && WordOf(f, t) == if Hits(c, Sets(f), s, a) then true else if Hits(c, Clears(f), s, a) then false else WordOf(f, s)
  }

  /** The kinds of step that clear a word, one by one. */
  lemma ClearsWhen(c: Config, f: Word, s: State, a: Act)
    ensures Hits(c, Clears(f), s, a) ==
            match f
            case Active(i) => (a.EpStep? && s.ep.pc.EStore? && s.ep.i == i) || (a.MainStep? && s.main == Main(MInit, i))
            case Told(i) => a.MainStep? && s.main == Main(MCreate, i)
            case EpTold => a.MainStep? && s.main.pc.MCreateEp?
            case Signal => a.Deliver?
            case Bell => a.EpStep? && (s.ep.pc.EDbReset? || (s.ep.pc.EWake? && c.Doorbell()))
            case Register => a.EpStep? && s.ep.pc.EWfe?
            case Monitor => (a.EpStep? && (s.ep.pc.EArm? || s.ep.pc.ERearm?) && !c.armsDb) || ClearsMonitor(c, s, a)
  {
    match f
    case Active(i) => EitherHits(c, EpOn(EStore, i), MainAt(MInit, i), s, a);
    case Bell => EitherHits(c, EpAt(EDbReset), Exchanges, s, a);
    case Monitor => EitherHits(c, Arms(false), Disarms, s, a);
    case _ =>
  }

  lemma EitherHits(c: Config, m: Mark, n: Mark, s: State, a: Act)
    ensures Hits(c, Either(m, n), s, a) == (Hits(c, m, s, a) || Hits(c, n, s, a))
  {
  }

  lemma LoopSwitches(c: Config, s: State, i: nat)
    requires i < |s.srcs| && SrcLooping(s.srcs[i].pc)
    ensures var t, pc := ApplySrcLoop(c, s, i), s.srcs[i].pc;
            && t.ep == s.ep && |t.srcs| == |s.srcs| && t.srcs == s.srcs[i := t.srcs[i]]
            && t.srcs[i].endFlag == s.srcs[i].endFlag && t.srcs[i].active == (s.srcs[i].active || pc.SActivate?)
            && t.db == (s.db || pc.SPress?) && t.event == (s.event || pc.SSev? || (pc.SPress? && s.armed))
            && t.armed == (s.armed && !pc.SPress?)
  {
    match s.srcs[i].pc {
      case SLoopTest => case SSleep => case SStamp => case SActivate => case SPress => case SSev =>
    }
  }

  lemma GateSwitches(c: Config, s: State, i: nat)
    requires SrcEnabled(c, s, i) && !SrcLooping(s.srcs[i].pc)
    ensures ApplySrcGate(s, i).event == s.event && ApplySrcGate(s, i).armed == s.armed
  {
  }

  lemma SrcSwitches(c: Config, s: State, i: nat, f: Word)
    requires SrcEnabled(c, s, i)
    ensures Switches(c, f, s, SrcStep(i), ApplySrc(c, s, i))
  {
    ClearsWhen(c, f, s, SrcStep(i));
    if SrcLooping(s.srcs[i].pc) { LoopSwitches(c, s, i); }
    else { GateOnlyMoves(c, s, i); GateSwitches(c, s, i); }
  }

  predicate EpSwitched(c: Config, s: State, lost: bool, t: State) {
    && t.ep.endFlag == s.ep.endFlag && t.ep.signal == s.ep.signal && |t.srcs| == |s.srcs|
    && t.db == (s.db && !s.ep.pc.EDbReset? && !(s.ep.pc.EWake? && c.Doorbell()))
    && t.event == ((s.event && !s.ep.pc.EWfe?) || (s.ep.pc.EWake? && c.Doorbell() && lost && s.armed))
    && t.armed == (if s.ep.pc.EArm? || s.ep.pc.ERearm? then c.armsDb
                   else s.armed && !(s.ep.pc.EWake? && c.Doorbell() && lost))
    && forall j :: 0 <= j < |s.srcs| ==>
         && t.srcs[j].endFlag == s.srcs[j].endFlag
         && t.srcs[j].active == (s.srcs[j].active && !(s.ep.pc.EStore? && j == s.ep.i))
  }

  lemma WakingSwitches(c: Config, s: State, lost: bool)
    requires EpWaking(s.ep.pc)
    ensures EpSwitched(c, s, lost, ApplyEpWaking(c, s, lost))
  {
    WakingStays(c, s, lost);
    match s.ep.pc {
      case ELoopTest => case EIdleStamp => case EWfe => case EWokeStamp => case ERearm => case EWake =>
    }
  }

  lemma SweepSwitches(c: Config, s: State, lost: bool)
    requires EpInBounds(s) && Sweeping(s.ep.pc)
    ensures EpSwitched(c, s, lost, ApplyEpSweep(s))
  {
    match s.ep.pc {
      case ETest => case EWork => case EEndStamp => case EStore => case EDiff =>
    }
  }

  lemma BootSwitches(c: Config, s: State, lost: bool)
    requires EpBoots(s.ep.pc)
    ensures EpSwitched(c, s, lost, ApplyEpBoot(c, s))
  {
    match s.ep.pc {
      case EDbReset => case EArm => case EArrive => case EWait => case EActiveStamp =>
    }
  }

  lemma QuitSwitches(c: Config, s: State, lost: bool)
    requires EpQuits(s.ep.pc)
    ensures EpSwitched(c, s, lost, ApplyEpQuit(s))
  {
    match s.ep.pc {
      case EFinalStamp => case EArriveDone => case EWaitDone =>
    }
  }

  lemma EpSwitches(c: Config, s: State, lost: bool)
    requires EpInBounds(s) && EpEnabled(s)
    ensures EpSwitched(c, s, lost, ApplyEp(c, s, lost))
  {
    if EpWaking(s.ep.pc) { WakingSwitches(c, s, lost); }
    else if Sweeping(s.ep.pc) { SweepSwitches(c, s, lost); }
    else if EpBoots(s.ep.pc) { BootSwitches(c, s, lost); }
    else { QuitSwitches(c, s, lost); }
  }

  lemma EpSwitchesAll(c: Config, s: State, lost: bool, t: State, f: Word)
    requires EpInBounds(s) && EpSwitched(c, s, lost, t)
    ensures Switches(c, f, s, EpStep(lost), t)
  {
    ClearsWhen(c, f, s, EpStep(lost));
  }

  predicate MainSwitched(s: State, t: State) {
    && t.db == s.db && t.event == s.event && t.armed == s.armed && |t.srcs| == |s.srcs|
    && t.ep.endFlag == (if s.main.pc.MStopEp? then true else if s.main.pc.MCreateEp? then false else s.ep.endFlag)
    && t.ep.signal == (s.ep.signal || s.main.pc.MKillEp?)
    && forall j :: 0 <= j < |s.srcs| ==>
         && t.srcs[j].active == (s.srcs[j].active && !(s.main.pc.MInit? && j == s.main.i))
         && t.srcs[j].endFlag == if j != s.main.i then s.srcs[j].endFlag
                                 else if s.main.pc.MStop? then true
                                 else if s.main.pc.MCreate? then false else s.srcs[j].endFlag
  }

  lemma LaunchSwitches(c: Config, s: State)
    requires MainLaunches(s.main.pc)
    ensures MainSwitched(s, ApplyMainLaunch(c, s))
  {
    match s.main.pc {
      case MCreateEp => case MArriveStart => case MWaitStart => case MAlloc =>
    }
  }

  lemma SetupSwitches(s: State)
    requires s.main.i < |s.srcs| && MainSetsUp(s.main.pc)
    ensures MainSwitched(s, ApplyMainSetup(s))
  {
    match s.main.pc {
      case MInit => case MCreate => case MPrepare => case MArriveGo =>
    }
  }

  lemma RunSwitches(s: State)
    requires MainRuns(s.main.pc)
    ensures MainSwitched(s, ApplyMainRun(s))
  {
    match s.main.pc {
      case MWaitGo => case MRun => case MStopEp => case MKillEp => case MArriveFinish =>
    }
  }

  lemma StopSwitches(s: State)
    requires s.main.i < |s.srcs| && MainStops(s.main.pc)
    ensures MainSwitched(s, ApplyMainStop(s))
  {
    match s.main.pc {
      case MWaitFinish => case MStop => case MKill => case MArriveEnd =>
    }
  }

  lemma CleanUpSwitches(s: State)
    requires s.main.i < |s.srcs| && MainCleansUp(s.main.pc)
    ensures MainSwitched(s, ApplyMainCleanUp(s))
  {
    match s.main.pc {
      case MWaitEnd => case MLog => case MFreeSources => case MFreeProcessors =>
    }
  }

  lemma MainSwitches(c: Config, s: State)
    requires s.main.i < |s.srcs| && MainEnabled(c, s)
    ensures MainSwitched(s, ApplyMain(c, s))
  {
    if MainLaunches(s.main.pc) { LaunchSwitches(c, s); }
    else if MainSetsUp(s.main.pc) { SetupSwitches(s); }
    else if MainRuns(s.main.pc) { RunSwitches(s); }
    else if MainStops(s.main.pc) { StopSwitches(s); }
    else { CleanUpSwitches(s); }
  }

  lemma MainSwitchesAll(c: Config, s: State, t: State, f: Word)
    requires s.main.i < |s.srcs| && MainSwitched(s, t)
    ensures Switches(c, f, s, MainStep, t)
  {
    ClearsWhen(c, f, s, MainStep);
    assert s.main == Main(s.main.pc, s.main.i);
  }

  lemma StepSwitches(c: Config, s: State, a: Act, f: Word)
    requires Shaped(c, s) && Enabled(c, s, a)
    ensures Switches(c, f, s, a, Apply(c, s, a))
  {
    match a
    case SrcStep(i) => SrcSwitches(c, s, i, f);
    case EpStep(lost) =>
      EpSwitches(c, s, lost);
      EpSwitchesAll(c, s, lost, ApplyEp(c, s, lost), f);
    case MainStep =>
      MainSwitches(c, s);
      MainSwitchesAll(c, s, ApplyMain(c, s), f);
    case _ => ClearsWhen(c, f, s, a);
  }

  /** Every event word, stop flag, the signal, the doorbell, the event register
      and the monitor are as the last step that set or cleared them left them. */
  lemma {:induction false} WordsSwitch(c: Config, s: State, acts: seq<Act>, t: State, f: Word)
    requires Run(c, s, acts, t)
    ensures WordOf(f, t) == Toggle(c, s, acts, Sets(f), Clears(f), WordOf(f, s))
    decreases |acts|
  {
    if acts != [] {
      StepSwitches(c, s, acts[0], f);
      WordsSwitch(c, Apply(c, s, acts[0]), acts[1..], t, f);
    }
  }

  // ----- What this says about WFE -----

  /** After a WFE, as long as nothing sets the event register again, the next WFE blocks; as soon as
      something does, it does not. */
  lemma {:induction false} SecondWfeBlocks(c: Config, s: State, acts: seq<Act>, t: State)
    requires Shaped(c, s) && EpEnabled(s) && s.ep.pc.EWfe? && Run(c, Apply(c, s, EpStep(false)), acts, t)
    requires Count(c, Apply(c, s, EpStep(false)), acts, EpAt(EWfe)) == 0 && t.ep.pc.EWfe?
    ensures EpEnabled(t) <==> Count(c, Apply(c, s, EpStep(false)), acts, Notices) > 0
  {
    var u := Apply(c, s, EpStep(false));
    StepSwitches(c, s, EpStep(false), Register);
    assert Hits(c, EpAt(EWfe), s, EpStep(false)) && !Hits(c, Notices, s, EpStep(false));
    WordsSwitch(c, u, acts, t, Register);
    ToggleUp(c, u, acts, t, Notices, EpAt(EWfe), false);
  }

  lemma {:induction false} ToggleUp(c: Config, s: State, acts: seq<Act>, t: State, up: Mark, down: Mark, d: bool)
    requires Run(c, s, acts, t) && Count(c, s, acts, down) == 0
    ensures Toggle(c, s, acts, up, down, d) == (d || Count(c, s, acts, up) > 0)
    decreases |acts|
  {
    if acts != [] {
      var u := Apply(c, s, acts[0]);
      var hit := Hits(c, up, s, acts[0]);
      UpNext(c, s, acts, up, down, d, u);
      ToggleUp(c, u, acts[1..], t, up, down, d || hit);
    }
  }

  lemma UpNext(c: Config, s: State, acts: seq<Act>, up: Mark, down: Mark, d: bool, u: State)
    requires acts != [] && Shaped(c, s) && Enabled(c, s, acts[0]) && u == Apply(c, s, acts[0])
    requires Count(c, s, acts, down) == 0
    ensures Count(c, u, acts[1..], down) == 0
    ensures Count(c, s, acts, up) == (if Hits(c, up, s, acts[0]) then 1 else 0) + Count(c, u, acts[1..], up)
    ensures Toggle(c, s, acts, up, down, d) == Toggle(c, u, acts[1..], up, down, d || Hits(c, up, s, acts[0]))
  {
    CountNext(c, s, acts, up, u);
    CountNext(c, s, acts, down, u);
    ToggleNext(c, s, acts, up, down, d, u);
  }

  lemma CountNext(c: Config, s: State, acts: seq<Act>, m: Mark, u: State)
    requires acts != [] && Shaped(c, s) && Enabled(c, s, acts[0]) && u == Apply(c, s, acts[0])
    ensures Count(c, s, acts, m) == (if Hits(c, m, s, acts[0]) then 1 else 0) + Count(c, u, acts[1..], m)
  {
  }

  lemma ToggleNext(c: Config, s: State, acts: seq<Act>, up: Mark, down: Mark, d: bool, u: State)
    requires acts != [] && Shaped(c, s) && Enabled(c, s, acts[0]) && u == Apply(c, s, acts[0])
    ensures Toggle(c, s, acts, up, down, d)
         == Toggle(c, u, acts[1..], up, down,
                   if Hits(c, up, s, acts[0]) then true else if Hits(c, down, s, acts[0]) then false else d)
  {
  }

  // ----- Every wake-up of a WFE build has passed a WFE, and in the monitor build a re-arm -----

  /** A WFE passed whose wake-up is still to come. */
  function PastWfe(pc: EpPc): nat { if pc.EWokeStamp? || pc.ERearm? || pc.EWake? then 1 else 0 }

  function PastRearm(pc: EpPc): nat { if pc.EWake? then 1 else 0 }

  lemma WakingPath(c: Config, s: State, lost: bool)
    requires EpWaking(s.ep.pc)
    ensures var pc, pc' := s.ep.pc, ApplyEpWaking(c, s, lost).ep.pc;
            && (c.Wfe() ==> PastWfe(pc') + (if pc.EWake? then 1 else 0) == PastWfe(pc) + (if pc.EWfe? then 1 else 0))
            && (c.Monitor() ==> PastRearm(pc') + (if pc.EWake? then 1 else 0)
                                == PastRearm(pc) + (if pc.ERearm? then 1 else 0))
  {
    match s.ep.pc {
      case ELoopTest => case EIdleStamp => case EWfe => case EWokeStamp => case ERearm => case EWake =>
    }
  }

  lemma OtherPath(c: Config, s: State, lost: bool)
    requires EpInBounds(s) && EpEnabled(s) && !EpWaking(s.ep.pc)
    ensures PastWfe(ApplyEp(c, s, lost).ep.pc) == 0 && PastRearm(ApplyEp(c, s, lost).ep.pc) == 0
  {
    if Sweeping(s.ep.pc) { SweepPath(s); }
    else if EpBoots(s.ep.pc) { BootNotIntoWfe(c, s); }
    else { QuitNotIntoWfe(s); }
  }

  lemma SweepPath(s: State)
    requires EpInBounds(s) && Sweeping(s.ep.pc)
    ensures Sweeping(ApplyEpSweep(s).ep.pc) || ApplyEpSweep(s).ep.pc.ELoopTest?
  {
    match s.ep.pc {
      case ETest => case EWork => case EEndStamp => case EStore => case EDiff =>
    }
  }

  lemma StepPath(c: Config, s: State, a: Act)
    requires Phased(c, s) && Enabled(c, s, a)
    ensures var pc, pc' := s.ep.pc, Apply(c, s, a).ep.pc;
            && (c.Wfe() ==> PastWfe(pc') + (if Hits(c, EpAt(EWake), s, a) then 1 else 0)
                            == PastWfe(pc) + (if Hits(c, EpAt(EWfe), s, a) then 1 else 0))
            && (c.Monitor() ==> PastRearm(pc') + (if Hits(c, EpAt(EWake), s, a) then 1 else 0)
                                == PastRearm(pc) + (if Hits(c, EpAt(ERearm), s, a) then 1 else 0))
  {
    match a
    case SrcStep(i) => SrcIsMove(c, s, i);
      if SrcLooping(s.srcs[i].pc) { LoopTallies(c, s, i); } else { GateOnlyMoves(c, s, i); }
    case EpStep(lost) => if EpWaking(s.ep.pc) { WakingPath(c, s, lost); } else { OtherPath(c, s, lost); }
    case MainStep => MainPath(c, s);
    case _ =>
  }

  lemma MainPath(c: Config, s: State)
    requires s.main.i < |s.srcs| && Births(s)
    ensures ApplyMain(c, s).ep.pc == s.ep.pc || (s.ep.pc.EUnborn? && EpBoots(ApplyMain(c, s).ep.pc))
  {
  }

  /** In the builds with WFE as many WFEs as wake-ups have been passed, but for the one under way; in
      the monitor build as many re-arms. */
  lemma {:induction false} WakeupsPassWfe(c: Config, s: State, acts: seq<Act>, t: State)
    requires Phased(c, s) && Run(c, s, acts, t)
    ensures c.Wfe() ==> Count(c, s, acts, EpAt(EWake)) + PastWfe(t.ep.pc)
                        == Count(c, s, acts, EpAt(EWfe)) + PastWfe(s.ep.pc)
    ensures c.Monitor() ==> Count(c, s, acts, EpAt(EWake)) + PastRearm(t.ep.pc)
                            == Count(c, s, acts, EpAt(ERearm)) + PastRearm(s.ep.pc)
    decreases |acts|
  {
    if acts != [] {
      StepPath(c, s, acts[0]);
      StepPhased(c, s, acts[0]);
      WakeupsPassWfe(c, Apply(c, s, acts[0]), acts[1..], t);
    }
  }
}
