// No wake-up is lost, and the EP answers within a bounded number of its own steps.
module Wakeup {
  import opened Protocol
  import opened Phases
  import opened Delivery

  /** The doorbell builds in which a press can always wake the EP. */
  predicate Wakes(c: Config) {
    c.Doorbell() && (c.Monitor() ==> c.armsDb)
  }

  // ----- Invariant -----

  /** With the monitor, everywhere except between WFE and the re-arm, the EP either watches the
      doorbell or will fall through its next WFE. */
  predicate Listening(pc: EpPc) {
    || (EpWaking(pc) && !pc.EWokeStamp? && !pc.ERearm?) || Sweeping(pc)
    || pc.EArrive? || pc.EWait? || pc.EActiveStamp? || EpQuits(pc) || pc.EExited?
  }

  /** The EP reaches its next exchange without being blocked. */
  predicate WillLook(c: Config, e: Ep, event: bool) {
    !c.Wfe() || event || e.pc.EWokeStamp? || e.pc.ERearm? || e.pc.EWake?
  }

  predicate Ready(c: Config, e: Ep, event: bool, db: bool, i: nat) {
    Covers(e, i) || (db && WillLook(c, e, event))
  }

  predicate Answering(c: Config, e: Ep, event: bool, db: bool, i: nat, x: Source) {
    && (x.h.notified ==> Ready(c, e, event, db, i))
    && (x.active && !x.pc.SPress? && !x.pc.SSev? ==> x.h.notified)
  }

  /** The stamps around WFE, and WFE itself, are compiled only into the WFE builds. */
  predicate Compiled(c: Config, pc: EpPc) {
    pc.EIdleStamp? || pc.EWfe? || pc.EWokeStamp? ==> c.Wfe()
  }

  predicate Alert(c: Config, s: State) {
    && Compiled(c, s.ep.pc)
    && (c.Monitor() && Listening(s.ep.pc) ==> s.armed || s.event)
    && (Gone(s) ==> forall i :: 0 <= i < |s.srcs| ==> Answering(c, s.ep, s.event, s.db, i, s.srcs[i]))
  }

  predicate Alerted(c: Config, s: State) {
    Delivered(c, s) && Alert(c, s)
  }

  lemma InitAlerted(c: Config, s: State)
    requires c.Valid() && Init(c, s)
    ensures Alerted(c, s)
  {
    InitDelivered(c, s);
  }

  // ----- Source steps -----

  /** The last wake-up action finds the EP on its way to the doorbell, or makes it so. */
  lemma LoopAnswers(c: Config, s: State, i: nat)
    requires Wakes(c) && SrcEnabled(c, s, i) && SrcLooping(s.srcs[i].pc)
    requires OnItsWay(s.srcs[i], s.db, Covers(s.ep, i)) && Answering(c, s.ep, s.event, s.db, i, s.srcs[i])
    requires c.Monitor() ==> s.armed || s.event || s.ep.pc.EWokeStamp? || s.ep.pc.ERearm?
    ensures var t := ApplySrcLoop(c, s, i); Answering(c, t.ep, t.event, t.db, i, t.srcs[i])
  {
    match s.srcs[i].pc {
      case SLoopTest => case SSleep => case SStamp => case SActivate => case SPress => case SSev =>
    }
  }

  lemma LoopRaises(c: Config, s: State, i: nat)
    requires i < |s.srcs| && SrcLooping(s.srcs[i].pc)
    ensures var t := ApplySrcLoop(c, s, i);
            && t.ep == s.ep && t.bars == s.bars && |t.srcs| == |s.srcs| && t.srcs == s.srcs[i := t.srcs[i]]
            && (s.db ==> t.db) && (s.event ==> t.event) && (s.armed ==> t.armed || t.event)
  {
    match s.srcs[i].pc {
      case SLoopTest => case SSleep => case SStamp => case SActivate => case SPress => case SSev =>
    }
  }

  lemma LoopAlert(c: Config, s: State, i: nat)
    requires Wakes(c) && Alerted(c, s) && SrcEnabled(c, s, i) && SrcLooping(s.srcs[i].pc)
    ensures Alert(c, ApplySrcLoop(c, s, i))
  {
    var t := ApplySrcLoop(c, s, i);
    GoFacts(c, s);
    LoopRaises(c, s, i);
    assert OnItsWay(s.srcs[i], s.db, Covers(s.ep, i)) && Answering(c, s.ep, s.event, s.db, i, s.srcs[i]);
    WhereTheEpIs(s);
    LoopAnswers(c, s, i);
    forall j | 0 <= j < |t.srcs| ensures Answering(c, t.ep, t.event, t.db, j, t.srcs[j]) {
      assert Answering(c, s.ep, s.event, s.db, j, s.srcs[j]);
    }
  }

  lemma WhereTheEpIs(s: State)
    requires EpLeg(s.ep.pc) >= 1
    ensures Listening(s.ep.pc) || s.ep.pc.EWokeStamp? || s.ep.pc.ERearm?
  {
  }

  lemma GateAlert(c: Config, s: State, i: nat)
    requires Alert(c, s) && SrcEnabled(c, s, i) && !SrcLooping(s.srcs[i].pc)
    ensures Alert(c, ApplySrcGate(s, i))
  {
    var t := ApplySrcGate(s, i);
    GateOnlyMoves(c, s, i);
    assert t.event == s.event && t.armed == s.armed;
    if Gone(s) {
      forall j | 0 <= j < |t.srcs| ensures Answering(c, t.ep, t.event, t.db, j, t.srcs[j]) {
        assert Answering(c, s.ep, s.event, s.db, j, s.srcs[j]);
      }
    }
  }

  // ----- EP steps -----

  lemma WakingListens(c: Config, s: State, lost: bool)
    requires Wakes(c) && c.Monitor() && EpWaking(s.ep.pc)
    requires Listening(s.ep.pc) ==> s.armed || s.event
    ensures var t := ApplyEpWaking(c, s, lost); Listening(t.ep.pc) ==> t.armed || t.event
  {
    match s.ep.pc {
      case ELoopTest => case EIdleStamp => case EWfe => case EWokeStamp => case ERearm => case EWake =>
    }
  }

  lemma WakingCompiled(c: Config, s: State, lost: bool)
    requires EpWaking(s.ep.pc) && Compiled(c, s.ep.pc)
    ensures Compiled(c, ApplyEpWaking(c, s, lost).ep.pc)
  {
    match s.ep.pc {
      case ELoopTest => case EIdleStamp => case EWfe => case EWokeStamp => case ERearm => case EWake =>
    }
  }

  lemma WakingReady(c: Config, s: State, lost: bool, i: nat)
    requires Wakes(c) && EpEnabled(s) && EpWaking(s.ep.pc) && Ready(c, s.ep, s.event, s.db, i)
    ensures var t := ApplyEpWaking(c, s, lost); Ready(c, t.ep, t.event, t.db, i)
  {
    match s.ep.pc {
      case ELoopTest => case EIdleStamp => case EWfe => case EWokeStamp => case ERearm => case EWake =>
    }
  }

  lemma WakingAlert(c: Config, s: State, lost: bool)
    requires Wakes(c) && Alert(c, s) && EpEnabled(s) && EpWaking(s.ep.pc)
    ensures Alert(c, ApplyEpWaking(c, s, lost))
  {
    var t := ApplyEpWaking(c, s, lost);
    WakingStays(c, s, lost);
    WakingCompiled(c, s, lost);
    if c.Monitor() { WakingListens(c, s, lost); }
    if Gone(s) {
      forall j | 0 <= j < |t.srcs| ensures Answering(c, t.ep, t.event, t.db, j, t.srcs[j]) {
        assert Answering(c, s.ep, s.event, s.db, j, s.srcs[j]);
        if s.srcs[j].h.notified { WakingReady(c, s, lost, j); }
      }
    }
  }

  lemma TestAnswers(c: Config, s: State, j: nat)
    requires EpInBounds(s) && s.ep.pc.ETest? && j < |s.srcs|
    requires OnItsWay(s.srcs[j], s.db, Covers(s.ep, j)) && Answering(c, s.ep, s.event, s.db, j, s.srcs[j])
    ensures var t := ApplyEpSweep(s); |t.srcs| == |s.srcs| && Answering(c, t.ep, s.event, s.db, j, t.srcs[j])
  {
  }

  lemma SweepAnswers(c: Config, s: State, j: nat)
    requires EpInBounds(s) && Sweeping(s.ep.pc) && j < |s.srcs|
    requires OnItsWay(s.srcs[j], s.db, Covers(s.ep, j)) && Answering(c, s.ep, s.event, s.db, j, s.srcs[j])
    ensures var t := ApplyEpSweep(s); |t.srcs| == |s.srcs| && Answering(c, t.ep, s.event, s.db, j, t.srcs[j])
  {
    if s.ep.pc.ETest? { TestAnswers(c, s, j); }
    else {
      match s.ep.pc {
        case EWork => case EEndStamp => case EStore => case EDiff =>
      }
    }
  }

  lemma SweepAlert(c: Config, s: State)
    requires EpInBounds(s) && Sweeping(s.ep.pc) && Alert(c, s) && Gone(s) && Delivering(s)
    ensures Alert(c, ApplyEpSweep(s))
  {
    var t := ApplyEpSweep(s);
    SweepLandsListening(s);
    forall j | 0 <= j < |s.srcs| ensures |t.srcs| == |s.srcs| && Answering(c, t.ep, s.event, s.db, j, t.srcs[j]) {
      assert OnItsWay(s.srcs[j], s.db, Covers(s.ep, j)) && Answering(c, s.ep, s.event, s.db, j, s.srcs[j]);
      SweepAnswers(c, s, j);
    }
  }

  lemma SweepLandsListening(s: State)
    requires EpInBounds(s) && Sweeping(s.ep.pc)
    ensures var t := ApplyEpSweep(s);
            && t.armed == s.armed && t.event == s.event && t.db == s.db && |t.srcs| == |s.srcs|
            && (t.ep.pc.ELoopTest? || Sweeping(t.ep.pc))
  {
    match s.ep.pc {
      case ETest => case EWork => case EEndStamp => case EStore => case EDiff =>
    }
  }

  lemma BootAlert(c: Config, s: State)
    requires Wakes(c) && Alert(c, s) && EpEnabled(s) && EpBoots(s.ep.pc) && (Gone(s) ==> EpLeg(s.ep.pc) >= 1)
    ensures Alert(c, ApplyEpBoot(c, s))
  {
    var t := ApplyEpBoot(c, s);
    match s.ep.pc {
      case EDbReset => case EArm => case EArrive => case EWait => case EActiveStamp =>
    }
    if Gone(t) {
      forall j | 0 <= j < |t.srcs| ensures Answering(c, t.ep, t.event, t.db, j, t.srcs[j]) {
        assert Answering(c, s.ep, s.event, s.db, j, s.srcs[j]);
      }
    }
  }

  lemma QuitAlert(c: Config, s: State)
    requires Alert(c, s) && EpQuits(s.ep.pc)
    ensures Alert(c, ApplyEpQuit(s))
  {
    var t := ApplyEpQuit(s);
    match s.ep.pc {
      case EFinalStamp => case EArriveDone => case EWaitDone =>
    }
    if Gone(t) {
      forall j | 0 <= j < |t.srcs| ensures Answering(c, t.ep, t.event, t.db, j, t.srcs[j]) {
        assert Answering(c, s.ep, s.event, s.db, j, s.srcs[j]);
      }
    }
  }

  // ----- Steps of main -----

  lemma LaunchAlert(c: Config, s: State)
    requires c.Doorbell() && Alert(c, s) && MainLaunches(s.main.pc) && !Gone(s)
    requires s.main.pc.MCreateEp? ==> s.ep.pc.EUnborn?
    ensures Alert(c, ApplyMainLaunch(c, s)) && !Gone(ApplyMainLaunch(c, s))
  {
    match s.main.pc {
      case MCreateEp => case MArriveStart => case MWaitStart => case MAlloc =>
    }
  }

  lemma SetupAlert(c: Config, s: State)
    requires s.main.i < |s.srcs| && Alert(c, s) && Still(s) && MainSetsUp(s.main.pc) && !Gone(s)
    ensures Alert(c, ApplyMainSetup(s))
  {
    assert forall j :: 0 <= j < |s.srcs| ==> Untouched(s.main, j, s.srcs[j]);
    match s.main.pc {
      case MInit => case MCreate => case MPrepare => case MArriveGo =>
    }
  }

  predicate KeepsWatch(s: State, t: State) {
    && HandsOff(s, t) && t.armed == s.armed && t.event == s.event && t.ep.n == s.ep.n
  }

  lemma MainKeepsWatch(c: Config, s: State)
    requires s.main.i < |s.srcs| && !MainLaunches(s.main.pc) && !MainSetsUp(s.main.pc)
    ensures KeepsWatch(s, ApplyMain(c, s))
  {
    MainHandsOff(c, s);
    if MainRuns(s.main.pc) {
      match s.main.pc {
        case MWaitGo => case MRun => case MStopEp => case MKillEp => case MArriveFinish =>
      }
    } else if MainStops(s.main.pc) {
      match s.main.pc {
        case MWaitFinish => case MStop => case MKill => case MArriveEnd =>
      }
    }
  }

  lemma WatchAlert(c: Config, s: State, t: State)
    requires Alert(c, s) && KeepsWatch(s, t)
    ensures Alert(c, t)
  {
    if Gone(t) {
      forall j | 0 <= j < |t.srcs| ensures Answering(c, t.ep, t.event, t.db, j, t.srcs[j]) {
        assert Answering(c, s.ep, s.event, s.db, j, s.srcs[j]);
      }
    }
  }

  // ----- Every step, every run -----

  lemma EpAlert(c: Config, s: State, lost: bool)
    requires Wakes(c) && Alerted(c, s) && EpEnabled(s)
    ensures Alert(c, ApplyEp(c, s, lost))
  {
    GoFacts(c, s);
    if EpWaking(s.ep.pc) { WakingAlert(c, s, lost); }
    else if Sweeping(s.ep.pc) { SweepAlert(c, s); }
    else if EpBoots(s.ep.pc) { BootAlert(c, s); }
    else { QuitAlert(c, s); }
  }

  lemma MainAlert(c: Config, s: State)
    requires Wakes(c) && Alerted(c, s) && MainEnabled(c, s)
    ensures Alert(c, ApplyMain(c, s))
  {
    GoFacts(c, s);
    if MainLaunches(s.main.pc) { LaunchAlert(c, s); }
    else if MainSetsUp(s.main.pc) { SetupAlert(c, s); }
    else {
      MainKeepsWatch(c, s);
      WatchAlert(c, s, ApplyMain(c, s));
    }
  }

  lemma OtherAlert(c: Config, s: State, a: Act)
    requires Shaped(c, s) && Alert(c, s) && Enabled(c, s, a) && !a.SrcStep? && !a.EpStep? && !a.MainStep?
    ensures Alert(c, Apply(c, s, a))
  {
    var t := Apply(c, s, a);
    assert t.srcs == s.srcs && t.db == s.db && t.ep.pc == s.ep.pc && t.ep.i == s.ep.i;
    assert Gone(t) <==> Gone(s);
    assert (s.event ==> t.event) && (s.armed ==> t.armed || t.event);
    if Gone(t) {
      forall j | 0 <= j < |t.srcs| ensures Answering(c, t.ep, t.event, t.db, j, t.srcs[j]) {
        assert Answering(c, s.ep, s.event, s.db, j, s.srcs[j]);
      }
    }
  }

  lemma StepAlerted(c: Config, s: State, a: Act)
    requires Wakes(c) && Alerted(c, s) && Enabled(c, s, a)
    ensures Alerted(c, Apply(c, s, a))
  {
    StepDelivered(c, s, a);
    match a
    case SrcStep(i) => if SrcLooping(s.srcs[i].pc) { LoopAlert(c, s, i); } else { GateAlert(c, s, i); }
    case EpStep(lost) => EpAlert(c, s, lost);
    case MainStep => MainAlert(c, s);
    case _ => OtherAlert(c, s, a);
  }

  lemma {:induction false} RunAlerted(c: Config, s: State, acts: seq<Act>, t: State)
    requires Wakes(c) && Alerted(c, s) && Run(c, s, acts, t)
    ensures Alerted(c, t)
    decreases |acts|
  {
    if acts != [] {
      StepAlerted(c, s, acts[0]);
      RunAlerted(c, Apply(c, s, acts[0]), acts[1..], t);
    }
  }

  lemma ReachableAlerted(c: Config, s: State)
    requires c.Valid() && Wakes(c) && Reachable(c, s)
    ensures Alerted(c, s)
  {
    var s0, acts :| Init(c, s0) && Run(c, s0, acts, s);
    InitAlerted(c, s0);
    RunAlerted(c, s0, acts, s);
  }

  /** The monitor build, armed on the doorbell: from each re-arm through the next WFE the EP
      watches the doorbell, or an event is already waiting for it. */
  lemma MonitorKeepsWatch(c: Config, s: State)
    requires c.Valid() && c.Monitor() && c.armsDb && Reachable(c, s)
    requires s.ep.pc.EWake? || Sweeping(s.ep.pc) || s.ep.pc.ELoopTest? || s.ep.pc.EIdleStamp? || s.ep.pc.EWfe?
    ensures s.armed || s.event
  {
    ReachableAlerted(c, s);
  }
}
