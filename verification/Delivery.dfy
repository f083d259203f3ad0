// No event is lost: what the doorbell filter skips was never announced.
module Delivery {
  import opened Latency
  import opened Protocol
  import opened Phases

  // ----- Before main opens the go barrier nothing has happened -----

  predicate Gone(s: State) { TMain in s.bars.go }

  /** main has reset source `i`. */
  predicate Cleared(m: Main, i: nat) {
    (m.pc.MInit? && i < m.i) || m.pc.MCreate? || m.pc.MPrepare? || m.pc.MArriveGo?
  }

  /** The EP has reset the doorbell. */
  predicate BellReset(pc: EpPc) { EpLeg(pc) >= 1 || pc.EArm? || pc.EArrive? }

  predicate Untouched(m: Main, i: nat, x: Source) {
    && x.h == NO_HISTORY
    && (Cleared(m, i) ==> !x.active && x.stats == FRESH)
  }

  predicate Still(s: State) {
    && (BellReset(s.ep.pc) && s.db ==> Gone(s))
    && (Sweeping(s.ep.pc) ==> Gone(s))
    && (!Gone(s) ==> forall i :: 0 <= i < |s.srcs| ==> Untouched(s.main, i, s.srcs[i]))
  }

  // ----- After it, every announced event is on its way -----

  /** The current sweep will still test source `i`, or is handling it before its RESET store. */
  predicate Covers(e: Ep, i: nat) {
    ((e.pc.ETest? || e.pc.EWork? || e.pc.EEndStamp? || e.pc.EStore?) && e.i <= i) || (e.pc.EDiff? && e.i < i)
  }

  predicate OnItsWay(x: Source, db: bool, covered: bool) {
    && (x.active && !x.pc.SPress? ==> x.h.announced)
    && (x.h.announced ==> x.active && (db || covered))
    && (x.h.notified ==> x.h.announced)
  }

  predicate Delivering(s: State) {
    && (forall i :: 0 <= i < |s.srcs| ==> OnItsWay(s.srcs[i], s.db, Covers(s.ep, i)))
    && (s.ep.pc.EWork? || s.ep.pc.EEndStamp? || s.ep.pc.EStore? ==> s.ep.i < |s.srcs| && s.srcs[s.ep.i].active)
  }

  predicate Delivered(c: Config, s: State) {
    Phased(c, s) && Still(s) && (Gone(s) ==> Delivering(s))
  }

  /** The consequences of the barriers that the doorbell arguments need. */
  lemma GoFacts(c: Config, s: State)
    requires Phased(c, s)
    ensures Gone(s) <==> MainLeg(s.main.pc) >= 3
    ensures Gone(s) ==> EpLeg(s.ep.pc) >= 1
    ensures forall i :: 0 <= i < |s.srcs| && SrcLeg(s.srcs[i].pc) >= 2 ==> Gone(s)
  {
    forall i | 0 <= i < |s.srcs| && SrcLeg(s.srcs[i].pc) >= 2
      ensures Gone(s)
    {
      assert SrcGates(s.bars, SrcLeg(s.srcs[i].pc));
    }
  }

  lemma InitDelivered(c: Config, s: State)
    requires c.Valid() && Init(c, s)
    ensures Delivered(c, s)
  {
    InitPhased(c, s);
  }

  // ----- Source steps -----

  lemma SrcLoopDelivers(c: Config, s: State, i: nat)
    requires c.Doorbell() && SrcEnabled(c, s, i) && SrcLooping(s.srcs[i].pc) && Delivering(s)
    ensures Delivering(ApplySrcLoop(c, s, i))
  {
    var t := ApplySrcLoop(c, s, i);
    assert OnItsWay(s.srcs[i], s.db, Covers(s.ep, i));
    assert t.ep == s.ep && (s.db ==> t.db);
    assert OnItsWay(t.srcs[i], t.db, Covers(t.ep, i)) by {
      match s.srcs[i].pc {
        case SLoopTest => case SSleep => case SStamp => case SActivate => case SPress => case SSev =>
      }
    }
    assert s.srcs[i].active ==> t.srcs[i].active;
    forall j | 0 <= j < |t.srcs|
      ensures OnItsWay(t.srcs[j], t.db, Covers(t.ep, j))
    {
      assert OnItsWay(s.srcs[j], s.db, Covers(s.ep, j));
    }
  }

  /** At a barrier a source changes nothing but its program counter. */
  lemma GateOnlyMoves(c: Config, s: State, i: nat)
    requires SrcEnabled(c, s, i) && !SrcLooping(s.srcs[i].pc)
    ensures var t := ApplySrcGate(s, i);
            && t.db == s.db && t.ep == s.ep && t.main == s.main && (Gone(t) <==> Gone(s))
            && |t.srcs| == |s.srcs| && t.srcs == s.srcs[i := s.srcs[i].(pc := t.srcs[i].pc)]
            && !t.srcs[i].pc.SPress?
  {
    match s.srcs[i].pc {
      case SArrive => case SWait => case SArriveEnd => case SWaitEnd =>
    }
  }

  lemma GateDelivered(s: State, t: State, i: nat)
    requires Still(s) && (Gone(s) ==> Delivering(s)) && i < |s.srcs|
    requires t.db == s.db && t.ep == s.ep && t.main == s.main && (Gone(t) <==> Gone(s))
    requires |t.srcs| == |s.srcs| && t.srcs == s.srcs[i := s.srcs[i].(pc := t.srcs[i].pc)]
    requires !s.srcs[i].pc.SPress?
    ensures Still(t) && (Gone(t) ==> Delivering(t))
  {
    if Gone(t) {
      forall j | 0 <= j < |t.srcs| ensures OnItsWay(t.srcs[j], t.db, Covers(t.ep, j)) {
        assert OnItsWay(s.srcs[j], s.db, Covers(s.ep, j));
      }
    } else {
      forall j | 0 <= j < |t.srcs| ensures Untouched(t.main, j, t.srcs[j]) {
        assert Untouched(s.main, j, s.srcs[j]);
      }
    }
  }

  lemma SrcDelivered(c: Config, s: State, i: nat)
    requires c.Doorbell() && Delivered(c, s) && SrcEnabled(c, s, i)
    ensures Delivered(c, ApplySrc(c, s, i))
  {
    SrcPhased(c, s, i);
    SrcIsMove(c, s, i);
    GoFacts(c, s);
    if SrcLooping(s.srcs[i].pc) {
      SrcLoopDelivers(c, s, i);
    } else {
      GateOnlyMoves(c, s, i);
      GateDelivered(s, ApplySrc(c, s, i), i);
    }
  }

  // ----- EP steps -----

  lemma BootDelivered(c: Config, s: State)
    requires c.Doorbell() && EpEnabled(s) && EpBoots(s.ep.pc)
    requires Still(s) && (Gone(s) ==> Delivering(s)) && (Gone(s) ==> EpLeg(s.ep.pc) >= 1)
    ensures var t := ApplyEpBoot(c, s); Still(t) && (Gone(t) ==> Delivering(t))
  {
    var t := ApplyEpBoot(c, s);
    match s.ep.pc {
      case EDbReset => case EArm => case EArrive => case EWait => case EActiveStamp =>
    }
    if Gone(t) {
      forall j | 0 <= j < |t.srcs| ensures OnItsWay(t.srcs[j], t.db, Covers(t.ep, j)) {
        assert OnItsWay(s.srcs[j], s.db, Covers(s.ep, j));
      }
    }
  }

  lemma QuitDelivered(s: State)
    requires EpQuits(s.ep.pc) && Still(s) && (Gone(s) ==> Delivering(s))
    ensures var t := ApplyEpQuit(s); Still(t) && (Gone(t) ==> Delivering(t))
  {
    var t := ApplyEpQuit(s);
    match s.ep.pc {
      case EFinalStamp => case EArriveDone => case EWaitDone =>
    }
    if Gone(t) {
      forall j | 0 <= j < |t.srcs| ensures OnItsWay(t.srcs[j], t.db, Covers(t.ep, j)) {
        assert OnItsWay(s.srcs[j], s.db, Covers(s.ep, j));
      }
    }
  }

  /** Only the exchange touches the doorbell, and only when it starts a full sweep. */
  lemma WakingDoorbell(c: Config, s: State, lost: bool)
    requires c.Doorbell() && EpWaking(s.ep.pc)
    ensures var t := ApplyEpWaking(c, s, lost);
            if s.ep.pc.EWake? && s.db then !t.db && t.ep.pc.ETest? && t.ep.i == 0
            else t.db == s.db && !Sweeping(t.ep.pc)
  {
    match s.ep.pc {
      case ELoopTest => case EIdleStamp => case EWfe => case EWokeStamp => case ERearm => case EWake =>
    }
  }

  lemma WakingDelivered(c: Config, s: State, lost: bool)
    requires c.Doorbell() && EpWaking(s.ep.pc) && Still(s) && (Gone(s) ==> Delivering(s))
    ensures var t := ApplyEpWaking(c, s, lost); Still(t) && (Gone(t) ==> Delivering(t))
  {
    var t := ApplyEpWaking(c, s, lost);
    WakingStays(c, s, lost);
    WakingDoorbell(c, s, lost);
    if Gone(t) {
      forall j | 0 <= j < |t.srcs| ensures OnItsWay(t.srcs[j], t.db, Covers(t.ep, j)) {
        assert OnItsWay(s.srcs[j], s.db, Covers(s.ep, j));
      }
    }
  }

  lemma TestOnItsWay(s: State, j: nat)
    requires EpInBounds(s) && s.ep.pc.ETest? && j < |s.srcs| && OnItsWay(s.srcs[j], s.db, Covers(s.ep, j))
    ensures var t := ApplyEpSweep(s); |t.srcs| == |s.srcs| && OnItsWay(t.srcs[j], s.db, Covers(t.ep, j))
  {
  }

  /** A sweep step moves the index or changes the one source it is at. */
  lemma SweepOnItsWay(s: State, j: nat)
    requires EpInBounds(s) && Sweeping(s.ep.pc) && Delivering(s) && j < |s.srcs|
    ensures var t := ApplyEpSweep(s); |t.srcs| == |s.srcs| && OnItsWay(t.srcs[j], s.db, Covers(t.ep, j))
  {
    assert OnItsWay(s.srcs[j], s.db, Covers(s.ep, j));
    if s.ep.pc.ETest? { TestOnItsWay(s, j); }
    else {
      match s.ep.pc {
        case EWork => case EEndStamp => case EStore => case EDiff =>
      }
    }
  }

  lemma SweepHandlesActive(s: State)
    requires EpInBounds(s) && Sweeping(s.ep.pc)
    requires s.ep.pc.EWork? || s.ep.pc.EEndStamp? || s.ep.pc.EStore? ==> s.srcs[s.ep.i].active
    ensures var t := ApplyEpSweep(s);
            && t.db == s.db && |t.srcs| == |s.srcs|
            && (t.ep.pc.EWork? || t.ep.pc.EEndStamp? || t.ep.pc.EStore? ==> t.ep.i < |t.srcs| && t.srcs[t.ep.i].active)
  {
    match s.ep.pc {
      case ETest => case EWork => case EEndStamp => case EStore => case EDiff =>
    }
  }

  lemma SweepDelivering(s: State)
    requires EpInBounds(s) && Sweeping(s.ep.pc) && Delivering(s)
    ensures Delivering(ApplyEpSweep(s)) && ApplyEpSweep(s).db == s.db
  {
    SweepHandlesActive(s);
    forall j | 0 <= j < |s.srcs|
      ensures OnItsWay(ApplyEpSweep(s).srcs[j], s.db, Covers(ApplyEpSweep(s).ep, j))
    {
      SweepOnItsWay(s, j);
    }
  }

  lemma EpDelivered(c: Config, s: State, lost: bool)
    requires c.Doorbell() && Delivered(c, s) && EpEnabled(s)
    ensures Delivered(c, ApplyEp(c, s, lost))
  {
    EpPhased(c, s, lost);
    GoFacts(c, s);
    if EpWaking(s.ep.pc) {
      WakingDelivered(c, s, lost);
    } else if Sweeping(s.ep.pc) {
      SweepStays(s);
      SweepDelivering(s);
    } else if EpBoots(s.ep.pc) {
      BootDelivered(c, s);
    } else {
      QuitDelivered(s);
    }
  }

  // ----- Steps of main -----

  lemma LaunchDelivered(c: Config, s: State)
    requires c.Doorbell() && MainLaunches(s.main.pc) && Still(s) && !Gone(s)
    requires s.ep.pc.EUnborn? <==> s.main.pc.MCreateEp?
    ensures var t := ApplyMainLaunch(c, s); Still(t) && !Gone(t)
  {
    var t := ApplyMainLaunch(c, s);
    match s.main.pc {
      case MCreateEp => case MArriveStart => case MWaitStart => case MAlloc =>
    }
    forall j | 0 <= j < |t.srcs| ensures Untouched(t.main, j, t.srcs[j]) {
      assert Untouched(s.main, j, s.srcs[j]);
    }
  }

  lemma SetupDelivered(s: State)
    requires s.main.i < |s.srcs| && MainSetsUp(s.main.pc) && Still(s) && !Gone(s)
    ensures var t := ApplyMainSetup(s); Still(t) && (Gone(t) ==> Delivering(t))
  {
    var t := ApplyMainSetup(s);
    assert forall j :: 0 <= j < |s.srcs| ==> Untouched(s.main, j, s.srcs[j]);
    match s.main.pc {
      case MInit => case MCreate => case MPrepare => case MArriveGo =>
    }
  }

  /** From the go barrier on, main changes no event word, no history and not the doorbell. */
  predicate HandsOff(s: State, t: State) {
    && t.db == s.db && t.ep.pc == s.ep.pc && t.ep.i == s.ep.i && t.bars.go == s.bars.go
    && |t.srcs| == |s.srcs|
    && (forall j :: 0 <= j < |s.srcs| ==> t.srcs[j] == s.srcs[j].(endFlag := t.srcs[j].endFlag))
  }

  lemma MainHandsOff(c: Config, s: State)
    requires s.main.i < |s.srcs| && !MainLaunches(s.main.pc) && !MainSetsUp(s.main.pc)
    ensures HandsOff(s, ApplyMain(c, s))
  {
    if MainRuns(s.main.pc) { RunHandsOff(s); }
    else if MainStops(s.main.pc) { StopHandsOff(s); }
  }

  lemma RunHandsOff(s: State)
    requires MainRuns(s.main.pc)
    ensures HandsOff(s, ApplyMainRun(s))
  {
    match s.main.pc {
      case MWaitGo => case MRun => case MStopEp => case MKillEp => case MArriveFinish =>
    }
  }

  lemma StopHandsOff(s: State)
    requires s.main.i < |s.srcs| && MainStops(s.main.pc)
    ensures HandsOff(s, ApplyMainStop(s))
  {
    match s.main.pc {
      case MWaitFinish => case MStop => case MKill => case MArriveEnd =>
    }
  }

  lemma HandsOffDelivered(s: State, t: State)
    requires Gone(s) && Still(s) && Delivering(s) && HandsOff(s, t)
    ensures Gone(t) && Still(t) && Delivering(t)
  {
    forall j | 0 <= j < |t.srcs| ensures OnItsWay(t.srcs[j], t.db, Covers(t.ep, j)) {
      assert OnItsWay(s.srcs[j], s.db, Covers(s.ep, j));
    }
  }

  lemma MainDelivered(c: Config, s: State)
    requires c.Doorbell() && Delivered(c, s) && MainEnabled(c, s)
    ensures Delivered(c, ApplyMain(c, s))
  {
    MainPhased(c, s);
    GoFacts(c, s);
    if MainLaunches(s.main.pc) { LaunchDelivered(c, s); }
    else if MainSetsUp(s.main.pc) { SetupDelivered(s); }
    else {
      MainHandsOff(c, s);
      HandsOffDelivered(s, ApplyMain(c, s));
    }
  }

  // ----- Every step, every run -----

  lemma StepDelivered(c: Config, s: State, a: Act)
    requires c.Doorbell() && Delivered(c, s) && Enabled(c, s, a)
    ensures Delivered(c, Apply(c, s, a))
  {
    match a
    case SrcStep(i) => SrcDelivered(c, s, i);
    case EpStep(lost) => EpDelivered(c, s, lost);
    case MainStep => MainDelivered(c, s);
    case _ =>
      StepPhased(c, s, a);
      OtherDelivered(c, s, a);
  }

  lemma OtherDelivered(c: Config, s: State, a: Act)
    requires Shaped(c, s) && Still(s) && (Gone(s) ==> Delivering(s)) && Enabled(c, s, a)
    requires !a.SrcStep? && !a.EpStep? && !a.MainStep?
    ensures var t := Apply(c, s, a); Still(t) && (Gone(t) ==> Delivering(t))
  {
    var t := Apply(c, s, a);
    assert t.srcs == s.srcs && t.main == s.main && t.db == s.db && t.ep.pc == s.ep.pc && t.ep.i == s.ep.i;
    assert Gone(t) <==> Gone(s);
    if Gone(t) {
      forall j | 0 <= j < |t.srcs| ensures OnItsWay(t.srcs[j], t.db, Covers(t.ep, j)) {
        assert OnItsWay(s.srcs[j], s.db, Covers(s.ep, j));
      }
    }
  }

  lemma {:induction false} RunDelivered(c: Config, s: State, acts: seq<Act>, t: State)
    requires c.Doorbell() && Delivered(c, s) && Run(c, s, acts, t)
    ensures Delivered(c, t)
    decreases |acts|
  {
    if acts != [] {
      StepDelivered(c, s, acts[0]);
      RunDelivered(c, Apply(c, s, acts[0]), acts[1..], t);
    }
  }

  lemma ReachableDelivered(c: Config, s: State)
    requires c.Valid() && c.Doorbell() && Reachable(c, s)
    ensures Delivered(c, s)
  {
    var s0, acts :| Init(c, s0) && Run(c, s0, acts, s);
    InitDelivered(c, s0);
    RunDelivered(c, s0, acts, s);
  }

  /** No lost event: an ACTIVE source is still to press, or the doorbell is PRESSED, or the
      sweep under way has yet to test it or is handling it before its RESET store. */
  lemma NoLostEvent(c: Config, s: State, i: nat)
    requires c.Valid() && c.Doorbell() && Reachable(c, s) && i < |s.srcs|
    ensures !s.srcs[i].pc.SUnborn? && s.srcs[i].active ==> s.srcs[i].pc.SPress? || s.db || Covers(s.ep, i)
    ensures s.srcs[i].h.announced ==> Gone(s) && s.srcs[i].active && (s.db || Covers(s.ep, i))
  {
    ReachableDelivered(c, s);
    GoFacts(c, s);
    if Gone(s) {
      assert OnItsWay(s.srcs[i], s.db, Covers(s.ep, i));
    } else {
      assert Untouched(s.main, i, s.srcs[i]);
    }
  }

  /** A skipped sweep: when the exchange returns RESET, a full sweep at that instant would
      find only sources between their ACTIVE store and their press. */
  lemma SkippedSweepFindsNothingAnnounced(c: Config, s: State, i: nat)
    requires c.Valid() && c.Doorbell() && Reachable(c, s) && i < |s.srcs|
    requires s.ep.pc.EWake? && !s.db && !s.srcs[i].pc.SUnborn? && s.srcs[i].active
    ensures s.srcs[i].pc.SPress? && !s.srcs[i].h.announced
  {
    NoLostEvent(c, s, i);
  }
}
