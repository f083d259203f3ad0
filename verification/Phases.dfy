// Where each thread can be relative to the others: the four barriers, the flags that main
// raises, thread creation, and the two allocations.
module Phases {
  import opened Protocol

  // ----- Legs: how many barrier operations (arrive, leave, arrive, leave, ...) a thread has done -----

  function SrcLeg(pc: SrcPc): nat {
    if pc.SUnborn? || pc.SArrive? then 0 else if pc.SWait? then 1
    else if pc.SWaitEnd? then 3 else if pc.SExited? then 4 else 2
  }

  function EpLeg(pc: EpPc): nat {
    if EpWaking(pc) || Sweeping(pc) then 2
    else if pc.EWait? then 1 else if pc.EActiveStamp? || pc.EFinalStamp? || pc.EArriveDone? then 2
    else if pc.EWaitDone? then 3 else if pc.EExited? then 4 else 0
  }

  /** main takes part in all four barriers: start, go, finish, end. */
  function MainLeg(pc: MainPc): nat {
    if MainLaunches(pc) then if pc.MWaitStart? then 1 else if pc.MAlloc? then 2 else 0
    else if MainSetsUp(pc) then 2
    else if MainRuns(pc) then if pc.MWaitGo? then 3 else 4
    else if MainStops(pc) then if pc.MWaitFinish? then 5 else 6
    else if pc.MWaitEnd? then 7 else 8
  }

  predicate EpLeft(pc: EpPc) { pc.EFinalStamp? || pc.EArriveDone? || EpLeg(pc) >= 3 }
  predicate MainBeforeCreate(pc: MainPc) {
    pc.MCreateEp? || pc.MArriveStart? || pc.MWaitStart? || pc.MAlloc? || pc.MInit?
  }
  predicate MainStopped(pc: MainPc) { pc.MKillEp? || MainKilled(pc) }
  predicate MainKilled(pc: MainPc) { pc.MArriveFinish? || MainLeg(pc) >= 5 }

  // ----- The threads each barrier counts -----

  function Crowd(n: nat): set<Tid> {
    if n == 0 then {TMain} else Crowd(n - 1) + {TSrc(n - 1)}
  }

  function Everyone(n: nat, idle: nat): set<Tid> {
    if idle == 0 then Crowd(n) else Everyone(n, idle - 1) + {TIdle(idle - 1)}
  }

  lemma {:induction false} CrowdIs(n: nat)
    ensures |Crowd(n)| == n + 1
    ensures forall t :: t in Crowd(n) <==> t == TMain || (t.TSrc? && t.i < n)
  {
    if n > 0 { CrowdIs(n - 1); }
  }

  lemma {:induction false} EveryoneIs(n: nat, idle: nat)
    ensures |Everyone(n, idle)| == idle + n + 1
    ensures forall t :: t in Everyone(n, idle) <==> t == TMain || (t.TSrc? && t.i < n) || (t.TIdle? && t.k < idle)
  {
    if idle > 0 { EveryoneIs(n, idle - 1); } else { CrowdIs(n); }
  }

  lemma FullSet<T>(part: set<T>, whole: set<T>)
    requires part <= whole && |part| == |whole|
    ensures part == whole
  {
    assert whole == part + (whole - part);
    assert |whole| == |part| + |whole - part|;
  }

  // ----- Invariants -----

  /** A barrier holds exactly the threads whose program counter is past their arrival. */
  predicate Tickets(c: Config, s: State) {
    && s.bars.started <= {TMain, TEp} && s.bars.finished <= {TMain, TEp}
    && s.bars.go <= Crowd(c.sources) && s.bars.ended <= Everyone(c.sources, c.idle)
    && EpTickets(s.bars, EpLeg(s.ep.pc))
    && MainTickets(s.bars, MainLeg(s.main.pc))
    && (forall i :: 0 <= i < |s.srcs| ==> SrcTickets(s.bars, i, SrcLeg(s.srcs[i].pc)))
  }

  predicate EpTickets(b: Barriers, leg: nat) {
    && (TEp in b.started <==> leg >= 1)
    && (TEp in b.finished <==> leg >= 3)
  }

  predicate MainTickets(b: Barriers, leg: nat) {
    && (TMain in b.started <==> leg >= 1)
    && (TMain in b.go <==> leg >= 3)
    && (TMain in b.finished <==> leg >= 5)
    && (TMain in b.ended <==> leg >= 7)
  }

  predicate SrcTickets(b: Barriers, i: nat, leg: nat) {
    && (TSrc(i) in b.go <==> leg >= 1)
    && (TSrc(i) in b.ended <==> leg >= 3)
  }

  /** A thread past a barrier has seen every other participant arrive there. */
  predicate Gates(s: State) {
    && (EpLeg(s.ep.pc) >= 2 ==> TMain in s.bars.started)
    && (EpLeg(s.ep.pc) >= 4 ==> TMain in s.bars.finished)
    && MainGates(s.bars, |s.srcs|, MainLeg(s.main.pc))
    && (forall i :: 0 <= i < |s.srcs| ==> SrcGates(s.bars, SrcLeg(s.srcs[i].pc)))
  }

  predicate MainGates(b: Barriers, n: nat, leg: nat) {
    && (leg >= 2 ==> TEp in b.started)
    && (leg >= 4 ==> forall i :: 0 <= i < n ==> TSrc(i) in b.go)
    && (leg >= 6 ==> TEp in b.finished)
    && (leg >= 8 ==> forall i :: 0 <= i < n ==> TSrc(i) in b.ended)
  }

  predicate SrcGates(b: Barriers, leg: nat) {
    && (leg >= 2 ==> TMain in b.go)
    && (leg >= 4 ==> TMain in b.ended)
  }

  /** Threads exist exactly from their creation on. */
  predicate Births(s: State) {
    && (s.ep.pc.EUnborn? <==> s.main.pc.MCreateEp?)
    && (MainBeforeCreate(s.main.pc) ==> forall i :: 0 <= i < |s.srcs| ==> s.srcs[i].pc.SUnborn?)
    && (s.main.pc.MCreate? ==> forall i :: 0 <= i < |s.srcs| ==> (s.srcs[i].pc.SUnborn? <==> s.main.i <= i))
    && (!MainBeforeCreate(s.main.pc) && !s.main.pc.MCreate? ==>
          forall i :: 0 <= i < |s.srcs| ==> !s.srcs[i].pc.SUnborn?)
  }

  /** end_flag and SIGUSR1 reach the EP in this order, and only end_flag ends its loop. */
  predicate Flags(s: State) {
    && (!s.ep.pc.EUnborn? ==> (s.ep.endFlag <==> MainStopped(s.main.pc)))
    && (EpLeft(s.ep.pc) ==> s.ep.endFlag)
    && (s.ep.signal ==> MainKilled(s.main.pc))
  }

  predicate Allocations(s: State) {
    && (s.heap.processors <==> !s.main.pc.MCreateEp? && !s.main.pc.MExited?)
    && (s.heap.sources <==> MainLeg(s.main.pc) >= 2 && !s.main.pc.MAlloc?
                            && !s.main.pc.MFreeProcessors? && !s.main.pc.MExited?)
  }

  predicate Orderly(s: State) {
    Births(s) && Flags(s) && Allocations(s)
  }

  predicate Phased(c: Config, s: State) {
    Shaped(c, s) && Tickets(c, s) && Gates(s) && Orderly(s)
  }

  lemma InitPhased(c: Config, s: State)
    requires c.Valid() && Init(c, s)
    ensures Phased(c, s)
  {
  }

  // ----- Barrier moves: staying on a leg, arriving at a barrier, or leaving an open one -----


  predicate Wider(b: Barriers, b': Barriers) {
    b.started <= b'.started && b.go <= b'.go && b.finished <= b'.finished && b.ended <= b'.ended
  }

  lemma Duo(part: set<Tid>)
    requires part <= {TMain, TEp} && |part| == 2
    ensures TMain in part && TEp in part
  {
    FullSet(part, {TMain, TEp});
  }

  // ----- Source steps -----

  predicate SrcMoves(c: Config, s: State, t: State, i: nat) {
    && t.ep == s.ep && t.main == s.main && t.heap == s.heap
    && |t.srcs| == |s.srcs| && i < |s.srcs| && t.srcs == s.srcs[i := t.srcs[i]]
    && !s.srcs[i].pc.SUnborn? && !t.srcs[i].pc.SUnborn?
    && SrcJump(c, s, t.bars, SrcLeg(s.srcs[i].pc), SrcLeg(t.srcs[i].pc), TSrc(i))
  }

  predicate SrcJump(c: Config, s: State, b: Barriers, leg: nat, leg': nat, me: Tid) {
    || (leg' == leg && b == s.bars)
    || (leg == 0 && leg' == 1 && b == s.bars.(go := s.bars.go + {me}))
    || (leg == 1 && leg' == 2 && GoOpen(c, s) && b == s.bars)
    || (leg == 2 && leg' == 3 && b == s.bars.(ended := s.bars.ended + {me}))
    || (leg == 3 && leg' == 4 && EndOpen(c, s) && b == s.bars)
  }

  lemma SrcIsMove(c: Config, s: State, i: nat)
    requires SrcEnabled(c, s, i)
    ensures SrcMoves(c, s, ApplySrc(c, s, i), i)
  {
    match s.srcs[i].pc {
      case SArrive => case SWait => case SArriveEnd => case SWaitEnd =>
      case SLoopTest => case SSleep => case SStamp => case SActivate => case SPress => case SSev =>
    }
  }

  lemma SrcTicketsKept(c: Config, s: State, t: State, i: nat)
    requires |s.srcs| == c.sources && Tickets(c, s) && SrcMoves(c, s, t, i)
    ensures Tickets(c, t)
  {
    CrowdIs(c.sources);
    EveryoneIs(c.sources, c.idle);
    forall j | 0 <= j < |t.srcs|
      ensures SrcTickets(t.bars, j, SrcLeg(t.srcs[j].pc))
    {
      assert SrcTickets(s.bars, j, SrcLeg(s.srcs[j].pc));
    }
  }

  lemma SrcGatesKept(c: Config, s: State, t: State, i: nat)
    requires |s.srcs| == c.sources && Tickets(c, s) && Gates(s) && SrcMoves(c, s, t, i)
    ensures Gates(t)
  {
    CrowdIs(c.sources);
    EveryoneIs(c.sources, c.idle);
    assert SrcGates(s.bars, SrcLeg(s.srcs[i].pc));
    if GoOpen(c, s) { FullSet(s.bars.go, Crowd(c.sources)); }
    if EndOpen(c, s) { FullSet(s.bars.ended, Everyone(c.sources, c.idle)); }
    assert Wider(s.bars, t.bars);
    forall j | 0 <= j < |t.srcs|
      ensures SrcGates(t.bars, SrcLeg(t.srcs[j].pc))
    {
      assert SrcGates(s.bars, SrcLeg(s.srcs[j].pc));
    }
  }

  lemma SrcPhased(c: Config, s: State, i: nat)
    requires Phased(c, s) && SrcEnabled(c, s, i)
    ensures Phased(c, ApplySrc(c, s, i))
  {
    var t := ApplySrc(c, s, i);
    SrcIsMove(c, s, i);
    SrcTicketsKept(c, s, t, i);
    SrcGatesKept(c, s, t, i);
  }

  // ----- EP steps -----

  predicate EpInBounds(s: State) {
    s.ep.i <= |s.srcs| && (Handling(s.ep.pc) ==> s.ep.i < |s.srcs|)
  }

  predicate EpMoves(s: State, t: State) {
    && t.main == s.main && t.heap == s.heap
    && t.ep.endFlag == s.ep.endFlag && t.ep.signal == s.ep.signal
    && SamePcs(s, t)
    && EpInBounds(t)
    && !s.ep.pc.EUnborn? && !t.ep.pc.EUnborn?
    && (EpLeft(t.ep.pc) ==> EpLeft(s.ep.pc) || s.ep.endFlag)
    && EpJump(s, t.bars, EpLeg(s.ep.pc), EpLeg(t.ep.pc))
  }

  predicate EpJump(s: State, b: Barriers, leg: nat, leg': nat) {
    || (leg' == leg && b == s.bars)
    || (leg == 0 && leg' == 1 && b == s.bars.(started := s.bars.started + {TEp}))
    || (leg == 1 && leg' == 2 && StartOpen(s) && b == s.bars)
    || (leg == 2 && leg' == 3 && b == s.bars.(finished := s.bars.finished + {TEp}))
    || (leg == 3 && leg' == 4 && FinishOpen(s) && b == s.bars)
  }

  lemma EpReadiesIsMove(c: Config, s: State)
    requires EpInBounds(s) && (s.ep.pc.EDbReset? || s.ep.pc.EArm? || s.ep.pc.EActiveStamp?)
    ensures EpMoves(s, ApplyEpBoot(c, s))
  {
    match s.ep.pc {
      case EDbReset => case EArm => case EActiveStamp =>
    }
  }

  lemma EpArriveIsMove(c: Config, s: State)
    requires EpInBounds(s) && s.ep.pc.EArrive?
    ensures EpMoves(s, ApplyEpBoot(c, s))
  {
  }

  lemma EpWaitIsMove(c: Config, s: State)
    requires EpInBounds(s) && EpEnabled(s) && s.ep.pc.EWait?
    ensures EpMoves(s, ApplyEpBoot(c, s))
  {
  }

  lemma EpBootIsMove(c: Config, s: State)
    requires EpInBounds(s) && EpEnabled(s) && EpBoots(s.ep.pc)
    ensures EpMoves(s, ApplyEpBoot(c, s))
  {
    if s.ep.pc.EArrive? { EpArriveIsMove(c, s); }
    else if s.ep.pc.EWait? { EpWaitIsMove(c, s); }
    else { EpReadiesIsMove(c, s); }
  }

  lemma EpQuitIsMove(s: State)
    requires EpInBounds(s) && EpEnabled(s) && EpQuits(s.ep.pc)
    ensures EpMoves(s, ApplyEpQuit(s))
  {
    match s.ep.pc {
      case EFinalStamp => case EArriveDone => case EWaitDone =>
    }
  }

  /** Inside its loop the EP touches neither barriers nor flags ... */
  predicate EpStays(s: State, t: State) {
    && t.main == s.main && t.heap == s.heap && t.bars == s.bars
    && t.ep.endFlag == s.ep.endFlag && t.ep.signal == s.ep.signal
  }

  predicate EpInLoop(pc: EpPc) { EpWaking(pc) || Sweeping(pc) }

  /** ... and leaves it only for its final stamp, after end_flag. */
  predicate EpLands(s: State, t: State) {
    EpInBounds(t) && (EpInLoop(t.ep.pc) || (t.ep.pc.EFinalStamp? && s.ep.endFlag))
  }

  predicate SamePcs(s: State, t: State) {
    |t.srcs| == |s.srcs| && forall j :: 0 <= j < |s.srcs| ==> t.srcs[j].pc == s.srcs[j].pc
  }

  lemma WakingStays(c: Config, s: State, lost: bool)
    requires EpWaking(s.ep.pc)
    ensures EpStays(s, ApplyEpWaking(c, s, lost)) && ApplyEpWaking(c, s, lost).srcs == s.srcs
  {
  }

  lemma WakingLands(c: Config, s: State, lost: bool)
    requires EpInBounds(s) && EpWaking(s.ep.pc)
    ensures EpLands(s, ApplyEpWaking(c, s, lost))
  {
    match s.ep.pc {
      case ELoopTest => case EIdleStamp => case EWfe => case EWokeStamp => case ERearm => case EWake =>
    }
  }

  lemma SweepStays(s: State)
    requires EpInBounds(s) && Sweeping(s.ep.pc)
    ensures EpStays(s, ApplyEpSweep(s))
  {
  }

  lemma SweepLands(s: State)
    requires EpInBounds(s) && Sweeping(s.ep.pc)
    ensures EpLands(s, ApplyEpSweep(s))
  {
    match s.ep.pc {
      case ETest => case EWork => case EEndStamp => case EStore => case EDiff =>
    }
  }

  lemma SweepPcs(s: State)
    requires EpInBounds(s) && Sweeping(s.ep.pc)
    ensures SamePcs(s, ApplyEpSweep(s))
  {
    match s.ep.pc {
      case ETest => case EWork => case EEndStamp => case EStore => case EDiff =>
    }
  }

  lemma LoopIsMove(s: State, t: State)
    requires EpInLoop(s.ep.pc) && EpStays(s, t) && EpLands(s, t) && SamePcs(s, t)
    ensures EpMoves(s, t)
  {
  }

  lemma EpIsMove(c: Config, s: State, lost: bool)
    requires EpInBounds(s) && EpEnabled(s)
    ensures EpMoves(s, ApplyEp(c, s, lost))
  {
    if EpWaking(s.ep.pc) {
      WakingStays(c, s, lost);
      WakingLands(c, s, lost);
      LoopIsMove(s, ApplyEpWaking(c, s, lost));
    } else if Sweeping(s.ep.pc) {
      SweepStays(s);
      SweepLands(s);
      SweepPcs(s);
      LoopIsMove(s, ApplyEpSweep(s));
    }
    else if EpBoots(s.ep.pc) { EpBootIsMove(c, s); }
    else { EpQuitIsMove(s); }
  }

  /** Once out of its loop the EP stays out. */
  lemma EpStaysLeft(c: Config, s: State, lost: bool)
    requires EpInBounds(s) && EpEnabled(s) && EpLeft(s.ep.pc)
    ensures EpLeft(ApplyEp(c, s, lost).ep.pc) && ApplyEp(c, s, lost).ep.n == s.ep.n
  {
    match s.ep.pc { case EFinalStamp => case EArriveDone => case EWaitDone => }
  }

  lemma EpTicketsKept(c: Config, s: State, t: State)
    requires Tickets(c, s) && EpMoves(s, t)
    ensures Tickets(c, t)
  {
    forall j | 0 <= j < |t.srcs|
      ensures SrcTickets(t.bars, j, SrcLeg(t.srcs[j].pc))
    {
      assert SrcTickets(s.bars, j, SrcLeg(s.srcs[j].pc));
    }
  }

  lemma EpGatesKept(c: Config, s: State, t: State)
    requires Tickets(c, s) && Gates(s) && EpMoves(s, t)
    ensures Gates(t)
  {
    if StartOpen(s) { Duo(s.bars.started); }
    if FinishOpen(s) { Duo(s.bars.finished); }
    assert Wider(s.bars, t.bars);
    forall j | 0 <= j < |t.srcs|
      ensures SrcGates(t.bars, SrcLeg(t.srcs[j].pc))
    {
      assert SrcGates(s.bars, SrcLeg(s.srcs[j].pc));
    }
  }

  lemma EpPhased(c: Config, s: State, lost: bool)
    requires Phased(c, s) && EpEnabled(s)
    ensures Phased(c, ApplyEp(c, s, lost))
  {
    var t := ApplyEp(c, s, lost);
    EpIsMove(c, s, lost);
    EpTicketsKept(c, s, t);
    EpGatesKept(c, s, t);
  }

  // ----- Steps of main -----

  predicate MainMoves(c: Config, s: State, t: State) {
    && |t.srcs| == |s.srcs|
    && EpLeg(t.ep.pc) == EpLeg(s.ep.pc)
    && (forall j :: 0 <= j < |s.srcs| ==>
          t.srcs[j].pc == s.srcs[j].pc || (s.main.pc.MCreate? && j == s.main.i && t.srcs[j].pc.SArrive?))
    && MainJump(c, s, t.bars, MainLeg(s.main.pc), MainLeg(t.main.pc))
  }

  predicate MainJump(c: Config, s: State, b: Barriers, leg: nat, leg': nat) {
    || (leg' == leg && b == s.bars)
    || (leg == 0 && leg' == 1 && b == s.bars.(started := s.bars.started + {TMain}))
    || (leg == 1 && leg' == 2 && StartOpen(s) && b == s.bars)
    || (leg == 2 && leg' == 3 && b == s.bars.(go := s.bars.go + {TMain}))
    || (leg == 3 && leg' == 4 && GoOpen(c, s) && b == s.bars)
    || (leg == 4 && leg' == 5 && b == s.bars.(finished := s.bars.finished + {TMain}))
    || (leg == 5 && leg' == 6 && FinishOpen(s) && b == s.bars)
    || (leg == 6 && leg' == 7 && b == s.bars.(ended := s.bars.ended + {TMain}))
    || (leg == 7 && leg' == 8 && EndOpen(c, s) && b == s.bars)
  }

  lemma LaunchIsMove(c: Config, s: State)
    requires Births(s) && MainEnabled(c, s) && MainLaunches(s.main.pc)
    ensures MainMoves(c, s, ApplyMainLaunch(c, s))
  {
    match s.main.pc {
      case MCreateEp => case MArriveStart => case MWaitStart => case MAlloc =>
    }
  }

  lemma SetupIsMove(c: Config, s: State)
    requires s.main.i < |s.srcs| && MainSetsUp(s.main.pc)
    ensures MainMoves(c, s, ApplyMainSetup(s))
  {
    match s.main.pc {
      case MInit => case MCreate => case MPrepare => case MArriveGo =>
    }
  }

  lemma RunIsMove(c: Config, s: State)
    requires MainEnabled(c, s) && MainRuns(s.main.pc)
    ensures MainMoves(c, s, ApplyMainRun(s))
  {
    match s.main.pc {
      case MWaitGo => case MRun => case MStopEp => case MKillEp => case MArriveFinish =>
    }
  }

  lemma StopIsMove(c: Config, s: State)
    requires s.main.i < |s.srcs| && MainEnabled(c, s) && MainStops(s.main.pc)
    ensures MainMoves(c, s, ApplyMainStop(s))
  {
    if s.main.pc.MStop? { StopSourceIsMove(c, s); }
    else if s.main.pc.MKill? { KillIsMove(c, s); }
    else { StopBarrierIsMove(c, s); }
  }

  lemma KillIsMove(c: Config, s: State)
    requires s.main.i < |s.srcs| && s.main.pc.MKill?
    ensures MainMoves(c, s, ApplyMainStop(s))
  {
  }

  lemma StopBarrierIsMove(c: Config, s: State)
    requires s.main.i < |s.srcs| && MainEnabled(c, s) && (s.main.pc.MWaitFinish? || s.main.pc.MArriveEnd?)
    ensures MainMoves(c, s, ApplyMainStop(s))
  {
  }

  lemma StopSourceIsMove(c: Config, s: State)
    requires s.main.i < |s.srcs| && s.main.pc.MStop?
    ensures MainMoves(c, s, ApplyMainStop(s))
  {
  }

  predicate MainDone(pc: MainPc) { pc.MLog? || pc.MFreeSources? || pc.MFreeProcessors? || pc.MExited? }

  lemma CleanUpStays(c: Config, s: State)
    requires MainEnabled(c, s) && MainCleansUp(s.main.pc)
    ensures var t := ApplyMainCleanUp(s);
            t.srcs == s.srcs && t.ep == s.ep && t.bars == s.bars && MainDone(t.main.pc)
    ensures s.main.pc.MWaitEnd? ==> EndOpen(c, s)
  {
    match s.main.pc {
      case MWaitEnd => case MLog => case MFreeSources => case MFreeProcessors =>
    }
  }

  lemma DoneIsMove(c: Config, s: State, t: State)
    requires MainCleansUp(s.main.pc) && MainDone(t.main.pc)
    requires t.srcs == s.srcs && t.ep == s.ep && t.bars == s.bars && (s.main.pc.MWaitEnd? ==> EndOpen(c, s))
    ensures MainMoves(c, s, t)
  {
  }

  lemma MainIsMove(c: Config, s: State)
    requires s.main.i < |s.srcs| && Births(s) && MainEnabled(c, s)
    ensures MainMoves(c, s, ApplyMain(c, s))
  {
    if MainLaunches(s.main.pc) { LaunchIsMove(c, s); }
    else if MainSetsUp(s.main.pc) { SetupIsMove(c, s); }
    else if MainRuns(s.main.pc) { RunIsMove(c, s); }
    else if MainStops(s.main.pc) { StopIsMove(c, s); }
    else { CleanUpStays(c, s); DoneIsMove(c, s, ApplyMainCleanUp(s)); }
  }

  lemma MainTicketsKept(c: Config, s: State, t: State)
    requires |s.srcs| == c.sources && Tickets(c, s) && Births(s) && MainMoves(c, s, t)
    ensures Tickets(c, t)
  {
    CrowdIs(c.sources);
    EveryoneIs(c.sources, c.idle);
    forall j | 0 <= j < |t.srcs|
      ensures SrcTickets(t.bars, j, SrcLeg(t.srcs[j].pc))
    {
      assert SrcTickets(s.bars, j, SrcLeg(s.srcs[j].pc));
    }
  }

  lemma MainGatesKept(c: Config, s: State, t: State)
    requires |s.srcs| == c.sources && Tickets(c, s) && Gates(s) && MainMoves(c, s, t)
    ensures Gates(t)
  {
    CrowdIs(c.sources);
    EveryoneIs(c.sources, c.idle);
    if StartOpen(s) { Duo(s.bars.started); }
    if FinishOpen(s) { Duo(s.bars.finished); }
    if GoOpen(c, s) { FullSet(s.bars.go, Crowd(c.sources)); }
    if EndOpen(c, s) { FullSet(s.bars.ended, Everyone(c.sources, c.idle)); }
    assert Wider(s.bars, t.bars);
    forall j | 0 <= j < |t.srcs|
      ensures SrcGates(t.bars, SrcLeg(t.srcs[j].pc))
    {
      assert SrcGates(s.bars, SrcLeg(s.srcs[j].pc));
    }
  }

  lemma LaunchOrderly(c: Config, s: State)
    requires Shaped(c, s) && Orderly(s) && MainLaunches(s.main.pc)
    ensures Shaped(c, ApplyMainLaunch(c, s)) && Orderly(ApplyMainLaunch(c, s))
  {
    match s.main.pc {
      case MCreateEp => case MArriveStart => case MWaitStart => case MAlloc =>
    }
  }

  lemma SetupOrderly(c: Config, s: State)
    requires Shaped(c, s) && Orderly(s) && MainSetsUp(s.main.pc)
    ensures Shaped(c, ApplyMainSetup(s)) && Orderly(ApplyMainSetup(s))
  {
    match s.main.pc {
      case MInit => case MCreate => case MPrepare => case MArriveGo =>
    }
  }

  lemma RunOrderly(c: Config, s: State)
    requires Shaped(c, s) && Orderly(s) && MainRuns(s.main.pc)
    ensures Shaped(c, ApplyMainRun(s)) && Orderly(ApplyMainRun(s))
  {
    match s.main.pc {
      case MWaitGo => case MRun => case MStopEp => case MKillEp => case MArriveFinish =>
    }
  }

  lemma StopSourceOrderly(c: Config, s: State)
    requires Shaped(c, s) && Orderly(s) && s.main.pc.MStop?
    ensures Shaped(c, ApplyMainStop(s)) && Orderly(ApplyMainStop(s))
  {
  }

  lemma StopOrderly(c: Config, s: State)
    requires Shaped(c, s) && Orderly(s) && MainStops(s.main.pc)
    ensures Shaped(c, ApplyMainStop(s)) && Orderly(ApplyMainStop(s))
  {
    if s.main.pc.MStop? { StopSourceOrderly(c, s); }
    else {
      match s.main.pc {
        case MWaitFinish => case MKill => case MArriveEnd =>
      }
    }
  }

  lemma CleanUpOrderly(c: Config, s: State)
    requires Shaped(c, s) && Orderly(s) && MainCleansUp(s.main.pc)
    ensures Shaped(c, ApplyMainCleanUp(s)) && Orderly(ApplyMainCleanUp(s))
  {
    match s.main.pc {
      case MWaitEnd => case MLog => case MFreeSources => case MFreeProcessors =>
    }
  }

  lemma MainPhased(c: Config, s: State)
    requires Phased(c, s) && MainEnabled(c, s)
    ensures Phased(c, ApplyMain(c, s))
  {
    var t := ApplyMain(c, s);
    MainIsMove(c, s);
    MainTicketsKept(c, s, t);
    MainGatesKept(c, s, t);
    if MainLaunches(s.main.pc) { LaunchOrderly(c, s); }
    else if MainSetsUp(s.main.pc) { SetupOrderly(c, s); }
    else if MainRuns(s.main.pc) { RunOrderly(c, s); }
    else if MainStops(s.main.pc) { StopOrderly(c, s); }
    else { CleanUpOrderly(c, s); }
  }

  // ----- Every step -----

  lemma IdlePhased(c: Config, s: State, k: nat)
    requires Phased(c, s) && IdleEnabled(c, s, k)
    ensures Phased(c, Apply(c, s, IdleStep(k)))
  {
    EveryoneIs(c.sources, c.idle);
    var t := Apply(c, s, IdleStep(k));
    forall j | 0 <= j < |t.srcs|
      ensures SrcTickets(t.bars, j, SrcLeg(t.srcs[j].pc)) && SrcGates(t.bars, SrcLeg(t.srcs[j].pc))
    {
      assert SrcTickets(s.bars, j, SrcLeg(s.srcs[j].pc)) && SrcGates(s.bars, SrcLeg(s.srcs[j].pc));
    }
  }

  lemma StepPhased(c: Config, s: State, a: Act)
    requires Phased(c, s) && Enabled(c, s, a)
    ensures Phased(c, Apply(c, s, a))
  {
    match a
    case SrcStep(i) => SrcPhased(c, s, i);
    case EpStep(lost) => EpPhased(c, s, lost);
    case MainStep => MainPhased(c, s);
    case IdleStep(k) => IdlePhased(c, s, k);
    case Deliver =>
    case Stir(_) =>
    case Tick(_) =>
  }

  lemma {:induction false} RunPhased(c: Config, s: State, acts: seq<Act>, t: State)
    requires Phased(c, s) && Run(c, s, acts, t)
    ensures Phased(c, t)
    decreases |acts|
  {
    if acts != [] {
      StepPhased(c, s, acts[0]);
      RunPhased(c, Apply(c, s, acts[0]), acts[1..], t);
    }
  }

  /** In every reachable state of every build the threads are where the barriers allow. */
  lemma ReachablePhased(c: Config, s: State)
    requires c.Valid() && Reachable(c, s)
    ensures Phased(c, s)
  {
    var s0, acts :| Init(c, s0) && Run(c, s0, acts, s);
    InitPhased(c, s0);
    RunPhased(c, s0, acts, s);
  }
}
