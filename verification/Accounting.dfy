// What the counters and the latency statistics add up to over whole runs.
module Accounting {
  import opened Clock
  import opened Latency
  import opened Protocol
  import opened Phases
  import opened Delivery
  import opened Words

  // ----- Handled events: accepted plus discarded samples -----

  function Weight(x: Source): nat { |x.h.log| + x.h.discarded }

  function Handled(srcs: seq<Source>): nat {
    if srcs == [] then 0 else Weight(srcs[0]) + Handled(srcs[1..])
  }

  lemma {:induction false} HandledUpdate(srcs: seq<Source>, i: nat, x: Source)
    requires i < |srcs|
    ensures Handled(srcs[i := x]) + Weight(srcs[i]) == Handled(srcs) + Weight(x)
    decreases i
  {
    if i == 0 {
      assert srcs[0 := x][1..] == srcs[1..];
    } else {
      assert srcs[i := x][1..] == srcs[1..][i - 1 := x];
      HandledUpdate(srcs[1..], i - 1, x);
    }
  }

  lemma {:induction false} HandledFresh(srcs: seq<Source>)
    requires forall i :: 0 <= i < |srcs| ==> srcs[i].h == NO_HISTORY
    ensures Handled(srcs) == 0
  {
    if srcs != [] { HandledFresh(srcs[1..]); }
  }

  // ----- Invariants -----

  function Bit(b: bool): nat { if b then 1 else 0 }

  /** The EP's counters against each other and against the samples. */
  predicate Tallied(s: State) {
    && s.ep.n.wakeups == s.ep.n.spurious + s.ep.n.sweeps
    && s.ep.n.events == Handled(s.srcs) + Bit(Handling(s.ep.pc))
  }

  /** Each sweep of a doorbell build, and a PRESSED doorbell, has its own press. */
  predicate Pressed(s: State) {
    if BellReset(s.ep.pc) then s.ep.n.sweeps + Bit(s.db) <= s.presses else s.ep.n.sweeps == 0
  }

  /** One source's books: each RESET store, and an ACTIVE word still to be reset, has its own ACTIVE store. */
  predicate Balanced(x: Source) {
    x.h.resets + Bit(x.active) <= x.h.activations
  }

  predicate Kept(x: Source) {
    Samples(x.h.log) && Tracks(x.stats, x.h.log)
  }

  /** With a monotone clock, stamps are never ahead of it, and the EP's end stamp is ordered
      against the start stamp by whether the source has stamped again since. */
  predicate Stamped(x: Source, now: nat) {
    x.active || x.pc.SActivate? ==> x.start <= now
  }

  predicate Ordered(x: Source, now: nat) {
    if x.h.restamped then x.end <= x.start <= now else x.start <= x.end <= now
  }

  predicate Entered(x: Source, now: nat) {
    Balanced(x) && Kept(x) && Stamped(x, now)
  }

  /** The books of all sources, from the go barrier on. */
  predicate Booked(s: State) {
    && (forall i :: 0 <= i < |s.srcs| ==> Entered(s.srcs[i], s.now))
    && (s.ep.pc.EStore? || s.ep.pc.EDiff? ==> s.ep.i < |s.srcs| && Ordered(s.srcs[s.ep.i], s.now))
    && (s.ep.pc.EWork? || s.ep.pc.EEndStamp? || s.ep.pc.EStore? ==> s.ep.i < |s.srcs| && s.srcs[s.ep.i].active)
  }

  /** Until the EP handles an event, nothing has happened before the go barrier opens. */
  predicate Unhandled(s: State) {
    s.ep.n.events == 0 ==>
      !Handling(s.ep.pc) && (!Gone(s) ==> forall i :: 0 <= i < |s.srcs| ==> Untouched(s.main, i, s.srcs[i]))
  }

  // ----- Source steps -----

  /** Inside its loop a source leaves samples and statistics alone. */
  lemma LoopKeeps(c: Config, s: State, i: nat)
    requires i < |s.srcs| && SrcLooping(s.srcs[i].pc)
    ensures var t := ApplySrcLoop(c, s, i);
            && t.ep == s.ep && t.bars == s.bars && t.now == s.now
            && |t.srcs| == |s.srcs| && t.srcs == s.srcs[i := t.srcs[i]]
            && t.srcs[i].stats == s.srcs[i].stats && t.srcs[i].h.log == s.srcs[i].h.log
            && t.srcs[i].h.discarded == s.srcs[i].h.discarded && t.srcs[i].h.resets == s.srcs[i].h.resets
            && s.presses + Bit(t.db) <= t.presses + Bit(s.db)
  {
    match s.srcs[i].pc {
      case SLoopTest => case SSleep => case SStamp => case SActivate => case SPress => case SSev =>
    }
  }

  lemma LoopBooks(c: Config, s: State, i: nat)
    requires i < |s.srcs| && SrcLooping(s.srcs[i].pc) && Balanced(s.srcs[i]) && Stamped(s.srcs[i], s.now)
    ensures var t := ApplySrcLoop(c, s, i); |t.srcs| == |s.srcs| && Balanced(t.srcs[i]) && Stamped(t.srcs[i], s.now)
  {
    match s.srcs[i].pc {
      case SLoopTest => case SSleep => case SStamp => case SActivate => case SPress => case SSev =>
    }
  }

  lemma LoopOrders(c: Config, s: State, i: nat)
    requires i < |s.srcs| && SrcLooping(s.srcs[i].pc) && Ordered(s.srcs[i], s.now)
    ensures var t := ApplySrcLoop(c, s, i); |t.srcs| == |s.srcs| && Ordered(t.srcs[i], s.now)
  {
    match s.srcs[i].pc {
      case SLoopTest => case SSleep => case SStamp => case SActivate => case SPress => case SSev =>
    }
  }

  lemma LoopBooked(c: Config, s: State, i: nat)
    requires i < |s.srcs| && SrcLooping(s.srcs[i].pc) && Booked(s)
    ensures Booked(ApplySrcLoop(c, s, i))
  {
    var t := ApplySrcLoop(c, s, i);
    LoopKeeps(c, s, i);
    LoopBooks(c, s, i);
    assert Entered(s.srcs[i], s.now);
    if s.ep.pc.EStore? || s.ep.pc.EDiff? {
      if s.ep.i == i { LoopOrders(c, s, i); }
    }
    forall j | 0 <= j < |t.srcs| ensures Entered(t.srcs[j], t.now) {
      assert Entered(s.srcs[j], s.now);
    }
  }

  lemma GateBooked(c: Config, s: State, i: nat)
    requires SrcEnabled(c, s, i) && !SrcLooping(s.srcs[i].pc) && Booked(s)
    ensures Booked(ApplySrcGate(s, i))
  {
    var t := ApplySrcGate(s, i);
    GateOnlyMoves(c, s, i);
    GateClock(c, s, i);
    forall j | 0 <= j < |t.srcs| ensures Entered(t.srcs[j], t.now) {
      assert Entered(s.srcs[j], s.now);
    }
  }

  lemma GateClock(c: Config, s: State, i: nat)
    requires SrcEnabled(c, s, i) && !SrcLooping(s.srcs[i].pc)
    ensures var t := ApplySrcGate(s, i);
            t.presses == s.presses && t.now == s.now && |t.srcs| == |s.srcs| && !t.srcs[i].pc.SActivate?
  {
  }

  lemma SrcTallied(c: Config, s: State, i: nat)
    requires SrcEnabled(c, s, i) && Tallied(s)
    ensures Tallied(ApplySrc(c, s, i)) && ApplySrc(c, s, i).ep == s.ep
  {
    var t := ApplySrc(c, s, i);
    if SrcLooping(s.srcs[i].pc) { LoopKeeps(c, s, i); } else { GateOnlyMoves(c, s, i); }
    HandledUpdate(s.srcs, i, t.srcs[i]);
  }

  lemma SrcPressed(c: Config, s: State, i: nat)
    requires SrcEnabled(c, s, i) && Pressed(s)
    ensures Pressed(ApplySrc(c, s, i))
  {
    if SrcLooping(s.srcs[i].pc) { LoopKeeps(c, s, i); }
    else { GateOnlyMoves(c, s, i); GateClock(c, s, i); }
  }

  // ----- EP steps -----

  /** Each wake-up is tallied once, as spurious or as a sweep. */
  lemma WakingTallies(c: Config, s: State, lost: bool)
    requires EpWaking(s.ep.pc)
    ensures var n, n' := s.ep.n, ApplyEpWaking(c, s, lost).ep.n;
            && n'.events == n.events
            && n'.wakeups + n.spurious + n.sweeps == n.wakeups + n'.spurious + n'.sweeps
  {
    match s.ep.pc {
      case ELoopTest => case EIdleStamp => case EWfe => case EWokeStamp => case ERearm => case EWake =>
    }
  }

  /** With a doorbell, a sweep uses up a press. */
  lemma WakingSweeps(c: Config, s: State, lost: bool)
    requires c.Doorbell() && EpWaking(s.ep.pc)
    ensures var t := ApplyEpWaking(c, s, lost); t.ep.n.sweeps + Bit(t.db) == s.ep.n.sweeps + Bit(s.db)
  {
    match s.ep.pc {
      case ELoopTest => case EIdleStamp => case EWfe => case EWokeStamp => case ERearm => case EWake =>
    }
  }

  lemma WakingLeads(c: Config, s: State, lost: bool)
    requires EpWaking(s.ep.pc)
    ensures var t := ApplyEpWaking(c, s, lost);
            !Handling(t.ep.pc) && BellReset(t.ep.pc) && t.now == s.now && t.presses == s.presses
  {
    match s.ep.pc {
      case ELoopTest => case EIdleStamp => case EWfe => case EWokeStamp => case ERearm => case EWake =>
    }
  }

  lemma BootKeeps(c: Config, s: State)
    requires EpBoots(s.ep.pc)
    ensures var t := ApplyEpBoot(c, s);
            && t.srcs == s.srcs && t.now == s.now && t.presses == s.presses && t.ep.n == s.ep.n
            && t.main == s.main && t.bars.go == s.bars.go && (t.db ==> s.db)
            && !Sweeping(t.ep.pc) && (BellReset(s.ep.pc) || !t.db)
  {
    match s.ep.pc {
      case EDbReset => case EArm => case EArrive => case EWait => case EActiveStamp =>
    }
  }

  lemma QuitKeeps(s: State)
    requires EpQuits(s.ep.pc)
    ensures var t := ApplyEpQuit(s);
            && t.srcs == s.srcs && t.now == s.now && t.presses == s.presses && t.ep.n == s.ep.n
            && t.main == s.main && t.bars.go == s.bars.go && t.db == s.db && !Sweeping(t.ep.pc)
  {
    match s.ep.pc {
      case EFinalStamp => case EArriveDone => case EWaitDone =>
    }
  }

  lemma SweepKeeps(s: State)
    requires EpInBounds(s) && Sweeping(s.ep.pc)
    ensures var t := ApplyEpSweep(s);
            && |t.srcs| == |s.srcs| && t.now == s.now && t.presses == s.presses && t.db == s.db
            && (if s.ep.i < |s.srcs| then t.srcs == s.srcs[s.ep.i := t.srcs[s.ep.i]] else t.srcs == s.srcs)
            && t.ep.n == s.ep.n.(events := t.ep.n.events)
  {
    match s.ep.pc {
      case ETest => case EWork => case EEndStamp => case EStore => case EDiff =>
    }
  }

  lemma DiffWeighs(s: State)
    requires EpInBounds(s) && s.ep.pc.EDiff?
    ensures var t := ApplyEpSweep(s);
            |t.srcs| == |s.srcs| && !Handling(t.ep.pc) && t.ep.n == s.ep.n
            && Weight(t.srcs[s.ep.i]) == Weight(s.srcs[s.ep.i]) + 1
  {
  }

  lemma HandleWeighs(s: State)
    requires EpInBounds(s) && Handling(s.ep.pc) && !s.ep.pc.EDiff?
    ensures var t := ApplyEpSweep(s);
            && |t.srcs| == |s.srcs| && Handling(t.ep.pc) && t.ep.n == s.ep.n
            && Weight(t.srcs[s.ep.i]) == Weight(s.srcs[s.ep.i])
  {
    match s.ep.pc {
      case EWork => case EEndStamp => case EStore =>
    }
  }

  /** An event is counted when a handling starts and weighed when it ends. */
  lemma SweepWeighs(s: State)
    requires EpInBounds(s) && Sweeping(s.ep.pc) && s.ep.i < |s.srcs|
    ensures var t := ApplyEpSweep(s);
            && |t.srcs| == |s.srcs|
            && t.ep.n.events + Bit(Handling(s.ep.pc)) + Weight(s.srcs[s.ep.i])
            == s.ep.n.events + Bit(Handling(t.ep.pc)) + Weight(t.srcs[s.ep.i])
  {
    if s.ep.pc.EDiff? { DiffWeighs(s); }
    else if !s.ep.pc.ETest? { HandleWeighs(s); }
  }

  lemma SweepTallied(s: State)
    requires EpInBounds(s) && Sweeping(s.ep.pc) && Tallied(s)
    ensures Tallied(ApplyEpSweep(s))
  {
    var t := ApplyEpSweep(s);
    SweepKeeps(s);
    SweepLands(s);
    if s.ep.i < |s.srcs| {
      SweepWeighs(s);
      HandledUpdate(s.srcs, s.ep.i, t.srcs[s.ep.i]);
    }
  }

  lemma SweepBalances(s: State)
    requires EpInBounds(s) && Sweeping(s.ep.pc) && s.ep.i < |s.srcs|
    requires Balanced(s.srcs[s.ep.i]) && Stamped(s.srcs[s.ep.i], s.now)
    requires s.ep.pc.EEndStamp? || s.ep.pc.EStore? ==> s.srcs[s.ep.i].active
    requires s.ep.pc.EStore? || s.ep.pc.EDiff? ==> Ordered(s.srcs[s.ep.i], s.now)
    ensures var t := ApplyEpSweep(s);
            && |t.srcs| == |s.srcs| && Balanced(t.srcs[s.ep.i]) && Stamped(t.srcs[s.ep.i], s.now)
            && (t.ep.pc.EStore? || t.ep.pc.EDiff? ==> t.ep.i == s.ep.i && Ordered(t.srcs[s.ep.i], s.now))
  {
    match s.ep.pc {
      case ETest => case EWork => case EEndStamp => case EStore => case EDiff =>
    }
  }

  lemma SweepTracks(s: State)
    requires EpInBounds(s) && Sweeping(s.ep.pc) && s.ep.i < |s.srcs| && Kept(s.srcs[s.ep.i])
    ensures var t := ApplyEpSweep(s); |t.srcs| == |s.srcs| && Kept(t.srcs[s.ep.i])
  {
    var x := s.srcs[s.ep.i];
    if s.ep.pc.EDiff? {
      AccountTracks(x.stats, x.h.log, TsDiff(OfNanos(x.start), OfNanos(x.end)));
      assert ApplyEpSweep(s).srcs[s.ep.i] == AccountSource(x);
    } else {
      SweepSameLog(s);
    }
  }

  lemma SweepSameLog(s: State)
    requires EpInBounds(s) && Sweeping(s.ep.pc) && s.ep.i < |s.srcs| && !s.ep.pc.EDiff?
    ensures var t := ApplyEpSweep(s);
            && |t.srcs| == |s.srcs| && t.srcs[s.ep.i].stats == s.srcs[s.ep.i].stats
            && t.srcs[s.ep.i].h.log == s.srcs[s.ep.i].h.log
  {
    match s.ep.pc {
      case ETest => case EWork => case EEndStamp => case EStore =>
    }
  }

  lemma SweepBooked(s: State)
    requires EpInBounds(s) && Sweeping(s.ep.pc) && Booked(s)
    ensures Booked(ApplyEpSweep(s))
  {
    var t := ApplyEpSweep(s);
    SweepKeeps(s);
    SweepHandlesActive(s);
    if s.ep.i < |s.srcs| {
      assert Entered(s.srcs[s.ep.i], s.now);
      SweepBalances(s);
      SweepTracks(s);
    }
    forall j | 0 <= j < |t.srcs| ensures Entered(t.srcs[j], t.now) {
      assert Entered(s.srcs[j], s.now);
    }
  }

  lemma EpTallied(c: Config, s: State, lost: bool)
    requires EpInBounds(s) && EpEnabled(s) && Tallied(s)
    ensures Tallied(ApplyEp(c, s, lost))
  {
    if EpWaking(s.ep.pc) { WakingStays(c, s, lost); WakingTallies(c, s, lost); WakingLeads(c, s, lost); }
    else if Sweeping(s.ep.pc) { SweepTallied(s); }
    else if EpBoots(s.ep.pc) { BootKeeps(c, s); }
    else { QuitKeeps(s); }
  }

  lemma EpBooked(c: Config, s: State, lost: bool)
    requires EpInBounds(s) && EpEnabled(s) && Booked(s)
    ensures Booked(ApplyEp(c, s, lost))
  {
    if EpWaking(s.ep.pc) { WakingStays(c, s, lost); WakingLeads(c, s, lost); }
    else if Sweeping(s.ep.pc) { SweepBooked(s); }
    else if EpBoots(s.ep.pc) { BootKeeps(c, s); }
    else { QuitKeeps(s); }
  }

  lemma EpPressed(c: Config, s: State, lost: bool)
    requires c.Doorbell() && EpInBounds(s) && EpEnabled(s) && Pressed(s)
    ensures Pressed(ApplyEp(c, s, lost))
  {
    EpIsMove(c, s, lost);
    if EpWaking(s.ep.pc) { WakingSweeps(c, s, lost); WakingLeads(c, s, lost); }
    else if Sweeping(s.ep.pc) { SweepKeeps(s); SweepLands(s); }
    else if EpBoots(s.ep.pc) { BootKeeps(c, s); }
    else { QuitKeeps(s); }
  }

  /** A test that finds no event moves on; one that finds an event counts it. */
  lemma TestUnhandled(s: State)
    requires EpInBounds(s) && s.ep.pc.ETest?
    ensures var t := ApplyEpSweep(s);
            && t.srcs == s.srcs && t.main == s.main && t.bars == s.bars
            && s.ep.n.events <= t.ep.n.events && (Handling(t.ep.pc) ==> t.ep.n.events > 0)
  {
  }

  lemma HandlingCounts(s: State)
    requires EpInBounds(s) && Handling(s.ep.pc)
    ensures ApplyEpSweep(s).ep.n == s.ep.n
  {
    match s.ep.pc {
      case EWork => case EEndStamp => case EStore => case EDiff =>
    }
  }

  lemma EpUnhandled(c: Config, s: State, lost: bool)
    requires EpInBounds(s) && EpEnabled(s) && Unhandled(s)
    ensures Unhandled(ApplyEp(c, s, lost))
  {
    EpIsMove(c, s, lost);
    if EpWaking(s.ep.pc) { WakingStays(c, s, lost); WakingTallies(c, s, lost); WakingLeads(c, s, lost); }
    else if s.ep.pc.ETest? { TestUnhandled(s); }
    else if Handling(s.ep.pc) { HandlingCounts(s); }
    else if EpBoots(s.ep.pc) { BootKeeps(c, s); }
    else { QuitKeeps(s); }
  }

  // ----- Steps of main -----

  lemma {:induction false} HandledSame(srcs: seq<Source>, srcs': seq<Source>)
    requires |srcs| == |srcs'| && forall i :: 0 <= i < |srcs| ==> srcs[i].h == srcs'[i].h
    ensures Handled(srcs) == Handled(srcs')
  {
    if srcs != [] { HandledSame(srcs[1..], srcs'[1..]); }
  }

  lemma LaunchKeeps(c: Config, s: State)
    requires MainLaunches(s.main.pc) && Births(s)
    ensures var t := ApplyMainLaunch(c, s);
            && t.srcs == s.srcs && t.presses == s.presses && t.ep.n == s.ep.n && t.db == s.db && t.bars.go == s.bars.go
            && (t.ep.pc == s.ep.pc || (s.ep.pc.EUnborn? && EpBoots(t.ep.pc) && (c.Doorbell() ==> t.ep.pc.EDbReset?)))
            && forall i: nat :: !Cleared(t.main, i)
  {
    match s.main.pc {
      case MCreateEp => case MArriveStart => case MWaitStart => case MAlloc =>
    }
  }

  lemma SetupKeeps(s: State)
    requires s.main.i < |s.srcs| && MainSetsUp(s.main.pc)
    ensures var t := ApplyMainSetup(s);
            && t.ep == s.ep && t.db == s.db && t.presses == s.presses && t.now == s.now
            && |t.srcs| == |s.srcs| && (forall j :: 0 <= j < |s.srcs| ==> t.srcs[j].h == s.srcs[j].h)
            && (Gone(t) ==> Gone(s) || (s.main.pc.MArriveGo? && t.srcs == s.srcs))
  {
    match s.main.pc {
      case MInit => case MCreate => case MPrepare => case MArriveGo =>
    }
  }

  lemma SetupUntouched(s: State, j: nat)
    requires s.main.i < |s.srcs| && MainSetsUp(s.main.pc) && !s.main.pc.MArriveGo?
    requires j < |s.srcs| && Untouched(s.main, j, s.srcs[j])
    ensures var t := ApplyMainSetup(s); |t.srcs| == |s.srcs| && Untouched(t.main, j, t.srcs[j])
  {
    match s.main.pc {
      case MInit => case MCreate => case MPrepare =>
    }
  }

  /** At the go barrier every source's books are open and empty, unless an event has been handled. */
  lemma FreshBooks(s: State)
    requires !Gone(s) && s.main.pc.MArriveGo? && Unhandled(s) && s.ep.n.events == 0
    requires forall i :: 0 <= i < |s.srcs| ==> !s.srcs[i].pc.SActivate?
    ensures Booked(s)
  {
    forall j | 0 <= j < |s.srcs| ensures Entered(s.srcs[j], s.now) {
      assert Untouched(s.main, j, s.srcs[j]);
    }
  }

  lemma MainKeepsBooks(c: Config, s: State)
    requires s.main.i < |s.srcs| && !MainLaunches(s.main.pc) && !MainSetsUp(s.main.pc)
    ensures var t := ApplyMain(c, s); HandsOff(s, t) && t.presses == s.presses && t.now == s.now && t.ep.n == s.ep.n
  {
    MainHandsOff(c, s);
    if MainRuns(s.main.pc) {
      match s.main.pc {
        case MWaitGo => case MRun => case MStopEp => case MKillEp => case MArriveFinish =>
      }
    } else if MainStops(s.main.pc) {
      match s.main.pc {
        case MWaitFinish => case MStop => case MKill => case MArriveEnd =>
      }
    }
  }

  lemma MainTallied(c: Config, s: State)
    requires s.main.i < |s.srcs| && Births(s) && Tallied(s)
    ensures Tallied(ApplyMain(c, s))
  {
    var t := ApplyMain(c, s);
    if MainLaunches(s.main.pc) {
      LaunchKeeps(c, s);
    } else {
      if MainSetsUp(s.main.pc) { SetupKeeps(s); } else { MainKeepsBooks(c, s); }
      HandledSame(s.srcs, t.srcs);
    }
  }

  lemma MainPressed(c: Config, s: State)
    requires c.Doorbell() && s.main.i < |s.srcs| && Births(s) && Pressed(s)
    ensures Pressed(ApplyMain(c, s))
  {
    if MainLaunches(s.main.pc) { LaunchKeeps(c, s); }
    else if MainSetsUp(s.main.pc) { SetupKeeps(s); }
    else { MainKeepsBooks(c, s); }
  }

  /** After the go barrier main leaves the books alone; opening it, main finds them empty. */
  lemma MainBooked(c: Config, s: State)
    requires Phased(c, s) && MainEnabled(c, s) && (Gone(s) ==> Booked(s))
    requires !Gone(s) && s.main.pc.MArriveGo? ==> Unhandled(s) && s.ep.n.events == 0
    ensures Gone(ApplyMain(c, s)) ==> Booked(ApplyMain(c, s))
  {
    var t := ApplyMain(c, s);
    GoFacts(c, s);
    if MainLaunches(s.main.pc) {
      LaunchKeeps(c, s);
    } else if MainSetsUp(s.main.pc) {
      SetupKeeps(s);
      if Gone(t) { FreshBooks(s); }
    } else {
      MainKeepsBooks(c, s);
      forall j | 0 <= j < |t.srcs| && Gone(t) ensures Entered(t.srcs[j], t.now) {
        assert Entered(s.srcs[j], s.now);
      }
    }
  }

  lemma MainUnhandled(c: Config, s: State)
    requires Phased(c, s) && MainEnabled(c, s) && Unhandled(s)
    ensures Unhandled(ApplyMain(c, s))
  {
    var t := ApplyMain(c, s);
    GoFacts(c, s);
    if MainLaunches(s.main.pc) {
      LaunchKeeps(c, s);
    } else if MainSetsUp(s.main.pc) {
      SetupKeeps(s);
      if !Gone(t) && s.ep.n.events == 0 {
        forall j | 0 <= j < |t.srcs| ensures Untouched(t.main, j, t.srcs[j]) {
          SetupUntouched(s, j);
        }
      }
    } else {
      MainKeepsBooks(c, s);
    }
  }

  // ----- Every step, every run -----

  lemma OtherAct(c: Config, s: State, a: Act)
    requires Shaped(c, s) && Enabled(c, s, a) && !a.SrcStep? && !a.EpStep? && !a.MainStep?
    ensures var t := Apply(c, s, a);
            && t.srcs == s.srcs && t.db == s.db && t.ep.pc == s.ep.pc && t.ep.i == s.ep.i && t.ep.n == s.ep.n
            && t.presses == s.presses && t.now >= s.now && t.bars.go == s.bars.go && t.main == s.main
  {
  }

  /** The tallies and the calm before the first handled event are kept by every step of every build. */
  lemma StepTallied(c: Config, s: State, a: Act)
    requires Phased(c, s) && Enabled(c, s, a) && Tallied(s)
    ensures Tallied(Apply(c, s, a))
  {
    match a
    case SrcStep(i) => SrcTallied(c, s, i);
    case EpStep(lost) => EpTallied(c, s, lost);
    case MainStep => MainTallied(c, s);
    case _ => OtherAct(c, s, a);
  }

  lemma StepUnhandled(c: Config, s: State, a: Act)
    requires Phased(c, s) && Enabled(c, s, a) && Unhandled(s)
    ensures Unhandled(Apply(c, s, a))
  {
    match a
    case SrcStep(i) =>
      SrcIsMove(c, s, i);
      GoFacts(c, s);
      if !SrcLooping(s.srcs[i].pc) { GateOnlyMoves(c, s, i); }
    case EpStep(lost) => EpUnhandled(c, s, lost);
    case MainStep => MainUnhandled(c, s);
    case _ => OtherAct(c, s, a);
  }

  lemma {:induction false} RunTallied(c: Config, s: State, acts: seq<Act>, t: State)
    requires Phased(c, s) && Tallied(s) && Unhandled(s) && Run(c, s, acts, t)
    ensures Phased(c, t) && Tallied(t) && Unhandled(t)
    decreases |acts|
  {
    if acts != [] {
      StepPhased(c, s, acts[0]);
      StepTallied(c, s, acts[0]);
      StepUnhandled(c, s, acts[0]);
      RunTallied(c, Apply(c, s, acts[0]), acts[1..], t);
    }
  }

  lemma ReachableTallied(c: Config, s: State)
    requires c.Valid() && Reachable(c, s)
    ensures Phased(c, s) && Tallied(s) && Unhandled(s)
  {
    var s0, acts :| Init(c, s0) && Run(c, s0, acts, s);
    InitPhased(c, s0);
    HandledFresh(s0.srcs);
    RunTallied(c, s0, acts, s);
  }

  /** Open books are kept by every step of every build; they open when main opens the go barrier
      before any event is handled. */
  lemma StepBooked(c: Config, s: State, a: Act)
    requires Phased(c, s) && Enabled(c, s, a) && (Gone(s) ==> Booked(s))
    requires !Gone(s) && s.main.pc.MArriveGo? ==> Unhandled(s) && s.ep.n.events == 0
    ensures Gone(Apply(c, s, a)) ==> Booked(Apply(c, s, a))
  {
    var t := Apply(c, s, a);
    match a
    case SrcStep(i) =>
      SrcIsMove(c, s, i);
      if Gone(s) { if SrcLooping(s.srcs[i].pc) { LoopBooked(c, s, i); } else { GateBooked(c, s, i); } }
    case EpStep(lost) =>
      EpIsMove(c, s, lost);
      if Gone(s) { EpBooked(c, s, lost); }
    case MainStep => MainBooked(c, s);
    case _ =>
      OtherAct(c, s, a);
      forall j | 0 <= j < |t.srcs| && Gone(t) ensures Entered(t.srcs[j], t.now) {
        assert Entered(s.srcs[j], s.now);
      }
  }

  /** A doorbell build handles no event before the go barrier opens, so its books open empty. */
  predicate Accounted(c: Config, s: State) {
    Delivered(c, s) && Unhandled(s) && Pressed(s) && (!Gone(s) ==> s.ep.n.events == 0) && (Gone(s) ==> Booked(s))
  }

  /** Before the go barrier opens, no wake-up of a doorbell build finds the doorbell PRESSED. */
  lemma StepEarly(c: Config, s: State, a: Act)
    requires c.Doorbell() && Delivered(c, s) && Enabled(c, s, a) && (!Gone(s) ==> s.ep.n.events == 0)
    ensures !Gone(Apply(c, s, a)) ==> Apply(c, s, a).ep.n.events == 0
  {
    match a
    case SrcStep(i) => SrcIsMove(c, s, i); SrcSameEp(c, s, i);
    case EpStep(lost) => EpEarly(c, s, lost);
    case MainStep => MainEarly(c, s);
    case _ => OtherAct(c, s, a);
  }

  lemma SrcSameEp(c: Config, s: State, i: nat)
    requires SrcEnabled(c, s, i)
    ensures ApplySrc(c, s, i).ep == s.ep && (Gone(s) ==> Gone(ApplySrc(c, s, i)))
  {
    if SrcLooping(s.srcs[i].pc) { LoopKeeps(c, s, i); } else { GateOnlyMoves(c, s, i); }
  }

  lemma EpEarly(c: Config, s: State, lost: bool)
    requires c.Doorbell() && EpInBounds(s) && EpEnabled(s) && Still(s) && (!Gone(s) ==> s.ep.n.events == 0)
    ensures var t := ApplyEp(c, s, lost); !Gone(t) ==> t.ep.n.events == 0
  {
    EpIsMove(c, s, lost);
    if EpWaking(s.ep.pc) { WakingStays(c, s, lost); WakingTallies(c, s, lost); }
    else if Sweeping(s.ep.pc) { SweepKeeps(s); }
    else if EpBoots(s.ep.pc) { BootKeeps(c, s); }
    else { QuitKeeps(s); }
  }

  lemma MainEarly(c: Config, s: State)
    requires s.main.i < |s.srcs| && Births(s) && (!Gone(s) ==> s.ep.n.events == 0)
    ensures !Gone(ApplyMain(c, s)) ==> ApplyMain(c, s).ep.n.events == 0
  {
    if MainLaunches(s.main.pc) { LaunchKeeps(c, s); }
    else if MainSetsUp(s.main.pc) { SetupKeeps(s); SetupGone(s); }
    else { MainKeepsBooks(c, s); }
  }

  lemma SetupGone(s: State)
    requires s.main.i < |s.srcs| && MainSetsUp(s.main.pc)
    ensures Gone(s) ==> Gone(ApplyMainSetup(s))
  {
  }

  lemma StepPressed(c: Config, s: State, a: Act)
    requires c.Doorbell() && Phased(c, s) && Enabled(c, s, a) && Pressed(s)
    ensures Pressed(Apply(c, s, a))
  {
    match a
    case SrcStep(i) => SrcPressed(c, s, i);
    case EpStep(lost) => EpPressed(c, s, lost);
    case MainStep => MainPressed(c, s);
    case _ => OtherAct(c, s, a);
  }

  lemma StepAccounted(c: Config, s: State, a: Act)
    requires c.Doorbell() && Accounted(c, s) && Enabled(c, s, a)
    ensures Accounted(c, Apply(c, s, a))
  {
    StepDelivered(c, s, a);
    StepUnhandled(c, s, a);
    StepPressed(c, s, a);
    StepEarly(c, s, a);
    StepBooked(c, s, a);
  }

  lemma {:induction false} RunAccounted(c: Config, s: State, acts: seq<Act>, t: State)
    requires c.Doorbell() && Accounted(c, s) && Run(c, s, acts, t)
    ensures Accounted(c, t)
    decreases |acts|
  {
    if acts != [] {
      StepAccounted(c, s, acts[0]);
      RunAccounted(c, Apply(c, s, acts[0]), acts[1..], t);
    }
  }

  lemma ReachableAccounted(c: Config, s: State)
    requires c.Valid() && c.Doorbell() && Reachable(c, s)
    ensures Accounted(c, s)
  {
    var s0, acts :| Init(c, s0) && Run(c, s0, acts, s);
    InitDelivered(c, s0);
    RunAccounted(c, s0, acts, s);
  }

  // ----- Builds without a doorbell: the books need a start before the first handled event -----

  /** The EP had handled no event when main arrived at the go barrier on the way to `s`. */
  ghost predicate OpenedUnhandled(c: Config, s: State) {
    exists g, acts :: Reachable(c, g) && g.main.pc.MArriveGo? && g.ep.n.events == 0
                      && Run(c, g, acts, s) && acts != [] && acts[0] == MainStep
  }

  lemma {:induction false} RunBooked(c: Config, s: State, acts: seq<Act>, t: State)
    requires Phased(c, s) && Gone(s) && Booked(s) && Run(c, s, acts, t)
    ensures Phased(c, t) && Gone(t) && Booked(t)
    decreases |acts|
  {
    if acts != [] {
      StepPhased(c, s, acts[0]);
      StepBooked(c, s, acts[0]);
      StepGone(c, s, acts[0]);
      RunBooked(c, Apply(c, s, acts[0]), acts[1..], t);
    }
  }

  lemma StepGone(c: Config, s: State, a: Act)
    requires Phased(c, s) && Gone(s) && Enabled(c, s, a)
    ensures Gone(Apply(c, s, a))
  {
    GoFacts(c, s);
    match a
    case SrcStep(i) => SrcSameEp(c, s, i);
    case EpStep(lost) => EpIsMove(c, s, lost);
    case MainStep => MainKeepsBooks(c, s);
    case _ => OtherAct(c, s, a);
  }

  lemma OpensBooked(c: Config, g: State)
    requires Phased(c, g) && Unhandled(g) && g.main.pc.MArriveGo? && g.ep.n.events == 0
    ensures var t := Apply(c, g, MainStep); Phased(c, t) && Gone(t) && Booked(t)
  {
    GoFacts(c, g);
    StepBooked(c, g, MainStep);
    StepPhased(c, g, MainStep);
  }

  lemma OpenedBooked(c: Config, s: State)
    requires c.Valid() && OpenedUnhandled(c, s)
    ensures Phased(c, s) && Gone(s) && Booked(s)
  {
    var g, acts :| Reachable(c, g) && g.main.pc.MArriveGo? && g.ep.n.events == 0
                   && Run(c, g, acts, s) && acts != [] && acts[0] == MainStep;
    ReachableTallied(c, g);
    OpensBooked(c, g);
    RunBooked(c, Apply(c, g, MainStep), acts[1..], s);
  }

  /** The books are in order in every doorbell build, and in every build that handles
      its first event after main arrives at the go barrier. */
  lemma BooksInOrder(c: Config, s: State)
    requires c.Valid() && Reachable(c, s) && (c.Doorbell() || OpenedUnhandled(c, s))
    ensures Phased(c, s) && (Gone(s) ==> Booked(s)) && (Sweeping(s.ep.pc) ==> Gone(s))
  {
    if c.Doorbell() { ReachableAccounted(c, s); } else { OpenedBooked(c, s); }
  }

  // ----- That condition is exact at the barrier: a completed handling unbalances a source -----

  /** Each sample of a source has its own RESET store; before the go barrier opens no source has
      stored ACTIVE. */
  predicate Lagging(s: State) {
    && (forall i :: 0 <= i < |s.srcs| ==> Behind(s.srcs[i], s.ep.pc.EDiff? && s.ep.i == i))
    && (!Gone(s) ==> forall i :: 0 <= i < |s.srcs| ==> s.srcs[i].h.activations == 0)
  }

  predicate Behind(x: Source, pending: bool) {
    Weight(x) + Bit(pending) <= x.h.resets
  }

  lemma SrcLagging(c: Config, s: State, i: nat)
    requires Phased(c, s) && SrcEnabled(c, s, i) && Lagging(s)
    ensures Lagging(ApplySrc(c, s, i))
  {
    var t := ApplySrc(c, s, i);
    GoFacts(c, s);
    if SrcLooping(s.srcs[i].pc) { LoopKeeps(c, s, i); } else { GateOnlyMoves(c, s, i); }
    assert Behind(s.srcs[i], s.ep.pc.EDiff? && s.ep.i == i);
  }

  lemma TestLags(s: State)
    requires EpInBounds(s) && s.ep.pc.ETest?
    ensures !ApplyEpSweep(s).ep.pc.EDiff?
  {
  }

  lemma HandleLags(s: State)
    requires EpInBounds(s) && Handling(s.ep.pc) && Behind(s.srcs[s.ep.i], s.ep.pc.EDiff?)
    ensures var t := ApplyEpSweep(s);
            && |t.srcs| == |s.srcs| && Behind(t.srcs[s.ep.i], t.ep.pc.EDiff?) && (t.ep.pc.EDiff? ==> t.ep.i == s.ep.i)
            && t.srcs[s.ep.i].h.activations == s.srcs[s.ep.i].h.activations
  {
    if s.ep.pc.EDiff? { DiffWeighs(s); }
    else { HandleWeighs(s); }
    match s.ep.pc {
      case EWork => case EEndStamp => case EStore => case EDiff =>
    }
  }

  lemma SweepLagging(s: State)
    requires EpInBounds(s) && Sweeping(s.ep.pc) && Lagging(s)
    ensures Lagging(ApplyEpSweep(s))
  {
    var t := ApplyEpSweep(s);
    SweepKeeps(s);
    SweepStays(s);
    if s.ep.pc.ETest? {
      TestUnhandled(s);
      TestLags(s);
    } else {
      assert Behind(s.srcs[s.ep.i], s.ep.pc.EDiff? && s.ep.i == s.ep.i);
      HandleLags(s);
    }
    forall i | 0 <= i < |t.srcs| ensures Behind(t.srcs[i], t.ep.pc.EDiff? && t.ep.i == i) {
      assert Behind(s.srcs[i], s.ep.pc.EDiff? && s.ep.i == i);
    }
  }

  lemma EpLagging(c: Config, s: State, lost: bool)
    requires EpInBounds(s) && EpEnabled(s) && Lagging(s)
    ensures Lagging(ApplyEp(c, s, lost))
  {
    EpIsMove(c, s, lost);
    if EpWaking(s.ep.pc) { WakingStays(c, s, lost); WakingLeads(c, s, lost); }
    else if Sweeping(s.ep.pc) { SweepLagging(s); }
    else if EpBoots(s.ep.pc) { BootKeeps(c, s); }
    else { QuitKeeps(s); }
  }

  lemma MainLagging(c: Config, s: State)
    requires s.main.i < |s.srcs| && Births(s) && Lagging(s)
    ensures Lagging(ApplyMain(c, s))
  {
    var t := ApplyMain(c, s);
    if MainLaunches(s.main.pc) { LaunchKeeps(c, s); }
    else if MainSetsUp(s.main.pc) { SetupKeeps(s); SetupGone(s); }
    else { MainKeepsBooks(c, s); }
    forall i | 0 <= i < |t.srcs| ensures Behind(t.srcs[i], t.ep.pc.EDiff? && t.ep.i == i) {
      assert Behind(s.srcs[i], s.ep.pc.EDiff? && s.ep.i == i);
    }
  }

  lemma StepLagging(c: Config, s: State, a: Act)
    requires Phased(c, s) && Enabled(c, s, a) && Lagging(s)
    ensures Lagging(Apply(c, s, a))
  {
    match a
    case SrcStep(i) => SrcLagging(c, s, i);
    case EpStep(lost) => EpLagging(c, s, lost);
    case MainStep => MainLagging(c, s);
    case _ => OtherAct(c, s, a);
  }

  lemma {:induction false} RunLagging(c: Config, s: State, acts: seq<Act>, t: State)
    requires Phased(c, s) && Lagging(s) && Run(c, s, acts, t)
    ensures Lagging(t)
    decreases |acts|
  {
    if acts != [] {
      StepPhased(c, s, acts[0]);
      StepLagging(c, s, acts[0]);
      RunLagging(c, Apply(c, s, acts[0]), acts[1..], t);
    }
  }

  lemma {:induction false} HandledNone(srcs: seq<Source>)
    requires forall i :: 0 <= i < |srcs| ==> Weight(srcs[i]) == 0
    ensures Handled(srcs) == 0
  {
    if srcs != [] { HandledNone(srcs[1..]); }
  }

  predicate InBalance(s: State) {
    forall i :: 0 <= i < |s.srcs| ==> Balanced(s.srcs[i])
  }

  /** When main arrives at the go barrier and the EP is not handling an event, the stores of every
      source balance exactly if the EP has handled no event so far. */
  lemma {:induction false} BalanceExactly(c: Config, g: State)
    requires c.Valid() && Reachable(c, g) && g.main.pc.MArriveGo? && !Handling(g.ep.pc)
    ensures InBalance(g) <==> g.ep.n.events == 0
  {
    ReachableTallied(c, g);
    GoFacts(c, g);
    var s0, acts :| Init(c, s0) && Run(c, s0, acts, g);
    InitPhased(c, s0);
    RunLagging(c, s0, acts, g);
    if g.ep.n.events == 0 {
      forall i | 0 <= i < |g.srcs| ensures Balanced(g.srcs[i]) { assert Untouched(g.main, i, g.srcs[i]); }
    } else if InBalance(g) {
      forall i | 0 <= i < |g.srcs| ensures Weight(g.srcs[i]) == 0 {
        assert Behind(g.srcs[i], false) && Balanced(g.srcs[i]);
      }
      HandledNone(g.srcs);
    }
  }

  // ----- Main results -----

  /** Conservation of the EP's counters, in every reachable state of every build; in a doorbell
      build each sweep and the PRESSED doorbell also has its own press. */
  lemma Conservation(c: Config, s: State)
    requires c.Valid() && Reachable(c, s)
    ensures s.ep.n.wakeups == s.ep.n.spurious + s.ep.n.sweeps
    ensures s.ep.n.events == Handled(s.srcs) + Bit(Handling(s.ep.pc))
    ensures c.Doorbell() && BellReset(s.ep.pc) ==> s.ep.n.sweeps + Bit(s.db) <= s.presses
  {
    ReachableTallied(c, s);
    if c.Doorbell() { ReachableAccounted(c, s); }
  }

  /** Per source, RESET stores plus an ACTIVE word never exceed ACTIVE stores. */
  lemma {:induction false} StoresBalance(c: Config, s: State, i: nat)
    requires c.Valid() && Reachable(c, s) && (c.Doorbell() || OpenedUnhandled(c, s)) && Gone(s) && i < |s.srcs|
    ensures s.srcs[i].h.resets + Bit(s.srcs[i].active) <= s.srcs[i].h.activations
  {
    BooksInOrder(c, s);
    assert Entered(s.srcs[i], s.now);
  }

  /** From the go barrier on, and so when main prints the latency row of a source, the four
      accumulators are the length, sum, minimum and maximum of the samples accepted for it. */
  lemma LatencyStatistics(c: Config, s: State, i: nat)
    requires c.Valid() && Reachable(c, s) && (c.Doorbell() || OpenedUnhandled(c, s)) && Gone(s) && i < |s.srcs|
    ensures Samples(s.srcs[i].h.log) && Tracks(s.srcs[i].stats, s.srcs[i].h.log)
  {
    BooksInOrder(c, s);
    assert Entered(s.srcs[i], s.now);
  }

  /** So the row that main prints describes those samples, up to rounding. */
  lemma {:induction false} PrintedRow(c: Config, s: State, i: nat, r: Rounding)
    requires c.Valid() && Reachable(c, s) && (c.Doorbell() || OpenedUnhandled(c, s)) && s.main.pc.MLog?
    requires i < |s.srcs| && Sound(r) && s.srcs[i].h.log != [] && Sum(s.srcs[i].h.log) <= 0x20_0000_0000_0000
    ensures Describes(Report(s.srcs[i].stats, r), s.srcs[i].h.log, r)
  {
    ReachablePhased(c, s);
    GoFacts(c, s);
    LatencyStatistics(c, s, i);
    ReportIsConsistent(s.srcs[i].stats, s.srcs[i].h.log, r);
  }

  /** A sample is discarded exactly when the source has stamped again since the EP's end stamp,
      or the clock read the same twice; an accepted sample is the time between the stamps. */
  lemma DiscardedIffRestamped(c: Config, s: State)
    requires c.Valid() && Reachable(c, s) && (c.Doorbell() || OpenedUnhandled(c, s))
    requires s.ep.pc.EDiff? && s.now < TWO_63
    ensures s.ep.i < |s.srcs|
    ensures var x := s.srcs[s.ep.i];
            var ns := TsDiff(OfNanos(x.start), OfNanos(x.end));
            && (Accepted(ns) <==> !x.h.restamped && x.start != x.end)
            && (Accepted(ns) ==> ns == x.end - x.start)
  {
    BooksInOrder(c, s);
    var x := s.srcs[s.ep.i];
    TsDiffSigned(OfNanos(x.start), OfNanos(x.end));
  }
}
