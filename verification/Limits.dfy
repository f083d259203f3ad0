// Where the three central guarantees stop: exact conditions, with the runs that break them.
module Limits {
  import opened Latency
  import opened Protocol
  import opened Phases
  import opened Delivery
  import opened Wakeup
  import opened Response
  import opened Lifetime
  import opened Shutdown
  import opened Accounting
  import opened Clock

  // ----- Building runs step by step -----

  lemma {:induction false} RunSnoc(c: Config, s: State, acts: seq<Act>, t: State, a: Act)
    requires Run(c, s, acts, t) && Shaped(c, t) && Enabled(c, t, a)
    ensures Run(c, s, acts + [a], Apply(c, t, a))
    decreases |acts|
  {
    if acts == [] {
      assert ([] + [a])[1..] == [];
    } else {
      assert (acts + [a])[1..] == acts[1..] + [a];
      RunSnoc(c, Apply(c, s, acts[0]), acts[1..], t, a);
    }
  }

  lemma Onwards(c: Config, s: State, a: Act) returns (t: State)
    requires c.Valid() && Reachable(c, s) && Shaped(c, s) && Enabled(c, s, a)
    ensures t == Apply(c, s, a) && Reachable(c, t) && Phased(c, t)
  {
    var s0, acts :| Init(c, s0) && Run(c, s0, acts, s);
    t := Apply(c, s, a);
    RunSnoc(c, s0, acts, s, a);
    ReachablePhased(c, t);
  }

  /** A start in which the event register happens to be clear and malloc returns memory that reads
      as ACTIVE events. */
  lemma Begin(c: Config) returns (s: State)
    requires c.Valid()
    ensures Reachable(c, s) && Init(c, s) && !s.event && Phased(c, s) && Dirty(s)
  {
    var x := Source(SUnborn, false, true, 0, 0, FRESH, NO_HISTORY);
    s := State(seq(c.sources, i => x), Ep(EUnborn, 0, false, false, Counters(0, 0, 0, 0), Timing(0, 0, 0, 0)),
               Main(MCreateEp, 0), Barriers({}, {}, {}, {}), Heap(false, false), false, false, false, 1, 0);
    assert Run(c, s, [], s);
    ReachablePhased(c, s);
  }

  /** The first source looks as if it had stamped at 0 and not been reset; the clock reads 1. */
  predicate Dirty(s: State) {
    |s.srcs| > 0 && s.srcs[0].active && s.srcs[0].start == 0 && s.srcs[0].h == NO_HISTORY && s.now == 1
  }

  lemma WakingOnwards(c: Config, s: State) returns (t: State)
    requires c.Valid() && Reachable(c, s) && Phased(c, s) && EpWaking(s.ep.pc) && EpEnabled(s)
    ensures t == ApplyEpWaking(c, s, false) && Reachable(c, t) && Phased(c, t)
  {
    t := Onwards(c, s, EpStep(false));
  }

  lemma BootOnwards(c: Config, s: State) returns (t: State)
    requires c.Valid() && Reachable(c, s) && Phased(c, s) && EpBoots(s.ep.pc) && EpEnabled(s)
    ensures t == ApplyEpBoot(c, s) && Reachable(c, t) && Phased(c, t)
  {
    t := Onwards(c, s, EpStep(false));
  }

  lemma LaunchOnwards(c: Config, s: State) returns (t: State)
    requires c.Valid() && Reachable(c, s) && Phased(c, s) && MainLaunches(s.main.pc) && MainEnabled(c, s)
    ensures t == ApplyMainLaunch(c, s) && Reachable(c, t) && Phased(c, t)
  {
    t := Onwards(c, s, MainStep);
  }

  /** main is waiting at the start barrier and the EP, ready there too, has its event register clear. */
  ghost predicate BothStarted(c: Config, s: State) {
    && Reachable(c, s) && Phased(c, s)
    && s.main.pc.MWaitStart? && s.ep.pc.EWait? && StartOpen(s)
    && !s.ep.endFlag && !s.event && (s.armed ==> c.armsDb) && (c.Doorbell() ==> !s.db) && Dirty(s)
  }

  lemma EpReady(c: Config, s: State) returns (t: State)
    requires c.Valid() && Reachable(c, s) && Phased(c, s) && s.main.pc.MArriveStart?
    requires !s.ep.endFlag && !s.event && !s.armed && Dirty(s) && s.ep.pc == if c.Doorbell() then EDbReset else EArrive
    ensures Reachable(c, t) && Phased(c, t) && t.main == s.main && t.ep.pc.EWait?
    ensures !t.ep.endFlag && !t.event && (t.armed ==> c.armsDb) && (c.Doorbell() ==> !t.db) && Dirty(t)
  {
    t := s;
    if c.Doorbell() { t := BootOnwards(c, t); }
    if c.Monitor() { t := BootOnwards(c, t); }
    t := BootOnwards(c, t);
  }

  lemma Starting(c: Config) returns (s: State)
    requires c.Valid()
    ensures BothStarted(c, s)
  {
    s := Begin(c);
    s := LaunchOnwards(c, s);
    s := EpReady(c, s);
    s := LaunchOnwards(c, s);
    assert MainTickets(s.bars, 1) && EpTickets(s.bars, 1);
    DuoOpens(s.bars.started);
  }

  // ----- Without a doorbell, the EP sweeps Sources before main has allocated it -----

  lemma IntoLoop(c: Config, s: State) returns (t: State)
    requires c.Valid() && Reachable(c, s) && Phased(c, s) && s.ep.pc.EWait? && StartOpen(s) && !s.ep.endFlag && !s.event
    ensures Reachable(c, t) && Phased(c, t)
    ensures t.main == s.main && t.srcs == s.srcs && t.bars == s.bars && t.heap == s.heap
    ensures t.ep.pc.ELoopTest? && !t.ep.endFlag && !t.event && t.db == s.db && t.armed == s.armed && t.now == s.now
  {
    t := BootOnwards(c, s);
    t := BootOnwards(c, t);
  }

  lemma FallThroughWfe(c: Config, s: State) returns (t: State)
    requires c.Valid() && !c.Monitor() && Reachable(c, s) && Phased(c, s) && s.ep.pc.EWfe?
    ensures Reachable(c, t) && Phased(c, t)
    ensures t.main == s.main && t.srcs == s.srcs && t.now == s.now && t.heap == s.heap && t.ep.pc.EWake?
  {
    t := Onwards(c, s, Stir(true));
    t := WakingOnwards(c, t);
    t := WakingOnwards(c, t);
  }

  lemma EarlySweep(c: Config) returns (s: State)
    requires c.Valid() && !c.Doorbell()
    ensures Reachable(c, s) && EpUsesSources(s) && !s.heap.sources
  {
    s := Starting(c);
    s := IntoSweep(c, s);
  }

  /** Without a doorbell, any wake-up begins a sweep. */
  lemma IntoSweep(c: Config, s: State) returns (t: State)
    requires c.Valid() && !c.Doorbell() && Reachable(c, s) && Phased(c, s)
    requires s.ep.pc.EWait? && StartOpen(s) && !s.ep.endFlag && !s.event
    ensures Reachable(c, t) && Phased(c, t)
    ensures t.main == s.main && t.srcs == s.srcs && t.now == s.now && t.heap == s.heap
    ensures t.ep.pc.ETest? && t.ep.i == 0
  {
    t := IntoLoop(c, s);
    t := WakingOnwards(c, t);
    if c.Wfe() {
      t := WakingOnwards(c, t);
      t := FallThroughWfe(c, t);
    }
    t := WakingOnwards(c, t);
  }

  /** The EP never dereferences an unpublished or freed table exactly in the doorbell builds. */
  lemma SafeExactlyWithDoorbell(c: Config)
    requires c.Valid()
    ensures (forall s :: Reachable(c, s) ==> MemorySafe(s)) <==> c.Doorbell()
  {
    if c.Doorbell() {
      forall s | Reachable(c, s) ensures MemorySafe(s) { DoorbellPublishes(c, s); }
    } else {
      var s := EarlySweep(c);
      assert Reachable(c, s) && !MemorySafe(s);
    }
  }

  // ----- A monitor armed elsewhere: a press leaves the EP asleep -----

  /** A calm benchmark: the EP is at WFE with nothing to wake it, and no event is pending. */
  ghost predicate Calm(c: Config, s: State) {
    && Reachable(c, s) && Phased(c, s)
    && s.ep.pc.EWfe? && !s.ep.endFlag && !s.event && !s.armed && !s.db
  }

  lemma FallAsleep(c: Config, s: State) returns (t: State)
    requires c.Valid() && c.Monitor() && !c.armsDb && Reachable(c, s) && Phased(c, s)
    requires s.ep.pc.EWait? && StartOpen(s) && !s.ep.endFlag && !s.event && !s.armed && !s.db
    ensures Calm(c, t) && t.main == s.main && t.srcs == s.srcs
  {
    t := IntoLoop(c, s);
    t := WakingOnwards(c, t);
    t := WakingOnwards(c, t);
  }

  /** The EP, its doorbell and its event register are as before. */
  predicate SameEp(s: State, t: State) {
    t.ep == s.ep && t.event == s.event && t.armed == s.armed && t.db == s.db && |t.srcs| == |s.srcs|
  }

  lemma SetupOnwards(c: Config, s: State) returns (t: State)
    requires c.Valid() && Reachable(c, s) && Phased(c, s) && MainSetsUp(s.main.pc)
    ensures t == ApplyMainSetup(s) && Reachable(c, t) && Phased(c, t) && SameEp(s, t)
  {
    t := Onwards(c, s, MainStep);
    SetupLeavesEp(s);
  }

  lemma SetupLeavesEp(s: State)
    requires s.main.i < |s.srcs| && MainSetsUp(s.main.pc)
    ensures SameEp(s, ApplyMainSetup(s))
  {
    match s.main.pc { case MInit => case MCreate => case MPrepare => case MArriveGo => }
  }

  /** main initialises the remaining sources ... */
  lemma {:induction false} InitAll(c: Config, s: State) returns (t: State)
    requires c.Valid() && Reachable(c, s) && Phased(c, s) && s.main.pc.MInit?
    ensures Reachable(c, t) && Phased(c, t) && SameEp(s, t) && t.main == Main(MCreate, 0)
    ensures forall j :: s.main.i <= j < |s.srcs| ==> t.srcs[j].stats == FRESH && t.srcs[j].h == s.srcs[j].h
    ensures forall j :: 0 <= j < s.main.i ==> t.srcs[j] == s.srcs[j]
    decreases c.sources - s.main.i
  {
    t := SetupOnwards(c, s);
    if t.main.pc.MInit? { t := InitAll(c, t); }
  }

  predicate Waiting(s: State, k: nat) {
    forall j :: 0 <= j < k && j < |s.srcs| ==> s.srcs[j].pc.SArrive? && !s.srcs[j].endFlag
  }

  predicate SameBooks(s: State, t: State) {
    && |t.srcs| == |s.srcs|
    && forall j :: 0 <= j < |s.srcs| ==> t.srcs[j].stats == s.srcs[j].stats && t.srcs[j].h == s.srcs[j].h
  }

  /** ... creates them ... */
  lemma {:induction false} CreateAll(c: Config, s: State) returns (t: State)
    requires c.Valid() && Reachable(c, s) && Phased(c, s) && s.main.pc.MCreate? && Waiting(s, s.main.i)
    ensures Reachable(c, t) && Phased(c, t) && SameEp(s, t) && SameBooks(s, t)
    ensures t.main.pc.MPrepare? && Waiting(t, c.sources)
    decreases c.sources - s.main.i
  {
    t := SetupOnwards(c, s);
    assert Waiting(t, s.main.i + 1);
    if t.main.pc.MCreate? { t := CreateAll(c, t); }
  }

  predicate ArrivedUpTo(s: State, k: nat) {
    forall j :: 0 <= j < |s.srcs| ==>
      !s.srcs[j].endFlag && (if j < k then s.srcs[j].pc.SWait? else s.srcs[j].pc.SArrive?)
  }

  lemma GateOnwards(c: Config, s: State, i: nat) returns (t: State)
    requires c.Valid() && Calm(c, s) && SrcEnabled(c, s, i) && !SrcLooping(s.srcs[i].pc)
    ensures t == ApplySrcGate(s, i) && Calm(c, t)
  {
    t := Onwards(c, s, SrcStep(i));
    GateOnlyMoves(c, s, i);
  }

  /** ... and all of them arrive at the go barrier. */
  lemma {:induction false} ArriveAll(c: Config, s: State, k: nat) returns (t: State)
    requires c.Valid() && Calm(c, s) && k <= c.sources && ArrivedUpTo(s, k)
    ensures Calm(c, t) && t.main == s.main && ArrivedUpTo(t, c.sources)
    decreases c.sources - k
  {
    t := s;
    if k < c.sources {
      t := GateOnwards(c, t, k);
      t := ArriveAll(c, t, k + 1);
    }
  }

  /** The sources exist and main is about to open the go barrier. */
  lemma Prepared(c: Config) returns (s: State)
    requires c.Valid() && c.Monitor() && !c.armsDb
    ensures Calm(c, s) && s.main.pc.MArriveGo? && Waiting(s, c.sources)
  {
    s := Starting(c);
    s := Allocate(c, s);
    s := FallAsleep(c, s);
    s := InitAll(c, s);
    s := CreateAll(c, s);
    s := SetupOnwards(c, s);
  }

  /** All sources wait at the open go barrier. */
  lemma Launched(c: Config) returns (s: State)
    requires c.Valid() && c.Monitor() && !c.armsDb
    ensures Calm(c, s) && Gone(s) && GoOpen(c, s) && ArrivedUpTo(s, c.sources)
  {
    s := Prepared(c);
    s := ArriveAll(c, s, 0);
    s := SetupOnwards(c, s);
    AllGone(c, s);
  }

  /** main passes the start barrier and allocates the sources. */
  lemma Allocate(c: Config, s: State) returns (t: State)
    requires c.Valid() && Reachable(c, s) && Phased(c, s) && s.main.pc.MWaitStart? && StartOpen(s)
    ensures Reachable(c, t) && Phased(c, t) && SameEp(s, t) && t.srcs == s.srcs && t.now == s.now && t.bars == s.bars
    ensures t.main == Main(MInit, 0)
  {
    t := LaunchOnwards(c, s);
    t := LaunchOnwards(c, t);
  }

  lemma AllGone(c: Config, s: State)
    requires Phased(c, s) && s.main.pc.MWaitGo? && ArrivedUpTo(s, c.sources)
    ensures Gone(s) && GoOpen(c, s)
  {
    assert MainTickets(s.bars, 3);
    forall i | 0 <= i < |s.srcs| ensures TSrc(i) in s.bars.go {
      assert SrcTickets(s.bars, i, SrcLeg(s.srcs[i].pc));
    }
    GoOpens(c, s);
  }

  lemma LoopOnwards(c: Config, s: State, i: nat) returns (t: State)
    requires c.Valid() && Reachable(c, s) && Phased(c, s) && i < |s.srcs| && SrcLooping(s.srcs[i].pc)
    ensures t == ApplySrcLoop(c, s, i) && Reachable(c, t) && Phased(c, t)
  {
    t := Onwards(c, s, SrcStep(i));
  }

  /** A notified event and a sleeping EP that only an unrelated event can wake. */
  predicate Stranded(c: Config, s: State, i: nat) {
    && i < |s.srcs| && Completed(s.srcs[i]) && s.db && !s.ep.endFlag
    && s.ep.pc.EWfe? && !s.event && !s.ep.signal && !EpEnabled(s)
  }

  lemma Raise(c: Config, s: State) returns (t: State)
    requires c.Valid() && c.Monitor() && Calm(c, s) && |s.srcs| > 0 && s.srcs[0].pc.SStamp?
    ensures Calm(c, t) && t.ep == s.ep && |t.srcs| > 0 && t.srcs[0].pc.SPress? && t.srcs[0].active
  {
    t := LoopOnwards(c, s, 0);
    t := LoopOnwards(c, t, 0);
  }

  lemma RaiseAndPress(c: Config, s: State) returns (t: State)
    requires c.Valid() && c.Monitor() && Calm(c, s) && |s.srcs| > 0 && s.srcs[0].pc.SStamp?
    ensures Reachable(c, t) && t.ep == s.ep && !t.event && t.db && |t.srcs| > 0 && Completed(t.srcs[0])
  {
    t := Raise(c, s);
    t := LoopOnwards(c, t, 0);
  }

  lemma ToStamp(c: Config, s: State) returns (t: State)
    requires c.Valid() && Calm(c, s) && |s.srcs| > 0 && s.srcs[0].pc.SWait? && GoOpen(c, s) && !s.srcs[0].endFlag
    ensures Calm(c, t) && t.ep == s.ep && |t.srcs| > 0 && t.srcs[0].pc.SStamp?
  {
    t := GateOnwards(c, s, 0);
    t := LoopOnwards(c, t, 0);
    t := LoopOnwards(c, t, 0);
  }

  /** The code as written: for every number of sources, the very first press can be lost. */
  lemma MonitorElsewhereStrands(c: Config) returns (s: State)
    requires c.Valid() && c.Monitor() && !c.armsDb
    ensures Reachable(c, s) && Stranded(c, s, 0)
  {
    s := Launched(c);
    assert !s.ep.signal;
    s := ToStamp(c, s);
    s := RaiseAndPress(c, s);
  }

  /** In this state no completed notification is stuck: the EP can step, or has left its loop. */
  predicate NobodyStuck(s: State) {
    forall i :: 0 <= i < |s.srcs| && Completed(s.srcs[i]) ==> EpEnabled(s) || EpLeft(s.ep.pc)
  }

  /** Among the doorbell builds, no completed notification ever finds the EP blocked in its loop,
      exactly if the monitor, where it is used, is armed on the doorbell. */
  lemma WakesExactly(c: Config)
    requires c.Valid() && c.Doorbell()
    ensures (forall s :: Reachable(c, s) ==> NobodyStuck(s)) <==> (c.Monitor() ==> c.armsDb)
  {
    if Wakes(c) {
      forall s | Reachable(c, s) ensures NobodyStuck(s) {
        forall i | 0 <= i < |s.srcs| && Completed(s.srcs[i]) ensures EpEnabled(s) || EpLeft(s.ep.pc) {
          NoLostWakeup(c, s, i);
        }
      }
    } else {
      var s := MonitorElsewhereStrands(c);
      assert Reachable(c, s) && Completed(s.srcs[0]) && !NobodyStuck(s);
    }
  }

  // ----- The latency books -----

  lemma SweepOnwards(c: Config, s: State) returns (t: State)
    requires c.Valid() && Reachable(c, s) && Phased(c, s) && Sweeping(s.ep.pc)
    ensures t == ApplyEpSweep(s) && Reachable(c, t) && Phased(c, t)
  {
    t := Onwards(c, s, EpStep(false));
  }

  /** Test, work and end stamp. */
  lemma TakeDirt(c: Config, s: State) returns (t: State)
    requires c.Valid() && Reachable(c, s) && Phased(c, s) && Dirty(s) && s.ep.pc.ETest? && s.ep.i == 0
    ensures Reachable(c, t) && Phased(c, t) && t.main == s.main && t.ep.pc.EStore? && t.ep.i == 0
    ensures |t.srcs| > 0 && t.srcs[0].start == 0 && t.srcs[0].end == 1 && t.srcs[0].h.log == []
  {
    t := SweepOnwards(c, s);
    t := SweepOnwards(c, t);
    t := SweepOnwards(c, t);
  }

  /** The EP takes a sample of what malloc returned, and main does not know. */
  lemma SampleDirt(c: Config, s: State) returns (t: State)
    requires c.Valid() && Reachable(c, s) && Phased(c, s) && Dirty(s) && s.ep.pc.ETest? && s.ep.i == 0
    ensures Reachable(c, t) && Phased(c, t) && t.main == s.main && |t.srcs| > 0 && t.srcs[0].h.log == [1]
  {
    t := TakeDirt(c, s);
    t := SweepOnwards(c, t);
    t := LogDirt(c, t);
  }

  lemma LogDirt(c: Config, s: State) returns (t: State)
    requires c.Valid() && Reachable(c, s) && Phased(c, s) && s.ep.pc.EDiff? && s.ep.i == 0
    requires |s.srcs| > 0 && s.srcs[0].start == 0 && s.srcs[0].end == 1 && s.srcs[0].h.log == []
    ensures Reachable(c, t) && Phased(c, t) && t.main == s.main && |t.srcs| > 0 && t.srcs[0].h.log == [1]
  {
    LoggedStamps([], OfNanos(0), OfNanos(1));
    t := SweepOnwards(c, s);
  }

  /** Without a doorbell, for every number of sources, a sample taken before main initialises the
      source is in the log but not in the statistics. */
  lemma EarlySweepSpoilsBooks(c: Config) returns (s: State)
    requires c.Valid() && !c.Doorbell()
    ensures Reachable(c, s) && Gone(s) && |s.srcs| > 0 && !Tracks(s.srcs[0].stats, s.srcs[0].h.log)
  {
    s := Starting(c);
    s := Allocate(c, s);
    s := IntoSweep(c, s);
    s := SampleDirt(c, s);
    s := InitAll(c, s);
    s := CreateAll(c, s);
    s := SetupOnwards(c, s);
    s := SetupOnwards(c, s);
  }

  predicate BooksTrack(s: State) {
    Gone(s) ==> forall i :: 0 <= i < |s.srcs| ==> Tracks(s.srcs[i].stats, s.srcs[i].h.log)
  }

  /** The statistics describe the accepted samples in every reachable state exactly in the
      doorbell builds. */
  lemma BooksExactlyWithDoorbell(c: Config)
    requires c.Valid()
    ensures (forall s :: Reachable(c, s) ==> BooksTrack(s)) <==> c.Doorbell()
  {
    if c.Doorbell() {
      forall s | Reachable(c, s) ensures BooksTrack(s) {
        forall i | 0 <= i < |s.srcs| && Gone(s) ensures Tracks(s.srcs[i].stats, s.srcs[i].h.log) {
          LatencyStatistics(c, s, i);
        }
      }
    } else {
      var s := EarlySweepSpoilsBooks(c);
      assert Reachable(c, s) && !BooksTrack(s);
    }
  }
}
