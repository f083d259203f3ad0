// The benchmark as a transition system: main, one event processor (EP), N source threads and
// the idle threads, interleaved at every access to a shared word, barrier or clock
// (wfey.c, include/wfey.h).
module Protocol {
  import opened Clock
  import opened Latency
  import opened Words

  /** The five build targets of the Makefile. */
  datatype Build = BusyPollNoDb | BusyPollDb | WfeNoDb | WfeDbNoMon | WfeDbMon

  /** `armsDb`: whether armMonitor arms the exclusive monitor on the doorbell word. The code
      hands ldaxr the address of its own parameter; the comment at the call means the doorbell. */
  datatype Config = Config(build: Build, sources: nat, idle: nat, armsDb: bool) {
    predicate Valid() {
      sources > 0 && idle > 0
    }
    predicate Doorbell() {
      build.BusyPollDb? || build.WfeDbNoMon? || build.WfeDbMon?
    }
    predicate Wfe() {
      build.WfeNoDb? || build.WfeDbNoMon? || build.WfeDbMon?
    }
    predicate Monitor() {
      build.WfeDbMon?
    }
    predicate Sev() {
      build.BusyPollDb? || build.WfeDbNoMon?
    }
  }

  /** What the targets define, each on its compile line. */
  datatype Macros = Macros(busyPoll: bool, useDoorbell: bool, useMonitor: bool)

  function Defines(b: Build): Macros {
    match b
    case BusyPollNoDb => Macros(true, false, false)
    case BusyPollDb => Macros(true, true, false)
    case WfeNoDb => Macros(false, false, false)
    case WfeDbNoMon => Macros(false, true, false)
    case WfeDbMon => Macros(false, true, true)
  }

  /** What the macros compile in: SEV exactly with a doorbell and without a monitor. */
  lemma {:induction false} CompiledIn(c: Config)
    ensures var m := Defines(c.build);
            && (c.Doorbell() <==> m.useDoorbell) && (c.Monitor() <==> m.useMonitor) && (c.Wfe() <==> !m.busyPoll)
            && (c.Sev() <==> m.useDoorbell && !m.useMonitor)
  {
  }

  datatype SrcPc =
    | SUnborn | SArrive | SWait
    | SLoopTest | SSleep | SStamp | SActivate | SPress | SSev
    | SArriveEnd | SWaitEnd | SExited

  datatype EpPc =
    | EUnborn | EDbReset | EArm | EArrive | EWait | EActiveStamp
    | ELoopTest | EIdleStamp | EWfe | EWokeStamp | ERearm | EWake
    | ETest | EWork | EEndStamp | EStore | EDiff
    | EFinalStamp | EArriveDone | EWaitDone | EExited

  datatype MainPc =
    | MCreateEp | MArriveStart | MWaitStart | MAlloc | MInit | MCreate | MPrepare | MArriveGo
    | MWaitGo | MRun | MStopEp | MKillEp | MArriveFinish
    | MWaitFinish | MStop | MKill | MArriveEnd
    | MWaitEnd | MLog | MFreeSources | MFreeProcessors | MExited

  datatype Tid = TMain | TEp | TSrc(i: nat) | TIdle(k: nat)

  /** History of one source. `announced`: its ACTIVE event has been pressed and not yet reset.
      `notified`: in addition its last wake-up action (SEV, or the press itself in a build
      without SEV) is done. `restamped`: start_ts was overwritten after the EP took end_ts. */
  datatype History = History(announced: bool, notified: bool, activations: nat, resets: nat,
                             log: seq<nat>, discarded: nat, restamped: bool)

  const NO_HISTORY := History(false, false, 0, 0, [], 0, false)

  datatype Source = Source(pc: SrcPc, endFlag: bool, active: bool, start: nat, end: nat, stats: Stats, h: History)

  /** The EP's counters; `sweeps` is history. */
  datatype Counters = Counters(wakeups: nat, spurious: nat, events: nat, sweeps: nat)

  datatype Timing = Timing(activeStart: nat, activeEnd: nat, idleStart: nat, inactive: nat)

  /** `i` is the sweep index. */
  datatype Ep = Ep(pc: EpPc, i: nat, endFlag: bool, signal: bool, n: Counters, t: Timing)

  datatype Main = Main(pc: MainPc, i: nat)

  /** Each barrier is the set of threads that have arrived at it. */
  datatype Barriers = Barriers(started: set<Tid>, go: set<Tid>, finished: set<Tid>, ended: set<Tid>)

  /** Which of the two allocated tables may be dereferenced. */
  datatype Heap = Heap(sources: bool, processors: bool)

  /** `event` is the WFE event register of the EP's core and `armed` its monitor on the doorbell. */
  datatype State = State(srcs: seq<Source>, ep: Ep, main: Main, bars: Barriers, heap: Heap,
                         db: bool, event: bool, armed: bool, now: nat, presses: nat)

  /** Who acts next. `Deliver` runs the SIGUSR1 handler on the EP's core, `Stir` is any other
      event there (an unrelated SEV, or an exception return, which also clears the monitor).
      `lost` says whether the EP's own exchange clears its monitor. */
  datatype Act =
    | SrcStep(i: nat) | EpStep(lost: bool) | MainStep | IdleStep(k: nat) | Deliver | Stir(clears: bool) | Tick(d: nat)

  // ----- Regions of the three programs -----

  predicate SrcLooping(pc: SrcPc) {
    pc.SLoopTest? || pc.SSleep? || pc.SStamp? || pc.SActivate? || pc.SPress? || pc.SSev?
  }

  predicate EpWaking(pc: EpPc) {
    pc.ELoopTest? || pc.EIdleStamp? || pc.EWfe? || pc.EWokeStamp? || pc.ERearm? || pc.EWake?
  }

  predicate Handling(pc: EpPc) {
    pc.EWork? || pc.EEndStamp? || pc.EStore? || pc.EDiff?
  }

  predicate Sweeping(pc: EpPc) {
    pc.ETest? || Handling(pc)
  }

  predicate EpBoots(pc: EpPc) {
    pc.EDbReset? || pc.EArm? || pc.EArrive? || pc.EWait? || pc.EActiveStamp?
  }

  predicate EpQuits(pc: EpPc) {
    pc.EFinalStamp? || pc.EArriveDone? || pc.EWaitDone?
  }

  predicate MainLaunches(pc: MainPc) {
    pc.MCreateEp? || pc.MArriveStart? || pc.MWaitStart? || pc.MAlloc?
  }

  predicate MainSetsUp(pc: MainPc) {
    pc.MInit? || pc.MCreate? || pc.MPrepare? || pc.MArriveGo?
  }

  predicate MainRuns(pc: MainPc) {
    pc.MWaitGo? || pc.MRun? || pc.MStopEp? || pc.MKillEp? || pc.MArriveFinish?
  }

  predicate MainStops(pc: MainPc) {
    pc.MWaitFinish? || pc.MStop? || pc.MKill? || pc.MArriveEnd?
  }

  predicate MainCleansUp(pc: MainPc) {
    pc.MWaitEnd? || pc.MLog? || pc.MFreeSources? || pc.MFreeProcessors?
  }

  // ----- Initial states: memory that malloc returns, and the event register, hold anything -----

  predicate Init(c: Config, s: State) {
    && |s.srcs| == c.sources
    && (forall i :: 0 <= i < |s.srcs| ==> s.srcs[i].pc == SUnborn && s.srcs[i].h == NO_HISTORY)
    && s.ep.pc == EUnborn && !s.ep.signal && s.ep.i == 0
    && s.ep.n == Counters(0, 0, 0, 0) && s.ep.t.inactive == 0
    && s.main == Main(MCreateEp, 0) && s.bars == Barriers({}, {}, {}, {}) && s.heap == Heap(false, false)
    && !s.armed && s.presses == 0
  }

  // ----- Enabledness: only barriers and WFE block -----

  predicate StartOpen(s: State) { |s.bars.started| == 2 }
  predicate GoOpen(c: Config, s: State) { |s.bars.go| == c.sources + 1 }
  predicate FinishOpen(s: State) { |s.bars.finished| == 2 }
  predicate EndOpen(c: Config, s: State) { |s.bars.ended| == c.idle + c.sources + 1 }

  predicate SrcEnabled(c: Config, s: State, i: nat) {
    && i < |s.srcs|
    && !s.srcs[i].pc.SUnborn? && !s.srcs[i].pc.SExited?
    && (s.srcs[i].pc.SWait? ==> GoOpen(c, s))
    && (s.srcs[i].pc.SWaitEnd? ==> EndOpen(c, s))
  }

  predicate EpEnabled(s: State) {
    && !s.ep.pc.EUnborn? && !s.ep.pc.EExited?
    && (s.ep.pc.EWait? ==> StartOpen(s))
    && (s.ep.pc.EWfe? ==> s.event)
    && (s.ep.pc.EWaitDone? ==> FinishOpen(s))
  }

  predicate MainEnabled(c: Config, s: State) {
    && !s.main.pc.MExited?
    && (s.main.pc.MWaitStart? ==> StartOpen(s))
    && (s.main.pc.MWaitGo? ==> GoOpen(c, s))
    && (s.main.pc.MWaitFinish? ==> FinishOpen(s))
    && (s.main.pc.MWaitEnd? ==> EndOpen(c, s))
  }

  predicate IdleEnabled(c: Config, s: State, k: nat) {
    && k < c.idle && TIdle(k) !in s.bars.ended
    && !MainLaunches(s.main.pc) && (MainSetsUp(s.main.pc) ==> s.main.pc.MArriveGo?)
  }

  // ----- Source threads -----

  function ApplySrc(c: Config, s: State, i: nat): State
    requires i < |s.srcs|
  {
    if SrcLooping(s.srcs[i].pc) then ApplySrcLoop(c, s, i) else ApplySrcGate(s, i)
  }

  function ApplySrcGate(s: State, i: nat): State
    requires i < |s.srcs|
  {
    var x := s.srcs[i];
    if x.pc.SArrive? then s.(srcs := s.srcs[i := x.(pc := SWait)], bars := s.bars.(go := s.bars.go + {TSrc(i)}))
    else if x.pc.SWait? then s.(srcs := s.srcs[i := x.(pc := SLoopTest)])
    else if x.pc.SArriveEnd? then
      s.(srcs := s.srcs[i := x.(pc := SWaitEnd)], bars := s.bars.(ended := s.bars.ended + {TSrc(i)}))
    else if x.pc.SWaitEnd? then s.(srcs := s.srcs[i := x.(pc := SExited)])
    else s
  }

  function ApplySrcLoop(c: Config, s: State, i: nat): State
    requires i < |s.srcs|
  {
    var x := s.srcs[i];
    if x.pc.SLoopTest? then s.(srcs := s.srcs[i := x.(pc := if x.endFlag then SArriveEnd else SSleep)])
    else if x.pc.SSleep? then s.(srcs := s.srcs[i := x.(pc := SStamp)])
    else if x.pc.SStamp? then s.(srcs := s.srcs[i := x.(pc := SActivate, start := s.now, h := x.h.(restamped := true))])
    else if x.pc.SActivate? then
      s.(srcs := s.srcs[i := x.(pc := if c.Doorbell() then SPress else SLoopTest, active := true,
                                h := x.h.(activations := x.h.activations + 1))])
    else if x.pc.SPress? then
      s.(srcs := s.srcs[i := x.(pc := if c.Sev() then SSev else SLoopTest,
                                h := x.h.(announced := x.active,
                                          notified := if c.Sev() then x.h.notified else x.active))],
         db := true, event := s.event || s.armed, armed := false, presses := s.presses + 1)
    else
      s.(srcs := s.srcs[i := x.(pc := SLoopTest, h := x.h.(notified := x.active))], event := true)
  }

  // ----- The event processor -----

  function ApplyEp(c: Config, s: State, lost: bool): State
    requires s.ep.i <= |s.srcs| && (Handling(s.ep.pc) ==> s.ep.i < |s.srcs|)
  {
    if EpWaking(s.ep.pc) then ApplyEpWaking(c, s, lost)
    else if Sweeping(s.ep.pc) then ApplyEpSweep(s)
    else if EpBoots(s.ep.pc) then ApplyEpBoot(c, s)
    else ApplyEpQuit(s)
  }

  function ApplyEpBoot(c: Config, s: State): State {
    var e := s.ep;
    if e.pc.EDbReset? then s.(db := false, ep := e.(pc := if c.Monitor() then EArm else EArrive))
    else if e.pc.EArm? then s.(armed := c.armsDb, ep := e.(pc := EArrive))
    else if e.pc.EArrive? then s.(bars := s.bars.(started := s.bars.started + {TEp}), ep := e.(pc := EWait))
    else if e.pc.EWait? then s.(ep := e.(pc := EActiveStamp))
    else if e.pc.EActiveStamp? then s.(ep := e.(pc := ELoopTest, t := e.t.(activeStart := s.now)))
    else s
  }

  function ApplyEpQuit(s: State): State {
    var e := s.ep;
    if e.pc.EFinalStamp? then s.(ep := e.(pc := EArriveDone, t := e.t.(activeEnd := s.now)))
    else if e.pc.EArriveDone? then s.(bars := s.bars.(finished := s.bars.finished + {TEp}), ep := e.(pc := EWaitDone))
    else if e.pc.EWaitDone? then s.(ep := e.(pc := EExited))
    else s
  }

  /** The head of the loop, up to the exchange of the doorbell. Without a doorbell every
      wake-up sweeps; with one, only a wake-up that finds it PRESSED. */
  function ApplyEpWaking(c: Config, s: State, lost: bool): State {
    var e := s.ep;
    if e.pc.ELoopTest? then s.(ep := e.(pc := if e.endFlag then EFinalStamp else if c.Wfe() then EIdleStamp else EWake))
    else if e.pc.EIdleStamp? then s.(ep := e.(pc := EWfe, t := e.t.(idleStart := s.now)))
    else if e.pc.EWfe? then s.(event := false, ep := e.(pc := EWokeStamp))
    else if e.pc.EWokeStamp? then
      s.(ep := e.(pc := if c.Monitor() then ERearm else EWake,
                  t := AddIdle(e.t, s.now)))
    else if e.pc.ERearm? then s.(armed := c.armsDb, ep := e.(pc := EWake))
    else if !c.Doorbell() then
      s.(ep := e.(pc := ETest, i := 0, n := e.n.(wakeups := e.n.wakeups + 1, sweeps := e.n.sweeps + 1)))
    else
      s.(db := false, event := s.event || (lost && s.armed), armed := s.armed && !lost,
         ep := if s.db then e.(pc := ETest, i := 0, n := e.n.(wakeups := e.n.wakeups + 1, sweeps := e.n.sweeps + 1))
               else e.(pc := ELoopTest, n := e.n.(wakeups := e.n.wakeups + 1, spurious := e.n.spurious + 1)))
  }

  /** inactive_time_total += ts_diff(inactive_time_start, inactive_time_end). */
  function AddIdle(t: Timing, now: nat): Timing {
    t.(inactive := Wrap64(t.inactive + TsDiff(OfNanos(t.idleStart), OfNanos(now))))
  }

  function ApplyEpSweep(s: State): State
    requires s.ep.i <= |s.srcs| && (Handling(s.ep.pc) ==> s.ep.i < |s.srcs|)
  {
    var e := s.ep;
    if e.pc.ETest? then
      if e.i == |s.srcs| then s.(ep := e.(pc := ELoopTest))
      else if s.srcs[e.i].active then s.(ep := e.(pc := EWork, n := e.n.(events := e.n.events + 1)))
      else s.(ep := e.(i := e.i + 1))
    else if e.pc.EWork? then s.(ep := e.(pc := EEndStamp))
    else if e.pc.EEndStamp? then
      var x := s.srcs[e.i];
      s.(srcs := s.srcs[e.i := x.(end := s.now, h := x.h.(restamped := false))], ep := e.(pc := EStore))
    else if e.pc.EStore? then
      var x := s.srcs[e.i];
      s.(srcs := s.srcs[e.i := x.(active := false,
                                  h := x.h.(announced := false, notified := false, resets := x.h.resets + 1))],
         ep := e.(pc := EDiff))
    else if e.pc.EDiff? then
      s.(srcs := s.srcs[e.i := AccountSource(s.srcs[e.i])], ep := e.(pc := ETest, i := e.i + 1))
    else s
  }

  /** The part of source_event_reset after its RESET store. */
  function AccountSource(x: Source): Source {
    var ns := TsDiff(OfNanos(x.start), OfNanos(x.end));
    x.(stats := Account(x.stats, ns),
       h := x.h.(log := Logged(x.h.log, ns), discarded := x.h.discarded + if Accepted(ns) then 0 else 1))
  }

  // ----- main -----

  function ApplyMain(c: Config, s: State): State
    requires s.main.i < |s.srcs|
  {
    if MainLaunches(s.main.pc) then ApplyMainLaunch(c, s)
    else if MainSetsUp(s.main.pc) then ApplyMainSetup(s)
    else if MainRuns(s.main.pc) then ApplyMainRun(s)
    else if MainStops(s.main.pc) then ApplyMainStop(s)
    else ApplyMainCleanUp(s)
  }

  function ApplyMainLaunch(c: Config, s: State): State {
    var m := s.main;
    if m.pc.MCreateEp? then
      s.(heap := s.heap.(processors := true), main := m.(pc := MArriveStart),
         ep := s.ep.(endFlag := false, pc := if c.Doorbell() then EDbReset else EArrive))
    else if m.pc.MArriveStart? then
      s.(bars := s.bars.(started := s.bars.started + {TMain}), main := m.(pc := MWaitStart))
    else if m.pc.MWaitStart? then s.(main := m.(pc := MAlloc))
    else s.(heap := s.heap.(sources := true), main := Main(MInit, 0))
  }

  function ApplyMainSetup(s: State): State
    requires s.main.i < |s.srcs|
  {
    var m := s.main;
    if m.pc.MInit? then
      s.(srcs := s.srcs[m.i := s.srcs[m.i].(active := false, end := s.now, stats := FRESH)],
         main := if m.i + 1 < |s.srcs| then Main(MInit, m.i + 1) else Main(MCreate, 0))
    else if m.pc.MCreate? then
      s.(srcs := s.srcs[m.i := s.srcs[m.i].(endFlag := false, pc := SArrive)],
         main := if m.i + 1 < |s.srcs| then Main(MCreate, m.i + 1) else Main(MPrepare, 0))
    else if m.pc.MPrepare? then s.(main := m.(pc := MArriveGo))
    else s.(bars := s.bars.(go := s.bars.go + {TMain}), main := m.(pc := MWaitGo))
  }

  function ApplyMainRun(s: State): State {
    var m := s.main;
    if m.pc.MWaitGo? then s.(main := m.(pc := MRun))
    else if m.pc.MRun? then s.(main := m.(pc := MStopEp))
    else if m.pc.MStopEp? then s.(ep := s.ep.(endFlag := true), main := m.(pc := MKillEp))
    else if m.pc.MKillEp? then s.(ep := s.ep.(signal := true), main := m.(pc := MArriveFinish))
    else s.(bars := s.bars.(finished := s.bars.finished + {TMain}), main := m.(pc := MWaitFinish))
  }

  function ApplyMainStop(s: State): State
    requires s.main.i < |s.srcs|
  {
    var m := s.main;
    if m.pc.MWaitFinish? then s.(main := Main(MStop, 0))
    else if m.pc.MStop? then s.(srcs := s.srcs[m.i := s.srcs[m.i].(endFlag := true)], main := m.(pc := MKill))
    else if m.pc.MKill? then s.(main := if m.i + 1 < |s.srcs| then Main(MStop, m.i + 1) else Main(MArriveEnd, 0))
    else s.(bars := s.bars.(ended := s.bars.ended + {TMain}), main := m.(pc := MWaitEnd))
  }

  function ApplyMainCleanUp(s: State): State {
    var m := s.main;
    if m.pc.MWaitEnd? then s.(main := m.(pc := MLog))
    else if m.pc.MLog? then s.(main := m.(pc := MFreeSources))
    else if m.pc.MFreeSources? then s.(heap := s.heap.(sources := false), main := m.(pc := MFreeProcessors))
    else if m.pc.MFreeProcessors? then s.(heap := s.heap.(processors := false), main := m.(pc := MExited))
    else s
  }

  // ----- Steps and runs -----

  /** Array indices are in bounds; every step keeps this. */
  predicate Shaped(c: Config, s: State) {
    && |s.srcs| == c.sources
    && s.main.i < c.sources
    && s.ep.i <= c.sources
    && (Handling(s.ep.pc) ==> s.ep.i < c.sources)
  }

  predicate Enabled(c: Config, s: State, a: Act) {
    match a
    case SrcStep(i) => SrcEnabled(c, s, i)
    case EpStep(_) => EpEnabled(s)
    case MainStep => MainEnabled(c, s)
    case IdleStep(k) => IdleEnabled(c, s, k)
    case Deliver => s.ep.signal
    case Stir(_) => true
    case Tick(_) => true
  }

  function Apply(c: Config, s: State, a: Act): State
    requires Shaped(c, s) && Enabled(c, s, a)
  {
    match a
    case SrcStep(i) => ApplySrc(c, s, i)
    case EpStep(lost) => ApplyEp(c, s, lost)
    case MainStep => ApplyMain(c, s)
    case IdleStep(k) => s.(bars := s.bars.(ended := s.bars.ended + {TIdle(k)}))
    case Deliver => s.(ep := s.ep.(signal := false), event := true, armed := false)
    case Stir(clears) => s.(event := true, armed := s.armed && !clears)
    case Tick(d) => s.(now := s.now + d)
  }

  /** `acts` leads from `s` to `t`. */
  predicate Run(c: Config, s: State, acts: seq<Act>, t: State)
    decreases |acts|
  {
    if acts == [] then s == t
    else Shaped(c, s) && Enabled(c, s, acts[0]) && Run(c, Apply(c, s, acts[0]), acts[1..], t)
  }

  ghost predicate Reachable(c: Config, s: State) {
    exists s0, acts :: Init(c, s0) && Run(c, s0, acts, s)
  }

  function EpSteps(acts: seq<Act>): nat {
    if acts == [] then 0 else (if acts[0].EpStep? then 1 else 0) + EpSteps(acts[1..])
  }
}
