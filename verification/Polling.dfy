// The builds without a doorbell: every wake-up sweeps, so the rank of the doorbell builds falls as
// long as the EP steps, and a polling EP always can.
module Polling {
  import opened Protocol
  import opened Phases
  import opened Delivery
  import opened Wakeup
  import opened Response
  import opened Shutdown

  // ----- Where the EP can be -----

  lemma EpCompiled(c: Config, s: State, lost: bool)
    requires EpInBounds(s) && EpEnabled(s) && Compiled(c, s.ep.pc)
    ensures Compiled(c, ApplyEp(c, s, lost).ep.pc)
  {
    if EpWaking(s.ep.pc) { WakingCompiled(c, s, lost); }
    else if Sweeping(s.ep.pc) { SweepNotIntoWfe(s); }
    else { OtherNotIntoWfe(c, s, lost); }
  }

  lemma MainCompiled(c: Config, s: State)
    requires s.main.i < |s.srcs| && Compiled(c, s.ep.pc)
    ensures Compiled(c, ApplyMain(c, s).ep.pc)
  {
  }

  lemma StepCompiled(c: Config, s: State, a: Act)
    requires Phased(c, s) && Enabled(c, s, a) && Compiled(c, s.ep.pc)
    ensures Compiled(c, Apply(c, s, a).ep.pc)
  {
    match a
    case SrcStep(i) => assert Apply(c, s, a).ep == s.ep;
    case EpStep(lost) => EpCompiled(c, s, lost);
    case MainStep => MainCompiled(c, s);
    case _ => assert Apply(c, s, a).ep.pc == s.ep.pc;
  }

  lemma {:induction false} RunCompiled(c: Config, s: State, acts: seq<Act>, t: State)
    requires Phased(c, s) && Compiled(c, s.ep.pc) && Run(c, s, acts, t)
    ensures Phased(c, t) && Compiled(c, t.ep.pc)
    decreases |acts|
  {
    if acts != [] {
      StepPhased(c, s, acts[0]);
      StepCompiled(c, s, acts[0]);
      RunCompiled(c, Apply(c, s, acts[0]), acts[1..], t);
    }
  }

  lemma ReachableCompiled(c: Config, s: State)
    requires c.Valid() && Reachable(c, s)
    ensures Phased(c, s) && Compiled(c, s.ep.pc)
  {
    var s0, acts :| Init(c, s0) && Run(c, s0, acts, s);
    InitPhased(c, s0);
    RunCompiled(c, s0, acts, s);
  }

  /** Once the go barrier is open, only WFE can block an EP in its loop. */
  lemma OnlyWfeBlocks(c: Config, s: State)
    requires Phased(c, s) && Gone(s)
    ensures EpEnabled(s) || EpLeft(s.ep.pc) || s.ep.pc.EWfe?
  {
    GoFacts(c, s);
    assert EpTickets(s.bars, EpLeg(s.ep.pc)) && MainTickets(s.bars, MainLeg(s.main.pc));
    if s.ep.pc.EWait? {
      assert s.bars.started == {TMain, TEp};
    }
  }

  // ----- An ACTIVE source stays ACTIVE until its RESET store -----

  predicate StaysActive(s: State, t: State, i: nat)
    requires i < |s.srcs|
  {
    && |t.srcs| == |s.srcs|
    && t.srcs[i].h.resets >= s.srcs[i].h.resets
    && (t.srcs[i].h.resets == s.srcs[i].h.resets && s.srcs[i].active ==> t.srcs[i].active)
    && (EpLeft(s.ep.pc) ==> EpLeft(t.ep.pc))
    && (Gone(s) ==> Gone(t))
  }

  lemma SrcStaysActive(c: Config, s: State, j: nat, i: nat)
    requires SrcEnabled(c, s, j) && i < |s.srcs|
    ensures var t := ApplySrc(c, s, j); StaysActive(s, t, i) && t.ep == s.ep
  {
    SrcIsMove(c, s, j);
    if !SrcLooping(s.srcs[j].pc) { GateOnlyMoves(c, s, j); }
  }

  lemma SweepStaysActive(s: State, i: nat)
    requires EpInBounds(s) && Sweeping(s.ep.pc) && i < |s.srcs|
    ensures var t := ApplyEpSweep(s);
            && |t.srcs| == |s.srcs| && t.srcs[i].h.resets >= s.srcs[i].h.resets
            && (t.srcs[i].h.resets == s.srcs[i].h.resets && s.srcs[i].active ==> t.srcs[i].active)
  {
    match s.ep.pc {
      case ETest => case EWork => case EEndStamp => case EStore => case EDiff =>
    }
  }

  lemma EpStaysActive(c: Config, s: State, lost: bool, i: nat)
    requires EpInBounds(s) && EpEnabled(s) && i < |s.srcs|
    ensures StaysActive(s, ApplyEp(c, s, lost), i)
  {
    EpIsMove(c, s, lost);
    if EpLeft(s.ep.pc) { EpStaysLeft(c, s, lost); }
    else if EpWaking(s.ep.pc) { WakingStays(c, s, lost); }
    else if Sweeping(s.ep.pc) { SweepStaysActive(s, i); }
  }

  lemma StepStaysActive(c: Config, s: State, a: Act, i: nat)
    requires Phased(c, s) && Gone(s) && Enabled(c, s, a) && i < |s.srcs|
    ensures StaysActive(s, Apply(c, s, a), i) && (!a.EpStep? ==> EpAside(s, Apply(c, s, a)))
  {
    GoFacts(c, s);
    match a
    case SrcStep(j) => SrcStaysActive(c, s, j, i);
    case EpStep(lost) => EpStaysActive(c, s, lost, i);
    case MainStep => MainKeepsWatch(c, s);
    case _ => assert Apply(c, s, a).srcs == s.srcs;
  }

  lemma {:induction false} RunStaysActive(c: Config, s: State, acts: seq<Act>, t: State, i: nat)
    requires Phased(c, s) && Gone(s) && Run(c, s, acts, t) && i < |s.srcs|
    ensures StaysActive(s, t, i)
    decreases |acts|
  {
    if acts != [] {
      StepStaysActive(c, s, acts[0], i);
      StepPhased(c, s, acts[0]);
      RunStaysActive(c, Apply(c, s, acts[0]), acts[1..], t, i);
    }
  }

  // ----- Bounded response -----

  lemma StepCloserPolling(c: Config, s: State, a: Act, i: nat)
    requires !c.Doorbell() && Phased(c, s) && Gone(s) && Enabled(c, s, a) && i < |s.srcs| && s.srcs[i].active
    ensures var t := Apply(c, s, a);
            Answered(s, t, i) || Closer(|s.srcs|, s, t, if a.EpStep? then 1 else 0, i)
  {
    if a.EpStep? {
      GoFacts(c, s);
      RankFalls(c, s, a.lost, i);
      EpStepBudget(c, s, a.lost, i);
    } else {
      StepStaysActive(c, s, a, i);
    }
  }

  lemma {:induction false} RunCloserPolling(c: Config, s: State, acts: seq<Act>, t: State, i: nat)
    requires !c.Doorbell() && Phased(c, s) && Gone(s) && Run(c, s, acts, t) && i < |s.srcs| && s.srcs[i].active
    ensures Answered(s, t, i) || Closer(|s.srcs|, s, t, EpSteps(acts), i)
    decreases |acts|
  {
    if acts != [] {
      var u := Apply(c, s, acts[0]);
      StepStaysActive(c, s, acts[0], i);
      StepPhased(c, s, acts[0]);
      RunStaysActive(c, u, acts[1..], t, i);
      StepCloserPolling(c, s, acts[0], i);
      if !Answered(s, u, i) {
        RunCloserPolling(c, u, acts[1..], t, i);
        CloserTrans(|s.srcs|, s, u, t, if acts[0].EpStep? then 1 else 0, EpSteps(acts[1..]), i);
      }
    }
  }

  /** Without a doorbell, from any state in which main has released the sources and source i is
      ACTIVE: until its RESET store at most one further sweep begins, 10 N + 6 steps of the EP
      bring the store unless the EP leaves its loop, and a polling EP is never blocked. */
  lemma {:induction false} PollingResponse(c: Config, s: State, acts: seq<Act>, t: State, i: nat)
    requires c.Valid() && !c.Doorbell() && Reachable(c, s) && Gone(s) && Run(c, s, acts, t)
    requires i < |s.srcs| && s.srcs[i].active
    ensures Answered(s, t, i) || t.ep.n.sweeps + Budget(t.ep, i) <= s.ep.n.sweeps + Budget(s.ep, i)
    ensures EpSteps(acts) >= 10 * c.sources + 6 ==> Answered(s, t, i) || EpLeft(t.ep.pc)
    ensures EpEnabled(t) || EpLeft(t.ep.pc) || (c.Wfe() && t.ep.pc.EWfe?)
  {
    ReachableCompiled(c, s);
    RunCompiled(c, s, acts, t);
    RunStaysActive(c, s, acts, t, i);
    RunCloserPolling(c, s, acts, t, i);
    OnlyWfeBlocks(c, t);
    RankBounds(c.sources, s.ep, i);
    RankBounds(c.sources, t.ep, i);
  }
}
