// Bounded response: after a completed notification the EP needs at most the rest of its sweep
// and one more sweep, and is never blocked on the way.
module Response {
  import opened Protocol
  import opened Phases
  import opened Delivery
  import opened Wakeup

  // ----- Rank: EP steps until the RESET store of source i -----

  /** Each source takes up to five steps of a sweep. */
  function SweepPosition(e: Ep): nat {
    5 * e.i + if e.pc.ETest? then 0 else if e.pc.EWork? then 1 else if e.pc.EEndStamp? then 2
              else if e.pc.EStore? then 3 else 4
  }

  /** Steps up to and including the next exchange. */
  function StepsToExchange(n: nat, e: Ep): int {
    if Sweeping(e.pc) then 5 * n + 7 - SweepPosition(e)
    else if e.pc.EWake? then 1 else if e.pc.ERearm? then 2 else if e.pc.EWokeStamp? then 3 else if e.pc.EWfe? then 4
    else if e.pc.EIdleStamp? then 5 else if e.pc.ELoopTest? then 6
    else if e.pc.EActiveStamp? then 7 else if e.pc.EWait? then 8 else 9
  }

  function Rank(n: nat, e: Ep, i: nat): int {
    if Covers(e, i) then 5 * i + 4 - SweepPosition(e) else StepsToExchange(n, e) + 5 * i + 4
  }

  lemma RankBounds(n: nat, e: Ep, i: nat)
    requires i < n && e.i <= n && (Handling(e.pc) ==> e.i < n)
    ensures 0 < Rank(n, e, i) <= 10 * n + 6
  {
  }

  // ----- The wake-up theorem -----

  /** An ACTIVE source whose last activation has completed its press and its SEV. */
  predicate Completed(x: Source) {
    x.active && !x.pc.SUnborn? && !x.pc.SPress? && !x.pc.SSev?
  }

  lemma CompletedIsNotified(c: Config, s: State, i: nat)
    requires Alerted(c, s) && i < |s.srcs| && Completed(s.srcs[i])
    ensures Gone(s) && s.srcs[i].h.notified
  {
    GoFacts(c, s);
    if Gone(s) {
      assert Answering(c, s.ep, s.event, s.db, i, s.srcs[i]);
    }
  }

  /** The EP is not blocked while a notified event waits, as long as it is in its loop. */
  lemma NotifiedRuns(c: Config, s: State, i: nat)
    requires Wakes(c) && Alerted(c, s) && i < |s.srcs| && s.srcs[i].h.notified && Gone(s)
    ensures (EpEnabled(s) || EpLeft(s.ep.pc)) && (Covers(s.ep, i) || (s.db && WillLook(c, s.ep, s.event)))
  {
    GoFacts(c, s);
    assert Answering(c, s.ep, s.event, s.db, i, s.srcs[i]);
    assert EpTickets(s.bars, EpLeg(s.ep.pc)) && MainTickets(s.bars, MainLeg(s.main.pc));
    if s.ep.pc.EWait? {
      assert s.bars.started == {TMain, TEp};
    }
  }

  /** No lost wake-up: once an ACTIVE source is past its press and its SEV, the EP is awake
      or will fall through WFE, and its next exchange or its current sweep reaches the source. */
  lemma NoLostWakeup(c: Config, s: State, i: nat)
    requires c.Valid() && Wakes(c) && Reachable(c, s) && i < |s.srcs| && Completed(s.srcs[i])
    ensures EpEnabled(s) || EpLeft(s.ep.pc)
    ensures Covers(s.ep, i) || (s.db && WillLook(c, s.ep, s.event))
  {
    ReachableAlerted(c, s);
    CompletedIsNotified(c, s, i);
    NotifiedRuns(c, s, i);
  }

  // ----- The rank falls -----

  lemma WakingRank(c: Config, s: State, lost: bool, i: nat)
    requires EpWaking(s.ep.pc) && (c.Doorbell() ==> s.db)
    ensures var t := ApplyEpWaking(c, s, lost); EpLeft(t.ep.pc) || Rank(|s.srcs|, t.ep, i) < Rank(|s.srcs|, s.ep, i)
  {
    match s.ep.pc {
      case ELoopTest => case EIdleStamp => case EWfe => case EWokeStamp => case ERearm => case EWake =>
    }
  }

  lemma TestRank(s: State, i: nat)
    requires EpInBounds(s) && s.ep.pc.ETest? && i < |s.srcs| && (s.ep.i == i ==> s.srcs[i].active)
    ensures Rank(|s.srcs|, ApplyEpSweep(s).ep, i) < Rank(|s.srcs|, s.ep, i)
  {
  }

  lemma HandleRank(s: State, i: nat)
    requires EpInBounds(s) && Handling(s.ep.pc) && i < |s.srcs|
    ensures var t := ApplyEpSweep(s);
            (s.ep.pc.EStore? && s.ep.i == i) || Rank(|s.srcs|, t.ep, i) < Rank(|s.srcs|, s.ep, i)
  {
    match s.ep.pc {
      case EWork => case EEndStamp => case EStore => case EDiff =>
    }
  }

  lemma StoreResets(s: State)
    requires EpInBounds(s) && s.ep.pc.EStore?
    ensures var t := ApplyEpSweep(s); |t.srcs| == |s.srcs| && t.srcs[s.ep.i].h.resets == s.srcs[s.ep.i].h.resets + 1
  {
  }

  lemma BootRank(c: Config, s: State, i: nat)
    requires EpBoots(s.ep.pc) && EpLeg(s.ep.pc) >= 1
    ensures Rank(|s.srcs|, ApplyEpBoot(c, s).ep, i) < Rank(|s.srcs|, s.ep, i)
  {
    match s.ep.pc {
      case EWait => case EActiveStamp => case _ =>
    }
  }

  /** Source i has been reset between s and t. */
  predicate Answered(s: State, t: State, i: nat) {
    i < |s.srcs| == |t.srcs| && t.srcs[i].h.resets > s.srcs[i].h.resets
  }

  /** One EP step brings the RESET store of an ACTIVE source strictly closer, or is it, or finds
      end_flag raised at the loop test, as long as the next exchange starts a sweep. */
  lemma RankFalls(c: Config, s: State, lost: bool, i: nat)
    requires EpInBounds(s) && EpEnabled(s) && EpLeg(s.ep.pc) >= 1 && i < |s.srcs| && s.srcs[i].active
    requires EpWaking(s.ep.pc) && c.Doorbell() ==> s.db
    ensures var t := ApplyEp(c, s, lost);
            Answered(s, t, i) || EpLeft(t.ep.pc) || Rank(|s.srcs|, t.ep, i) < Rank(|s.srcs|, s.ep, i)
  {
    EpIsMove(c, s, lost);
    if EpLeft(s.ep.pc) { EpStaysLeft(c, s, lost); }
    else if EpWaking(s.ep.pc) { WakingRank(c, s, lost, i); }
    else if s.ep.pc.ETest? { TestRank(s, i); }
    else if s.ep.pc.EStore? && s.ep.i == i { StoreResets(s); }
    else if Handling(s.ep.pc) { HandleRank(s, i); }
    else { BootRank(c, s, i); }
  }

  /** So it does for a notified source. */
  lemma {:induction false} EpStepRank(c: Config, s: State, lost: bool, i: nat)
    requires Wakes(c) && Alerted(c, s) && i < |s.srcs| && s.srcs[i].h.notified && Gone(s) && EpEnabled(s)
    ensures var t := ApplyEp(c, s, lost);
            Answered(s, t, i) || EpLeft(t.ep.pc) || Rank(|s.srcs|, t.ep, i) < Rank(|s.srcs|, s.ep, i)
  {
    NotifiedRuns(c, s, i);
    GoFacts(c, s);
    assert OnItsWay(s.srcs[i], s.db, Covers(s.ep, i));
    RankFalls(c, s, lost, i);
  }

  // ----- The sweeps that may still begin before the RESET store -----

  /** One, unless the sweep under way covers the source. */
  function Budget(e: Ep, i: nat): nat {
    if Covers(e, i) then 0 else 1
  }

  lemma WakingBudget(c: Config, s: State, lost: bool, i: nat)
    requires EpWaking(s.ep.pc)
    ensures var t := ApplyEpWaking(c, s, lost); t.ep.n.sweeps + Budget(t.ep, i) <= s.ep.n.sweeps + Budget(s.ep, i)
  {
    match s.ep.pc {
      case ELoopTest => case EIdleStamp => case EWfe => case EWokeStamp => case ERearm => case EWake =>
    }
  }

  lemma SweepBudget(s: State, i: nat)
    requires EpInBounds(s) && Sweeping(s.ep.pc) && i < |s.srcs| && s.srcs[i].active
    ensures var t := ApplyEpSweep(s);
            && t.ep.n.sweeps == s.ep.n.sweeps
            && ((s.ep.pc.EStore? && s.ep.i == i) || Budget(t.ep, i) <= Budget(s.ep, i))
  {
    match s.ep.pc {
      case ETest => case EWork => case EEndStamp => case EStore => case EDiff =>
    }
  }

  lemma BootBudget(c: Config, s: State, i: nat)
    requires EpBoots(s.ep.pc)
    ensures var t := ApplyEpBoot(c, s); t.ep.n == s.ep.n && Budget(t.ep, i) <= Budget(s.ep, i)
  {
    match s.ep.pc {
      case EDbReset => case EArm => case EArrive => case EWait => case EActiveStamp =>
    }
  }

  lemma EpStepBudget(c: Config, s: State, lost: bool, i: nat)
    requires EpInBounds(s) && EpEnabled(s) && i < |s.srcs| && s.srcs[i].active
    ensures var t := ApplyEp(c, s, lost);
            Answered(s, t, i) || t.ep.n.sweeps + Budget(t.ep, i) <= s.ep.n.sweeps + Budget(s.ep, i)
  {
    EpIsMove(c, s, lost);
    if EpLeft(s.ep.pc) { EpStaysLeft(c, s, lost); }
    else if EpWaking(s.ep.pc) { WakingBudget(c, s, lost, i); }
    else if s.ep.pc.EStore? && s.ep.i == i { StoreResets(s); }
    else if Sweeping(s.ep.pc) { SweepBudget(s, i); }
    else { BootBudget(c, s, i); }
  }

  // ----- Steps and runs -----

  /** History never goes back, the EP does not return to its loop, and only a RESET store of the
      EP ends a notification. */
  predicate Onward(s: State, t: State, i: nat)
    requires i < |s.srcs|
  {
    && |t.srcs| == |s.srcs|
    && t.srcs[i].h.resets >= s.srcs[i].h.resets
    && (t.srcs[i].h.resets == s.srcs[i].h.resets && s.srcs[i].h.notified ==> t.srcs[i].h.notified)
    && (EpLeft(s.ep.pc) ==> EpLeft(t.ep.pc))
    && (Gone(s) ==> Gone(t))
  }

  lemma SrcOnward(c: Config, s: State, j: nat, i: nat)
    requires SrcEnabled(c, s, j) && i < |s.srcs| && (s.srcs[i].h.notified ==> s.srcs[i].active)
    ensures var t := ApplySrc(c, s, j); Onward(s, t, i) && t.ep == s.ep
  {
    SrcIsMove(c, s, j);
    if !SrcLooping(s.srcs[j].pc) {
      GateOnlyMoves(c, s, j);
    } else if j == i {
      LoopOnward(c, s, i);
    }
  }

  lemma LoopOnward(c: Config, s: State, i: nat)
    requires i < |s.srcs| && SrcLooping(s.srcs[i].pc) && (s.srcs[i].h.notified ==> s.srcs[i].active)
    ensures var t := ApplySrcLoop(c, s, i);
            && |t.srcs| == |s.srcs| && t.srcs[i].h.resets == s.srcs[i].h.resets
            && (s.srcs[i].h.notified ==> t.srcs[i].h.notified)
  {
    match s.srcs[i].pc {
      case SLoopTest => case SSleep => case SStamp => case SActivate => case SPress => case SSev =>
    }
  }

  lemma EpOnward(c: Config, s: State, lost: bool, i: nat)
    requires EpInBounds(s) && EpEnabled(s) && i < |s.srcs|
    ensures Onward(s, ApplyEp(c, s, lost), i)
  {
    EpIsMove(c, s, lost);
    if EpLeft(s.ep.pc) { EpStaysLeft(c, s, lost); }
    else if EpWaking(s.ep.pc) { WakingStays(c, s, lost); }
    else if Sweeping(s.ep.pc) { SweepOnward(s, i); }
  }

  lemma SweepOnward(s: State, i: nat)
    requires EpInBounds(s) && Sweeping(s.ep.pc) && i < |s.srcs|
    ensures var t := ApplyEpSweep(s);
            && |t.srcs| == |s.srcs| && t.srcs[i].h.resets >= s.srcs[i].h.resets
            && (t.srcs[i].h.resets == s.srcs[i].h.resets && s.srcs[i].h.notified ==> t.srcs[i].h.notified)
  {
    match s.ep.pc {
      case ETest => case EWork => case EEndStamp => case EStore => case EDiff =>
    }
  }

  /** Other threads leave the EP where it is. */
  predicate EpAside(s: State, t: State) {
    t.ep.pc == s.ep.pc && t.ep.i == s.ep.i && t.ep.n == s.ep.n
  }

  lemma StepOnward(c: Config, s: State, a: Act, i: nat)
    requires Wakes(c) && Alerted(c, s) && Gone(s) && Enabled(c, s, a) && i < |s.srcs|
    ensures Onward(s, Apply(c, s, a), i) && (!a.EpStep? ==> EpAside(s, Apply(c, s, a)))
  {
    GoFacts(c, s);
    assert OnItsWay(s.srcs[i], s.db, Covers(s.ep, i));
    match a
    case SrcStep(j) => SrcOnward(c, s, j, i);
    case EpStep(lost) => EpOnward(c, s, lost, i);
    case MainStep => MainKeepsWatch(c, s);
    case _ => assert Apply(c, s, a).srcs == s.srcs;
  }

  lemma {:induction false} RunOnward(c: Config, s: State, acts: seq<Act>, t: State, i: nat)
    requires Wakes(c) && Alerted(c, s) && Gone(s) && Run(c, s, acts, t) && i < |s.srcs|
    ensures Onward(s, t, i)
    decreases |acts|
  {
    if acts != [] {
      StepOnward(c, s, acts[0], i);
      StepAlerted(c, s, acts[0]);
      RunOnward(c, Apply(c, s, acts[0]), acts[1..], t, i);
    }
  }

  /** What is left to do for source i does not grow, and each EP step does some of it. */
  predicate Closer(n: nat, s: State, t: State, steps: nat, i: nat) {
    && (EpLeft(t.ep.pc) || steps + Rank(n, t.ep, i) <= Rank(n, s.ep, i))
    && t.ep.n.sweeps + Budget(t.ep, i) <= s.ep.n.sweeps + Budget(s.ep, i)
  }

  lemma StepCloser(c: Config, s: State, a: Act, i: nat)
    requires Wakes(c) && Alerted(c, s) && Gone(s) && Enabled(c, s, a) && i < |s.srcs| && s.srcs[i].h.notified
    ensures var t := Apply(c, s, a);
            Answered(s, t, i) || Closer(|s.srcs|, s, t, if a.EpStep? then 1 else 0, i)
  {
    assert OnItsWay(s.srcs[i], s.db, Covers(s.ep, i));
    if a.EpStep? {
      EpStepRank(c, s, a.lost, i);
      EpStepBudget(c, s, a.lost, i);
    } else {
      StepOnward(c, s, a, i);
    }
  }

  /** Along every run in which source i is not yet reset and the EP has not left its loop, each
      EP step lowers the rank, no other step raises it, and at most one more sweep begins. */
  lemma {:induction false} RunCloser(c: Config, s: State, acts: seq<Act>, t: State, i: nat)
    requires Wakes(c) && Alerted(c, s) && Gone(s) && Run(c, s, acts, t)
    requires i < |s.srcs| && s.srcs[i].h.notified
    ensures Answered(s, t, i) || Closer(|s.srcs|, s, t, EpSteps(acts), i)
    decreases |acts|
  {
    if acts != [] {
      var u := Apply(c, s, acts[0]);
      StepOnward(c, s, acts[0], i);
      StepAlerted(c, s, acts[0]);
      RunOnward(c, u, acts[1..], t, i);
      StepCloser(c, s, acts[0], i);
      if !Answered(s, u, i) {
        RunCloser(c, u, acts[1..], t, i);
        CloserTrans(|s.srcs|, s, u, t, if acts[0].EpStep? then 1 else 0, EpSteps(acts[1..]), i);
      }
    }
  }

  lemma CloserTrans(n: nat, s: State, u: State, t: State, k: nat, m: nat, i: nat)
    requires Closer(n, s, u, k, i) && (EpLeft(u.ep.pc) ==> EpLeft(t.ep.pc))
    ensures Closer(n, u, t, m, i) ==> Closer(n, s, t, k + m, i)
  {
  }

  /** Bounded response. Consider any run after a source has completed activate, press and SEV.
      Until RESET is stored to the source, the EP is never blocked in its loop, and at most the
      sweep under way, or else one more, runs. After 10 N + 6 steps of the EP the store has
      happened, unless the EP has left its loop on end_flag. */
  lemma {:induction false} BoundedResponse(c: Config, s: State, acts: seq<Act>, t: State, i: nat)
    requires c.Valid() && Wakes(c) && Reachable(c, s) && i < |s.srcs| && Completed(s.srcs[i]) && Run(c, s, acts, t)
    ensures Answered(s, t, i) || EpEnabled(t) || EpLeft(t.ep.pc)
    ensures Answered(s, t, i) || t.ep.n.sweeps + Budget(t.ep, i) <= s.ep.n.sweeps + Budget(s.ep, i)
    ensures EpSteps(acts) >= 10 * c.sources + 6 ==> Answered(s, t, i) || EpLeft(t.ep.pc)
  {
    ReachableAlerted(c, s);
    CompletedIsNotified(c, s, i);
    RunCloser(c, s, acts, t, i);
    RunOnward(c, s, acts, t, i);
    RunAlerted(c, s, acts, t);
    if !Answered(s, t, i) { NotifiedRuns(c, t, i); }
    RankBounds(c.sources, s.ep, i);
    RankBounds(c.sources, t.ep, i);
  }
}
