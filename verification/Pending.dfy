// The doorbell protocol refines a machine that only knows which events are pending.
module Pending {
  import opened Protocol
  import opened Phases
  import opened Delivery

  // ----- The abstract machine -----

  /** Sources whose event word is ACTIVE, and those among them that have rung the doorbell. */
  datatype Events = Events(raised: set<nat>, announced: set<nat>)

  datatype Deed = Raise(i: nat) | Announce(i: nat) | Handle(i: nat) | Skip | Silent

  /** Handle needs a raised event; Skip, a wake-up without a sweep, needs that none is announced. */
  predicate Does(p: Events, d: Deed, q: Events) {
    match d
    case Raise(i) => q == p.(raised := p.raised + {i})
    case Announce(i) => q == p.(announced := p.announced + (p.raised * {i}))
    case Handle(i) => i in p.raised && q == Events(p.raised - {i}, p.announced - {i})
    case Skip => p.announced == {} && q == p
    case Silent => q == p
  }

  ghost predicate Performs(p: Events, deeds: seq<Deed>, q: Events)
    decreases |deeds|
  {
    if deeds == [] then p == q
    else exists m :: Does(p, deeds[0], m) && Performs(m, deeds[1..], q)
  }

  /** An announced event is handled before the next skipped sweep. */
  lemma {:induction false} HandledBeforeSkip(p: Events, deeds: seq<Deed>, q: Events, i: nat, k: nat)
    requires Performs(p, deeds, q) && i in p.announced
    requires k < |deeds| && deeds[k].Skip?
    ensures exists h :: 0 <= h < k && deeds[h] == Handle(i)
    decreases |deeds|
  {
    var m :| Does(p, deeds[0], m) && Performs(m, deeds[1..], q);
    if deeds[0] != Handle(i) {
      assert i in m.announced && k > 0;
      HandledBeforeSkip(m, deeds[1..], q, i, k - 1);
      var h :| 0 <= h < k - 1 && deeds[1..][h] == Handle(i);
      assert deeds[h + 1] == Handle(i);
    } else {
      assert k > 0;
    }
  }

  // ----- The abstraction -----

  function Abs(s: State): Events {
    if !Gone(s) then Events({}, {})
    else Events(set i | 0 <= i < |s.srcs| && s.srcs[i].active, set i | 0 <= i < |s.srcs| && s.srcs[i].h.announced)
  }

  function DeedOf(s: State, a: Act): Deed {
    match a
    case SrcStep(i) =>
      if i < |s.srcs| && s.srcs[i].pc.SActivate? then Raise(i)
      else if i < |s.srcs| && s.srcs[i].pc.SPress? then Announce(i)
      else Silent
    case EpStep(_) => if s.ep.pc.EStore? then Handle(s.ep.i) else if s.ep.pc.EWake? && !s.db then Skip else Silent
    case _ => Silent
  }

  function Deeds(c: Config, s: State, acts: seq<Act>): seq<Deed>
    decreases |acts|
  {
    if acts == [] || !Shaped(c, s) || !Enabled(c, s, acts[0]) then []
    else [DeedOf(s, acts[0])] + Deeds(c, Apply(c, s, acts[0]), acts[1..])
  }

  // ----- The simulation -----

  lemma SrcSimulates(c: Config, s: State, i: nat)
    requires c.Doorbell() && Delivered(c, s) && SrcEnabled(c, s, i)
    ensures Does(Abs(s), DeedOf(s, SrcStep(i)), Abs(ApplySrc(c, s, i)))
  {
    GoFacts(c, s);
    var t := ApplySrc(c, s, i);
    if SrcLooping(s.srcs[i].pc) {
      LoopSimulates(c, s, i);
    } else {
      GateOnlyMoves(c, s, i);
      assert Abs(t) == Abs(s);
    }
  }

  lemma LoopSimulates(c: Config, s: State, i: nat)
    requires c.Doorbell() && SrcEnabled(c, s, i) && SrcLooping(s.srcs[i].pc) && Gone(s) && Delivering(s)
    ensures Does(Abs(s), DeedOf(s, SrcStep(i)), Abs(ApplySrcLoop(c, s, i)))
  {
    var t := ApplySrcLoop(c, s, i);
    LoopEvents(c, s, i);
    assert OnItsWay(s.srcs[i], s.db, Covers(s.ep, i));
    if s.srcs[i].pc.SActivate? {
      assert Abs(t) == Abs(s).(raised := Abs(s).raised + {i});
    } else if s.srcs[i].pc.SPress? {
      assert Abs(t) == Abs(s).(announced := Abs(s).announced + (Abs(s).raised * {i}));
    } else {
      assert Abs(t) == Abs(s);
    }
  }

  /** What a step inside the source loop does to its event word and its announcement. */
  lemma LoopEvents(c: Config, s: State, i: nat)
    requires i < |s.srcs| && SrcLooping(s.srcs[i].pc)
    ensures var t := ApplySrcLoop(c, s, i);
            && t.bars == s.bars && |t.srcs| == |s.srcs| && t.srcs == s.srcs[i := t.srcs[i]]
            && t.srcs[i].active == (s.srcs[i].active || s.srcs[i].pc.SActivate?)
            && t.srcs[i].h.announced == if s.srcs[i].pc.SPress? then s.srcs[i].active else s.srcs[i].h.announced
  {
    match s.srcs[i].pc {
      case SLoopTest => case SSleep => case SStamp => case SActivate => case SPress => case SSev =>
    }
  }

  lemma StoreSimulates(s: State)
    requires EpInBounds(s) && s.ep.pc.EStore? && Gone(s) && Delivering(s)
    ensures Does(Abs(s), DeedOf(s, EpStep(false)), Abs(ApplyEpSweep(s)))
  {
    var t := ApplyEpSweep(s);
    assert Abs(t).raised == Abs(s).raised - {s.ep.i};
    assert Abs(t).announced == Abs(s).announced - {s.ep.i};
  }

  /** The other steps of a sweep change no event word and no announcement. */
  lemma SweepSameEvents(s: State)
    requires EpInBounds(s) && Sweeping(s.ep.pc) && !s.ep.pc.EStore?
    ensures Abs(ApplyEpSweep(s)) == Abs(s)
  {
    var t := ApplyEpSweep(s);
    SweepStays(s);
    match s.ep.pc {
      case ETest => assert Abs(t) == Abs(s);
      case EWork => assert Abs(t) == Abs(s);
      case EEndStamp => assert Abs(t) == Abs(s);
      case EDiff => assert Abs(t) == Abs(s);
    }
  }

  lemma SweepSimulates(s: State)
    requires EpInBounds(s) && Sweeping(s.ep.pc) && Gone(s) && Delivering(s)
    ensures Does(Abs(s), DeedOf(s, EpStep(false)), Abs(ApplyEpSweep(s)))
  {
    if s.ep.pc.EStore? { StoreSimulates(s); } else { SweepSameEvents(s); }
  }

  lemma EpSimulates(c: Config, s: State, lost: bool)
    requires c.Doorbell() && Delivered(c, s) && EpEnabled(s)
    ensures Does(Abs(s), DeedOf(s, EpStep(lost)), Abs(ApplyEp(c, s, lost)))
  {
    var t := ApplyEp(c, s, lost);
    if Sweeping(s.ep.pc) {
      SweepSimulates(s);
    } else if EpWaking(s.ep.pc) {
      WakingStays(c, s, lost);
      assert Abs(t) == Abs(s);
      if s.ep.pc.EWake? && !s.db && Gone(s) {
        assert forall i :: 0 <= i < |s.srcs| ==> OnItsWay(s.srcs[i], s.db, Covers(s.ep, i));
        assert Abs(s).announced == {};
      }
    } else {
      QuietEp(c, s, lost);
      assert Abs(t) == Abs(s);
    }
  }

  lemma QuietEp(c: Config, s: State, lost: bool)
    requires EpInBounds(s) && EpEnabled(s) && (EpBoots(s.ep.pc) || EpQuits(s.ep.pc))
    ensures var t := ApplyEp(c, s, lost); t.srcs == s.srcs && (Gone(t) <==> Gone(s))
  {
    match s.ep.pc {
      case EDbReset => case EArm => case EArrive => case EWait => case EActiveStamp =>
      case EFinalStamp => case EArriveDone => case EWaitDone =>
    }
  }

  lemma MainSimulates(c: Config, s: State)
    requires c.Doorbell() && Delivered(c, s) && MainEnabled(c, s)
    ensures Abs(ApplyMain(c, s)) == Abs(s)
  {
    GoFacts(c, s);
    var t := ApplyMain(c, s);
    MainDelivered(c, s);
    GoFacts(c, t);
    if Gone(s) {
      MainHandsOff(c, s);
    } else if Gone(t) {
      assert s.main.pc.MArriveGo? && t.srcs == s.srcs;
      assert forall j :: 0 <= j < |s.srcs| ==> Untouched(s.main, j, s.srcs[j]);
    }
  }

  lemma StepSimulates(c: Config, s: State, a: Act)
    requires c.Doorbell() && Delivered(c, s) && Enabled(c, s, a)
    ensures Does(Abs(s), DeedOf(s, a), Abs(Apply(c, s, a)))
  {
    match a
    case SrcStep(i) => SrcSimulates(c, s, i);
    case EpStep(lost) => EpSimulates(c, s, lost);
    case MainStep => MainSimulates(c, s);
    case IdleStep(_) => assert Abs(Apply(c, s, a)) == Abs(s);
    case Deliver => assert Abs(Apply(c, s, a)) == Abs(s);
    case Stir(_) => assert Abs(Apply(c, s, a)) == Abs(s);
    case Tick(_) => assert Abs(Apply(c, s, a)) == Abs(s);
  }

  /** Every run of a doorbell build is, deed by deed, a run of the pending-events machine. */
  lemma {:induction false} RunSimulates(c: Config, s: State, acts: seq<Act>, t: State)
    requires c.Doorbell() && Delivered(c, s) && Run(c, s, acts, t)
    ensures |Deeds(c, s, acts)| == |acts|
    ensures Performs(Abs(s), Deeds(c, s, acts), Abs(t))
    decreases |acts|
  {
    if acts != [] {
      var u := Apply(c, s, acts[0]);
      StepSimulates(c, s, acts[0]);
      StepDelivered(c, s, acts[0]);
      RunSimulates(c, u, acts[1..], t);
      var deeds := Deeds(c, s, acts);
      assert deeds[0] == DeedOf(s, acts[0]) && deeds[1..] == Deeds(c, u, acts[1..]);
      assert Does(Abs(s), deeds[0], Abs(u)) && Performs(Abs(u), deeds[1..], Abs(t));
    }
  }

  /** In every run from a reachable state with an announced event of source `i`: before the EP
      next skips a sweep, it stores RESET to source `i`. */
  lemma AnnouncedIsHandledBeforeSkip(c: Config, s: State, acts: seq<Act>, t: State, i: nat, k: nat)
    requires c.Valid() && c.Doorbell() && Reachable(c, s) && Run(c, s, acts, t)
    requires i < |s.srcs| && s.srcs[i].h.announced
    requires k < |Deeds(c, s, acts)| && Deeds(c, s, acts)[k] == Skip
    ensures exists h :: 0 <= h < k && Deeds(c, s, acts)[h] == Handle(i)
  {
    ReachableDelivered(c, s);
    RunSimulates(c, s, acts, t);
    NoLostEvent(c, s, i);
    assert i in Abs(s).announced;
    HandledBeforeSkip(Abs(s), Deeds(c, s, acts), Abs(t), i, k);
  }
}
