// Publication and lifetime of the two allocated tables, and of the threads main signals.
module Lifetime {
  import opened Protocol
  import opened Phases
  import opened Delivery

  /** The EP's next step dereferences Sources: the test of source i, or its handling. */
  predicate EpUsesSources(s: State) {
    (s.ep.pc.ETest? && s.ep.i < |s.srcs|) || Handling(s.ep.pc)
  }

  predicate EpUsesProcessors(pc: EpPc) {
    !pc.EUnborn? && !pc.EWaitDone? && !pc.EExited?
  }

  /** A source thread reads its struct Source, and through it the EP's doorbell. */
  predicate SrcUsesTables(pc: SrcPc) {
    pc.SArrive? || pc.SWait? || SrcLooping(pc)
  }

  predicate MainUsesSources(pc: MainPc) {
    pc.MInit? || pc.MCreate? || pc.MStop? || pc.MKill? || pc.MLog?
  }

  predicate MainUsesProcessors(pc: MainPc) {
    pc.MArriveStart? || pc.MCreate? || pc.MStopEp? || pc.MKillEp?
  }

  /** Every dereference finds its table allocated, and the EP finds every source initialised. */
  predicate MemorySafe(s: State) {
    && (EpUsesSources(s) ==> s.heap.sources && Gone(s))
    && (EpUsesProcessors(s.ep.pc) ==> s.heap.processors)
    && (forall i :: 0 <= i < |s.srcs| && SrcUsesTables(s.srcs[i].pc) ==> s.heap.sources && s.heap.processors)
    && (MainUsesSources(s.main.pc) ==> s.heap.sources)
    && (MainUsesProcessors(s.main.pc) ==> s.heap.processors)
  }

  /** pthread_kill only ever names a thread that has been created and has not finished. */
  predicate SignalsLiveThreads(s: State) {
    && (s.main.pc.MKillEp? ==> !s.ep.pc.EUnborn? && !s.ep.pc.EExited?)
    && (s.main.pc.MKill? && s.main.i < |s.srcs| ==>
          !s.srcs[s.main.i].pc.SUnborn? && !s.srcs[s.main.i].pc.SExited?)
  }

  lemma SourcesOutlive(c: Config, s: State, i: nat)
    requires Phased(c, s) && i < |s.srcs| && SrcUsesTables(s.srcs[i].pc)
    ensures s.heap.sources && s.heap.processors
  {
    assert SrcTickets(s.bars, i, SrcLeg(s.srcs[i].pc)) && MainGates(s.bars, |s.srcs|, MainLeg(s.main.pc));
    assert MainLeg(s.main.pc) < 8;
  }

  lemma EpOutlived(c: Config, s: State)
    requires Phased(c, s)
    ensures EpUsesProcessors(s.ep.pc) ==> s.heap.processors
    ensures Gone(s) && Sweeping(s.ep.pc) ==> s.heap.sources
  {
    assert EpTickets(s.bars, EpLeg(s.ep.pc)) && MainTickets(s.bars, MainLeg(s.main.pc));
    assert MainGates(s.bars, |s.srcs|, MainLeg(s.main.pc));
    if EpUsesProcessors(s.ep.pc) { assert MainLeg(s.main.pc) < 6; }
  }

  lemma LiveThreads(c: Config, s: State)
    requires Phased(c, s)
    ensures SignalsLiveThreads(s)
  {
    assert MainTickets(s.bars, MainLeg(s.main.pc));
    if s.main.pc.MKill? {
      assert SrcGates(s.bars, SrcLeg(s.srcs[s.main.i].pc));
    }
  }

  lemma DoorbellPublishes(c: Config, s: State)
    requires c.Valid() && c.Doorbell() && Reachable(c, s)
    ensures MemorySafe(s) && SignalsLiveThreads(s)
  {
    ReachableDelivered(c, s);
    EpOutlived(c, s);
    LiveThreads(c, s);
    forall i | 0 <= i < |s.srcs| && SrcUsesTables(s.srcs[i].pc)
      ensures s.heap.sources && s.heap.processors
    {
      SourcesOutlive(c, s, i);
    }
  }

  /** When main frees the tables, no EP or source thread is at a point that still uses them. */
  lemma FreesAreLast(c: Config, s: State)
    requires c.Valid() && Reachable(c, s)
    requires s.main.pc.MFreeSources? || s.main.pc.MFreeProcessors? || s.main.pc.MExited?
    ensures !EpUsesSources(s) && !EpUsesProcessors(s.ep.pc)
    ensures forall i :: 0 <= i < |s.srcs| ==> !SrcUsesTables(s.srcs[i].pc)
  {
    ReachablePhased(c, s);
    assert EpTickets(s.bars, EpLeg(s.ep.pc)) && MainGates(s.bars, |s.srcs|, MainLeg(s.main.pc));
    forall i | 0 <= i < |s.srcs|
      ensures !SrcUsesTables(s.srcs[i].pc)
    {
      assert SrcTickets(s.bars, i, SrcLeg(s.srcs[i].pc));
    }
  }
}
