// Which CPU each thread is pinned to, and how many threads the end barrier counts (wfey.c, main).
module Cores {
  import opened Words

  /** CPU 0 is main's. */
  datatype Plan = Plan(processors: seq<nat>, sources: seq<nat>, idle: seq<nat>)

  function Cpus(p: Plan): seq<nat> {
    [0] + p.processors + p.sources + p.idle
  }

  /** The CPUs first, first + 1, ... */
  predicate Consecutive(s: seq<nat>, first: nat) {
    forall k :: 0 <= k < |s| ==> s[k] == first + k
  }

  /** `counted` is num_idle, the number by which the end barrier's count exceeds sources and main. */
  method Assign(processors: nat, sources: nat, total: nat) returns (fits: bool, plan: Plan, counted: nat)
    requires 1 <= total < TWO_63 && processors < TWO_63 && sources < TWO_63
    ensures fits <==> processors + sources + 1 <= total
    ensures |plan.processors| == processors && |plan.sources| == sources
    ensures fits ==> counted == |plan.idle| && Cpus(plan) == seq(total, k => k)
  {
    var cpuid := 1;
    var eps: seq<nat>, srcs: seq<nat>, idle: seq<nat> := [], [], [];
    for i := 0 to processors
      invariant cpuid == 1 + |eps| && |eps| == i && Consecutive(eps, 1)
    {
      eps := eps + [cpuid];
      cpuid := cpuid + 1;
    }
    for i := 0 to sources
      invariant cpuid == 1 + processors + |srcs| && |srcs| == i && Consecutive(srcs, 1 + processors)
    {
      srcs := srcs + [cpuid];
      cpuid := cpuid + 1;
    }
    counted := Wrap64(total - (processors + sources + 1));
    fits := !(processors + sources > total - 1);
    if fits {
      for i := cpuid to total
        invariant |idle| == i - cpuid && Consecutive(idle, cpuid)
      {
        idle := idle + [i];
      }
    }
    plan := Plan(eps, srcs, idle);
  }
}
