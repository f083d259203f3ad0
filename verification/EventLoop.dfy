// One wake-up of the event processor as sequential code over the shared objects, when no other
// thread runs meanwhile (wfey.c, the body of epThread's loop and EP_handle_event).
module EventLoop {
  import opened Clock
  import opened Latency
  import opened SourceEvent

  predicate Apart(sources: seq<Source>) {
    forall i, j :: 0 <= i < j < |sources| ==> sources[i] != sources[j]
  }

  /** How many of the first n sources are ACTIVE. */
  function ActiveCount(sources: seq<Source>, n: nat): nat
    requires n <= |sources|
    reads sources
  {
    if n == 0 then 0 else ActiveCount(sources, n - 1) + if sources[n - 1].active then 1 else 0
  }

  /** An ACTIVE source was reset and accounted once; another was left alone. */
  twostate predicate Served(src: Source, now: Timespec)
    reads src
  {
    && !src.active && src.start == old(src.start)
    && src.Statistics() == AfterSweep(old(src.active), old(src.Statistics()), old(src.start), now)
  }

  class EventProcessor {
    var wakeups: nat
    var spurious: nat
    var events: nat

    /** EP_handle_event: the work, which touches no shared object, then the reset. */
    method HandleEvent(src: Source, now: Timespec)
      requires src.active
      modifies src
      ensures Served(src, now)
    {
      src.Reset(now);
    }

    method Sweep(sources: seq<Source>, nows: seq<Timespec>)
      requires Apart(sources) && |nows| == |sources|
      modifies this`events, sources
      ensures events == old(events) + old(ActiveCount(sources, |sources|))
      ensures forall i :: 0 <= i < |sources| ==> Served(sources[i], nows[i])
    {
      for i := 0 to |sources|
        invariant events == old(events) + old(ActiveCount(sources, i))
        invariant forall k :: 0 <= k < i ==> Served(sources[k], nows[k])
        invariant forall k :: i <= k < |sources| ==> unchanged(sources[k])
      {
        var src := sources[i];
        var active := src.IsActive();
        if active {
          events := events + 1;
          HandleEvent(src, nows[i]);
        }
      }
    }

    /** One turn of the loop after WFE: a doorbell found RESET is a spurious wake-up and touches
        no source; a doorbell found PRESSED serves every source. */
    method WakeUp(db: Doorbell, sources: seq<Source>, nows: seq<Timespec>)
      requires Apart(sources) && |nows| == |sources|
      modifies this, db, sources
      ensures !db.pressed && wakeups == old(wakeups) + 1
      ensures spurious == old(spurious) + if old(db.pressed) then 0 else 1
      ensures events == old(events) + if old(db.pressed) then old(ActiveCount(sources, |sources|)) else 0
      ensures forall i :: 0 <= i < |sources| ==>
                if old(db.pressed) then Served(sources[i], nows[i]) else unchanged(sources[i])
    {
      wakeups := wakeups + 1;
      var pressed := db.IsPressedAndReset();
      if !pressed {
        spurious := spurious + 1;
        return;
      }
      Sweep(sources, nows);
    }
  }
}
