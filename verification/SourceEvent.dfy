// The operations that source threads and the event processor call on shared objects, as
// methods over those objects (wfey.c, source_event_*; include/wfey.h, doorbell_*).
module SourceEvent {
  import opened Clock
  import opened Latency
  import opened Words

  /** struct Source without its scheduling fields: one event word, two stamps and the accumulators. */
  class Source {
    var active: bool
    var start: Timespec
    var end: Timespec
    var totalns: nat
    var minns: nat
    var maxns: nat
    var count: nat

    function Statistics(): Stats
      reads this
    {
      Stats(totalns, minns, maxns, count)
    }

    /** main: reset the event, then clear the accumulators. */
    constructor (now: Timespec)
      ensures !active && end == now && Tracks(Statistics(), [])
    {
      active, end := false, now;
      totalns, minns, maxns, count := 0, TWO_64 - 1, 0, 0;
    }

    /** source_event_activate. */
    method Activate(now: Timespec)
      modifies this`active, this`start
      ensures active && start == now
    {
      start := now;
      active := true;
    }

    /** source_event_isActive. */
    method IsActive() returns (b: bool)
      ensures b == active
    {
      b := active;
    }

    /** source_event_reset, when no other thread touches the source meanwhile. */
    method Reset(now: Timespec)
      modifies this
      ensures !active && end == now && start == old(start)
      ensures Statistics() == Account(old(Statistics()), TsDiff(start, now))
    {
      end := now;
      active := false;
      var ns := TsDiff(start, end);
      if Signed(ns) <= 0 {
        return;
      }
      totalns := Wrap64(totalns + ns);
      count := Wrap64(count + 1);
      if ns < minns { minns := ns; }
      if ns > maxns { maxns := ns; }
    }
  }

  /** doorbell_t: one word, RESET or PRESSED, accessed atomically. */
  class Doorbell {
    var pressed: bool

    constructor ()
      ensures !pressed
    {
      pressed := false;
    }

    /** doorbell_press. */
    method Press()
      modifies this
      ensures pressed
    {
      pressed := true;
    }

    /** doorbell_isPressedAndReset: an exchange, so it reports a press at most once. */
    method IsPressedAndReset() returns (was: bool)
      modifies this
      ensures was == old(pressed) && !pressed
    {
      was, pressed := pressed, false;
    }
  }
}
