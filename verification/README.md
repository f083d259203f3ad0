# WFE event benchmark and Altra sensor table: a verified model

Two cores of the repository, as Dafny models with machine-checked proofs.

**The event, doorbell and WFE protocol** (`wfey.c`, `include/wfey.h`, `include/common.h`). N source
threads, one event processor (EP), main and the idle threads share one event word per source, one
doorbell word, the event register and exclusive monitor of the EP's core, the `end_flag`s and the
barriers. `Protocol.dfy` gives one program point per shared access and one step function per thread, for
all five Makefile targets and any number of sources. The invariants are proved for every interleaving,
in layers: `Phases` (barriers, flags, allocations), `Delivery` (no lost event), `Pending` (the doorbell
filter refines a set of pending events), `Wakeup` and `Response` (no lost wake-up, bounded response),
`Polling` (bounded response without a doorbell), `Shutdown`, `Termination` (bounded steps to the end of the run),
`Lifetime`, `Accounting`, `IdleTime`. `Observed` and `Elapsed` say what stamps, words, counters, the idle total and the
latency samples are over a whole run, from the steps taken and the clock alone. `Limits` holds the exact conditions under which three of the guarantees hold, with runs that break them otherwise.
`SourceEvent` and `EventLoop` are the same operations as sequential code over objects; `Undisturbed` makes the
parallel statement about EP steps alone, in terms of the same function of a source's fields. `MemWork`, `Latency`, `Clock` and `Cores` are the arithmetic around it.

**The Altra sensor table** (`module/altra-hwmon.c`, label side of `wfey_hwmon.c`). `SensorTable` is a pure
parser over the bytes of the register image; `AltraHwmon` is the driver's probe and read code, with arrays
that grow by reallocation and u32 arithmetic, proved against it. `SensorLayout` says where sensors lie,
`TableWriter` writes tables and proves the round trip, `Probe` runs the driver on any table and on a written one, `Extremes` has the tables at the limits of
the driver's arithmetic, `SensorUnits` tells its constants by image bytes and physical units, `SensorLabels` and `JoulePaths` cover printing a label
in the driver and parsing it in the joule reader.

`dafny verify dfyconfig.toml` checks everything.

The wait-for-event rules are those of the Arm Architecture Reference Manual for A-profile (DDI 0487), "Wait
for Event mechanism and Send event": WFE consumes a set event register or waits; SEV, an exception return and
clearing the core's exclusive monitor each set it.

Where comments or documentation and code differ, the model follows the code:

- `armMonitor` takes `&addr`, the address of its own parameter (`include/wfey.h:141-147`), while the comment at
  `wfey.c:379-381` means the doorbell. Both readings are covered by the `armsDb` field of `Config`:
  `Limits.WakesExactly` shows that the wake-up guarantee of the monitor build needs the second.
- The comment at `wfey.c:22-24` says an already ACTIVE source does not continue. The code stamps again;
  `Accounting.DiscardedIffRestamped` says what that does to the sample.
- The read paths compare the int channel with a u32 count but index the list by the int
  (`module/altra-hwmon.c:99-103`, `module/altra-hwmon.c:115-122`). `AltraHwmon.NeverAstrayExactly` and
  `Extremes.NegativeChannelPasses` say when that matters.
- The messages at `module/altra-hwmon.c:212` and `:224` say "Ignore remaining", but the walk goes on with the
  next metric (`module/altra-hwmon.c:342-343`). Only the two range checks end it.
- The comment at `module/altra-hwmon.c:66` calls `data_size` "4 or 8 bytes"; the code takes any byte.
  `SensorLayout.ReadsInsideExactly` and `SensorLayout.ReadsAlignedExactly` say for which sizes the reads stay
  inside the metric's data and are aligned: both hold for 4-byte data and positive multiples of 8.

## Model

| member | source | states |
|---|---|---|
| `Clock.TsDiffSigned` | include/common.h:88-93 | read as a signed number, the wrapped difference of two stamps is their true difference, whichever is later |
| `Clock.TsDiffExact` | include/common.h:88-93 | the uint64_t difference of ordered stamps is exact |
| `Clock.TsDiffAdditive` | include/common.h:88-93 | adjacent intervals add up modulo 2^64, even if every single difference wraps |
| `Protocol.CompiledIn` | Makefile:12-39 | what each of the five targets compiles in, from the macros on its line: doorbell, monitor and WFE, and SEV exactly with a doorbell and without a monitor |
| `Latency.AccountTracks` | wfey.c:50-61 | one accounting step keeps count, sum, minimum and maximum true of the sample log, extended by the sample exactly if it is accepted |
| `Latency.LoggedStamps` | wfey.c:50-55 | a sample is logged exactly if the start stamp is earlier than the end stamp, and then it is the elapsed time |
| `Latency.ReportIsConsistent` | wfey.c:751-760 | whatever the monotone roundings in double, to float and in printing, the row shows least and greatest sample and their mean, rounded, between the extremes, rounded alike; the row 0, 0, -1 stands for a source without samples |
| `SourceEvent.Source.constructor` | wfey.c:660-669 | main's reset leaves the event word RESET and the accumulators describing the empty history |
| `SourceEvent.Source.Activate` | wfey.c:21-28 | stamps, then stores ACTIVE, and touches nothing else |
| `SourceEvent.Source.Reset` | wfey.c:35-61 | stores RESET, keeps the start stamp, and accounts exactly the difference of the two stamps |
| `SourceEvent.Doorbell.IsPressedAndReset` | include/wfey.h:16-19 | an exchange: reports the old value and leaves the doorbell RESET |
| `EventLoop.EventProcessor.HandleEvent` | wfey.c:243-252 | an ACTIVE source is reset and accounted once |
| `EventLoop.EventProcessor.Sweep` | wfey.c:394-400 | every ACTIVE source is served once with its own stamps, the others are left alone, and `events` grows by the number of ACTIVE ones |
| `EventLoop.EventProcessor.WakeUp` | wfey.c:386-400 | a doorbell found RESET counts as spurious and touches no source; one found PRESSED serves every source; each wake-up is counted once |
| `Undisturbed.SweepAlone` | wfey.c:394-400 | from any point between two sources there is a run of EP steps alone to the loop test that serves each remaining source once and counts the ACTIVE ones, leaving all else alone |
| `Cores.Assign` | wfey.c:635-715 | every CPU from 0 on gets exactly one of main, EPs, sources and idle threads, and the idle term of the end barrier's count is the number of idle threads, exactly if all threads fit |
| `MemWork.Pass` | wfey.c:139-144 | every access of the unrolled loop is in bounds, and the four accumulators together gain the sum of every STRIDE-th element over 4 * ceil(limit / (4 * STRIDE)) terms, modulo 2^64 |
| `MemWork.Run` | wfey.c:97-103 | the total is WORK_COUNT times that strided sum, modulo 2^64 |
| `Phases.ReachablePhased` | wfey.c:634-744 | in every reachable state of every build the threads are where barriers, thread creation, flags and allocations allow: each barrier holds exactly those past their arrival, and nobody leaves before everybody arrived |
| `Delivery.NoLostEvent` | wfey.c:388-400 | in every reachable state of every doorbell build an ACTIVE source is still to press, or the doorbell is PRESSED, or the current sweep has yet to test it or is handling it before its RESET store |
| `Delivery.SkippedSweepFindsNothingAnnounced` | wfey.c:387-393 | when the exchange returns RESET, a full sweep at that instant would find only sources between their ACTIVE store and their press |
| `Pending.HandledBeforeSkip` | wfey.c:388-400 | in the abstract machine of pending events, an announced event is handled before a sweep is next skipped |
| `Pending.RunSimulates` | wfey.c:387-400 | every run of a doorbell build is, step by step, a run of the pending-events machine, in which a skip requires that nothing is announced |
| `Pending.AnnouncedIsHandledBeforeSkip` | wfey.c:388-400 | in every run, between a press for an ACTIVE source and the EP's next skipped sweep lies a RESET store of that source |
| `Wakeup.MonitorKeepsWatch` | wfey.c:378-383 | monitor armed on the doorbell: from the re-arm through the sweep to the next WFE, the monitor is armed or the event register is set |
| `Response.NoLostWakeup` | wfey.c:364-401 | in every reachable state, once an ACTIVE source is past its press and SEV: the EP can step or has left its loop, and its sweep under way covers the source or the doorbell is PRESSED and the EP reaches the next exchange without blocking; also for an EP that tested `end_flag` just before it was raised |
| `Response.EpStepRank` | wfey.c:364-401 | each EP step stores RESET to the notified source, strictly lowers the rank, or leaves the loop |
| `Response.RunCloser` | wfey.c:364-401 | along any run, up to the RESET store, the EP's steps are paid for by the rank, no other thread raises it, and at most one more sweep begins |
| `Response.BoundedResponse` | wfey.c:504-509 | in any run after activate, press and SEV and up to the RESET store, the EP in its loop is never blocked, and no sweep begins beyond the one under way if that covers the source, or one more; 10 N + 6 EP steps bring the store unless the EP has left its loop |
| `Polling.PollingResponse` | wfey.c:394-400 | builds without a doorbell, once main has released the sources: the same bounds on sweeps and EP steps for every ACTIVE source; only WFE can block the EP in its loop, so a polling EP never blocks |
| `Shutdown.EpNotStuck` | wfey.c:724-729 | after `end_flag` and SIGUSR1, an EP still in its loop can step, or the signal's delivery is pending and enabled |
| `Shutdown.RunExits` | wfey.c:364-401 | each EP step after the signal lowers the exit rank, and at most one more sweep begins |
| `Shutdown.EpShutsDown` | wfey.c:724-732 | the EP leaves its loop within 5 N + 7 of its steps and one further sweep, even if it tested `end_flag` just before it was set |
| `Shutdown.NoDeadlock` | wfey.c:652-744 | whenever main is blocked at a barrier, some thread that has yet to arrive there can step |
| `Termination.TerminationBound` | wfey.c:724-764 | after main has signalled the EP, a run has at most 15 N + idle + 18 steps of the EP, main, the idle threads and the sources told to stop; a run with as many as remain ends with both tables freed and main gone |
| `Termination.AlwaysProgress` | wfey.c:724-764 | until main is gone, such a step can be taken |
| `Lifetime.DoorbellPublishes` | wfey.c:653-669 | doorbell builds: the EP dereferences `Sources` only after main has initialised all of them and released the sources; every dereference finds its table allocated; signals name live threads |
| `Lifetime.FreesAreLast` | wfey.c:763-764 | all builds: when main reaches the frees no EP or source thread is at a point that still uses either table |
| `Limits.EarlySweep` | wfey.c:344-400 | without a doorbell there is a run in which the EP sweeps before `Sources` is allocated |
| `Limits.SafeExactlyWithDoorbell` | wfey.c:344-400 | no reachable state dereferences an unpublished or freed table if and only if the build has a doorbell |
| `Limits.MonitorElsewhereStrands` | include/wfey.h:140-147 | the monitor build as written: for every number of sources a run leaves a pressed doorbell and an EP blocked in WFE with nothing to wake it |
| `Limits.WakesExactly` | include/wfey.h:140-147 | among doorbell builds, in every reachable state no completed notification finds the EP blocked in its loop, if and only if a monitor, where used, is armed on the doorbell |
| `Limits.EarlySweepSpoilsBooks` | wfey.c:394-400 | without a doorbell, for every number of sources, a run in which the EP samples a source before main resets its statistics, which then do not describe the samples |
| `Limits.BooksExactlyWithDoorbell` | wfey.c:660-669 | from the go barrier on, the statistics of every source describe its accepted samples in every reachable state if and only if the build has a doorbell |
| `Accounting.Conservation` | wfey.c:386-398 | every build: wakeups = spurious + sweeps, and `events` is the number of accepted plus discarded samples of all sources plus the one being handled; doorbell builds: sweeps plus a PRESSED doorbell never exceed presses |
| `Observed.TalliesCount` | wfey.c:386-398 | every run of every build: wakeups, events and presses, and per source ACTIVE and RESET stores, grow by exactly the number of steps that take them: the exchange after WFE, a test that finds a source ACTIVE, and so on |
| `Observed.SpuriousCounts` | wfey.c:388-392 | `spurious` grows by exactly the number of skipped sweeps of the run, the skips of the pending-events machine; without a doorbell by none |
| `Observed.WakeupsPassWfe` | wfey.c:364-386 | in the WFE builds a run passes as many WFEs as it counts wake-ups, but for the one under way, and in the monitor build as many re-arms |
| `Observed.WordsSwitch` | include/wfey.h:16-29 | every run: each event word, stop flag, the signal, the doorbell, the event register and the monitor are as the last step that sets or clears them left them |
| `Observed.SecondWfeBlocks` | include/wfey.h:128-132 | after one WFE the next one blocks if and only if no SEV, signal delivery, unrelated event or cleared monitor came between |
| `Observed.StampsAreClocks` | wfey.c:21-36 | every run: a source's start stamp is the clock at its last activation, ACTIVE or not, its end stamp the clock at the last reset, and the EP's stamps the clock at their own steps |
| `Accounting.StoresBalance` | wfey.c:26-40 | doorbell builds, and any build in which the EP has handled no event when main arrives at the go barrier: per source, RESET stores plus an ACTIVE word never exceed ACTIVE stores |
| `Accounting.BalanceExactly` | wfey.c:394-400 | every build: when main arrives at the go barrier and the EP is not handling an event, the stores of all sources balance if and only if it has handled none |
| `Accounting.LatencyStatistics` | wfey.c:660-669 | under the condition of `StoresBalance`, from the go barrier on, the accumulators are length, sum, minimum and maximum of the samples accepted so far |
| `Elapsed.StatisticsOfTrace` | wfey.c:21-61 | from the go barrier on, the accumulators are length, sum, minimum and maximum of the samples told by the clock: at each accounting step the clock at the EP's last end stamp for the source minus the clock at the source's last activation, if positive |
| `Accounting.PrintedRow` | wfey.c:750-760 | under the same condition, the row main prints describes the samples of the whole run, up to rounding |
| `Accounting.DiscardedIffRestamped` | wfey.c:50-55 | under the same condition, a sample is discarded if and only if the source has stamped again since the EP's end stamp or the clock did not advance; an accepted one is the exact elapsed time |
| `IdleTime.IdleWithinActive` | wfey.c:416-448 | the idle total never exceeds the active total, so the printed difference does not wrap |
| `Elapsed.IdleTotal` | wfey.c:366-376 | over any run the inactive total is the sum, over the stamps after WFE, of the clock there minus the clock at the stamp before WFE |
| `SensorTable.WordFields` | module/altra-hwmon.c:45-56 | the masks and shifts of the info words select their bytes |
| `SensorTable.TruncateRead` | module/altra-hwmon.c:183-190 | truncating a 64-bit read to 32 bits leaves exactly its low word, on which alone validity depends |
| `SensorUnits.AcceptedExactly` | module/altra-hwmon.c:295-300 | a table is accepted if and only if its image begins with the six bytes of "HWM0" and version 1 |
| `SensorUnits.MetricExactly` | module/altra-hwmon.c:207-227 | a metric is accepted if and only if its first label byte is not zero and its unit byte is 0x01, 0x10, 0x11 or 0x12; it is a temperature exactly for 0x01 |
| `SensorUnits.FlagsOfKind` | module/altra-hwmon.c:169-179 | a channel carries one flag per sensor, of its own type |
| `SensorLayout.ParseChain` | module/altra-hwmon.c:314-348 | the accepted sensors of all types lie one after the other inside the image |
| `SensorLayout.ParseAligned` | module/altra-hwmon.c:339-341 | every 4- or 8-byte sensor found by the walk lies at a multiple of its size |
| `SensorLayout.SensorsDisjoint` | module/altra-hwmon.c:263-279 | across the whole parse and within each type, byte ranges are disjoint, in strictly increasing order and inside the image |
| `SensorLayout.ReadsInsideExactly` | module/altra-hwmon.c:119-122 | the reads of a metric's sensors stay inside its data if and only if it is empty or its size is 4 or at least 8 |
| `SensorLayout.ReadsAlignedExactly` | module/altra-hwmon.c:183-188 | those reads are aligned to their width if and only if there is at most one, or the size is 4 or a multiple of 8 |
| `SensorLayout.RoomyIsReadable` | module/altra-hwmon.c:314-338 | for any image, from the range checks and the data sizes alone (4, at least 8, or an empty metric) and terminated labels: every sensor read of the walk is inside the image |
| `SensorLayout.ParseInside` | module/altra-hwmon.c:263-279 | what was read inside the image while probing is saved with an offset and size that read inside it later, for all sensors of a type |
| `Extremes.RangeChecksExactly` | module/altra-hwmon.c:317-331 | in accepted tables of a size, the u32 range checks admit only blocks inside the image at every block the walk reaches, and no u32 offset wraps, if and only if the size is below 2^32 - 16711424; beyond, a table whose last header passes the checks is given |
| `SensorLayout.SmallImagesUnwrapped` | module/altra-hwmon.c:314-341 | below that image size no u32 offset of the whole walk wraps |
| `AltraHwmon.Context.constructor` | module/altra-hwmon.c:362-369 | a freshly zeroed context has no lists and all counts zero |
| `AltraHwmon.Context.Read32` | module/altra-hwmon.c:80-83 | called only for aligned words inside the image, it delivers the little-endian word |
| `AltraHwmon.Context.SensorIsValid` | module/altra-hwmon.c:181-191 | called only for reads inside the image, aligned for 4- and 8-byte data; valid exactly if the low 32 bits are not zero, at either width |
| `AltraHwmon.Context.ReadLabel` | module/altra-hwmon.c:217-221 | four aligned word reads assemble the 16 label bytes in image order |
| `AltraHwmon.Context.CountValid` | module/altra-hwmon.c:231-238 | the count pass counts exactly the sensors that the parser lists |
| `AltraHwmon.Context.Grow` | module/altra-hwmon.c:240-254 | the new list has room for exactly the counted sensors and keeps all earlier entries |
| `AltraHwmon.Context.FillOne` | module/altra-hwmon.c:265-278 | a valid sensor is written at the type's count, which goes up by one, with one flag; an invalid one changes nothing |
| `AltraHwmon.Context.Fill` | module/altra-hwmon.c:262-279 | the fill pass writes exactly the counted entries behind the earlier ones, with offset, size, scale and label of the parser, one flag each, all indices in bounds |
| `AltraHwmon.Context.AddSensors` | module/altra-hwmon.c:229-279 | count, reallocation and fill together append the metric's sensors to its type and describe its channel; the other type is untouched |
| `AltraHwmon.Context.CreateSensor` | module/altra-hwmon.c:193-282 | ENODEV exactly for an unknown unit or an empty label, then with nothing changed; otherwise the metric is taken into lists and channel table |
| `AltraHwmon.Context.Block` | module/altra-hwmon.c:316-331 | computes the two u32 range checks; where no u32 offset wraps they decide exactly whether header and data lie inside the image |
| `AltraHwmon.Context.AddMetric` | module/altra-hwmon.c:337-347 | an accepted metric takes the next channel and pointer; a rejected one takes neither and the walk goes on |
| `AltraHwmon.Context.CreateSensors` | module/altra-hwmon.c:284-351 | ENODEV exactly for a wrong id or version, with nothing changed; otherwise lists, counts and channels are those of the parsed metrics, and `info` is the distinct used channels followed by NULL |
| `Probe.ProbeAny` | module/altra-hwmon.c:284-351 | on any image of 8 to 2^32 - 16711425 bytes whose metrics have terminated labels and data of 4 or at least 8 bytes, probing makes only aligned reads inside the image and ends ready for the read paths |
| `AltraHwmon.Context.Read` | module/altra-hwmon.c:107-126 | EINVAL exactly if the channel as a u32 is outside the count; a negative channel that passes this check leads outside the list; otherwise an aligned in-bounds read: the long that is congruent to register times scale modulo 2^64, and that product itself if it is below 2^63 |
| `AltraHwmon.Context.ReadLabels` | module/altra-hwmon.c:90-105 | EINVAL exactly if the channel as a u32 is outside the count; a negative channel that passes this check leads outside the list; otherwise the label that the parser gives the channel |
| `AltraHwmon.NeverAstrayExactly` | module/altra-hwmon.c:115-119 | no channel passes the check and leads outside the list if and only if the count is at most 2^31 |
| `Extremes.NegativeChannelPasses` | module/altra-hwmon.c:99-103 | an accepted and readable table of 1572872 bytes has 65535^2 sensors of data size 0; channel -200000 passes the check |
| `AltraHwmon.ScaleWraps` | module/altra-hwmon.c:122-123 | casting the register to a signed long before scaling does not change the product modulo 2^64 |
| `AltraHwmon.Readable` | module/altra-hwmon.c:115-122 | every sensor saved by a probe that read inside the image can be read at its offset, inside the image and aligned |
| `AltraHwmon.NegativeChannels` | module/altra-hwmon.c:97-100 | with data of 4 or at least 8 bytes, counts stay below 2^30: negative channels are refused and exactly those below the count are read |
| `AltraHwmon.CountsFit` | module/altra-hwmon.c:277 | the u32 count of a type never wraps, whatever the table |
| `AltraHwmon.ConfigsCount` | module/altra-hwmon.c:256-278 | a type's sensor count is the sum of the configuration lengths over its channel entries |
| `AltraHwmon.TakenIs` | module/altra-hwmon.c:315-348 | taking the metrics one after the other gives the per-type concatenation and the channel table in metric order |
| `TableWriter.ItemsWritten` | module/altra-hwmon.c:263-279 | over written data the parser finds exactly the values whose low 32 bits are not zero, in order |
| `TableWriter.BlocksWritten` | module/altra-hwmon.c:315-348 | over written blocks the walk finds exactly the understood ones, with the written offsets, sizes, scales and labels |
| `TableWriter.RoundTrip` | module/altra-hwmon.c:284-351 | for every list of blocks and every image that begins with their table, parsing gives exactly the expected metrics, with offset, size, scale and label |
| `TableWriter.WrittenIsReadable` | module/altra-hwmon.c:295-302 | a written table meets the header check and everything the driver demands of a table |
| `TableWriter.RoundTripReadings` | module/altra-hwmon.c:107-126 | each type's channels read back label, value and scale as written, without the values whose low 32 bits are zero |
| `SensorUnits.ShownInUnits` | module/altra-hwmon.c:141-167 | every channel shown of a written table belongs to a reported value of a block whose unit is of the channel's type, scaled by 1000 for degrees Celsius and millijoules, 1000000 for joules, 1 for microjoules |
| `SensorUnits.SameEnergy` | module/altra-hwmon.c:154-167 | v joules, 1000 v millijoules and 1000000 v microjoules are shown alike, as 1000000 v |
| `Probe.ReadWritten` | module/altra-hwmon.c:107-126 | after the driver has probed a written table, a channel reads, under the label of its block, as the long congruent to written value times scale modulo 2^64, and as that product if it is below 2^63; a channel beyond the reported values is refused |
| `SensorLabels.CoreEnergyRoundTrip` | wfey_hwmon.c:80-90 | a "Core Energy" label is never truncated and parses back to exactly its number, whatever non-digit follows |
| `SensorLabels.ScanSigned` | wfey_hwmon.c:80 | the reader's %d takes the digits after any white space and an optional sign, whatever non-digit follows |
| `SensorLabels.DistinctExactly` | module/altra-hwmon.c:273 | the first n labels of an L-character name (L at most 15) are pairwise distinct if and only if n is at most 10^(18 - L) |
| `SensorLabels.MetricLabelsDistinctExactly` | module/altra-hwmon.c:263-279 | the same for the sensors of a parsed metric |
| `SensorLabels.ChannelIsIndex` | module/altra-hwmon.c:265-278 | channel k shows the k-th value of the metric if and only if all values up to it are valid; otherwise a later one |
| `SensorLabels.CoresFindTheirLabels` | wfey_hwmon.c:61-90 | with "Core Energy" as the first energy metric, each of its channels c carries a label that parses to exactly c |
| `JoulePaths.Cache.CachePath` | wfey_hwmon.c:25-100 | a cached path stays; otherwise the first directory of the driver decides, and is taken exactly if its label number core + 1 names the core; other cores are untouched |
| `JoulePaths.EveryCoreAnswered` | wfey_hwmon.c:61-94 | with the first energy metric's channels behind a directory's label files and "Core Energy" its label, every core below its count is found |

## Left out

Idealisations of the protocol model:

- Memory is sequentially consistent, as the SEQ_CST accesses to doorbell and event words justify for those; SEV takes effect after the press before it.
- `start_ts` and `end_ts` are read and written as one cell each; torn reads are not modelled.
- The clock counts nanoseconds and never goes back; the results on differences say below which value of it they hold.
- Work functions terminate and touch no shared word; delays between events are arbitrary.
- A source's sleep always ends; the retry loop around `nanosleep` is folded into it, so the bounds on stopping count steps, not time.
- One EP, as `wfey.c:581-584` demands; several invariants depend on it.
- The end barrier is modelled for at least one idle thread, because the code initialises it only then (`wfey.c:708`); the re-initialised `epbarrier` (`wfey.c:654`) is a second barrier.
- Allocations and thread creation succeed.
- No wake-up claim for `wfe_nodb`: its sources issue no SEV.
- The loops of `epThread`, `sourceThread` and `main` are a step relation with program counters, because other threads act between any two accesses; the sequential form is given for one wake-up only.
- `wakeups`, `spurious`, `events` and the history counters are unbounded numbers.
- Latency.ReportIsConsistent: for samples that add up to at most 2^53 ns (104 days); beyond, the sum itself is rounded on its way into the quotient.

Idealisations of the sensor table model:

- The register image does not change while it is parsed, so both passes see the same validity.
- Allocations succeed; the ENOMEM returns are not modelled, and the sensor lists may be as long as the table asks for.
- AltraHwmon.Context.CreateSensors: for images of at least the 8-byte header in which no u32 offset of the walk wraps; images below 2^32 - 16711424 bytes always qualify.
- AltraHwmon.Context.CreateSensor: for accepted metrics whose label ends within its 16 bytes, because the driver otherwise prints uninitialised bytes, and whose sensors are read inside the image; data of 1 to 3 or 5 to 7 bytes may be read past the block, and disjointness is claimed only where it is not.
- Data of other sizes than 4 and 8 bytes may be read unaligned.
- `s_config` is shown as its final contents; nothing is claimed about a terminating zero.
- The lists are two, temperature and energy; the driver never fills those of other hwmon types.
- Numbers in labels are read by the joule reader as unbounded integers; those the driver prints are below 65536.

Not modelled:

- Perf counters, `ioctl`, CPU pinning calls, `popen` of `lscpu`, argument parsing and printing: I/O.
- `compwork`, `iowork`, `nullwork` and the choice of work: opaque terminating steps.
- How the Linux hwmon core turns the channel table into files; `JoulePaths.Serves` states the numbering the joule reader relies on.
- `probe`, `remove`, ACPI tables, `ioremap`, device registration.
- `wfey_hwmon_joules_read`, apart from the path cache: file I/O.
- Scripts, `basic_tests`, notebooks: measurement plumbing.
