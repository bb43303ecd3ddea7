# Alarm batching with resource similarity

This project models the alarm-batching core of a modified Android
`AlarmManagerService`, together with the two helpers it consults:
`MultiResourceManager`, which grades how similar two alarms are, and
`MultiResourceManagerService`, which records hardware grants, focus changes and
screen events.

The alarm manager keeps registered alarms in a list of *batches*. The list is
sorted by batch start time. Each batch delivers its alarms together, so fewer
device wakeups are needed. A policy flag picks one of two ways to join a new
alarm to an existing batch. The choice depends on the day of the month.

- **Overlap policy** (the stock Android one). An alarm joins the first
  non-standalone batch whose window `[start, end]` overlaps the alarm's window.
  The batch's window then narrows to the intersection.
- **Similarity policy** (days before the 10th). Every batch up to the alarm's
  deadline is graded.
  - The *time similarity* is High when the windows overlap, Mid when only the
    wider "intervals" overlap, and Low otherwise.
  - The *hardware similarity* compares the alarms' hardware-usage vectors.
  - The alarm joins the best mergeable batch. A copy of every alarm is kept in
    a list ordered by delay size, which rebatching walks.

Around these two policies the model covers:

- **Registration.** `set` checks and clamps the request, removes any alarm with
  the same operation, places the alarm, and re-aims the kernel timers.
- **Removal** by operation, package or user. Each removal is followed by a
  rebatch and a reschedule. When the rebatch-control flag is on, removal by
  operation uses the similarity policy's own procedure instead.
- **Rebatching**, which re-enters every alarm with freshly computed times.
- **Triggering.** Due batches are delivered. Repeating alarms get a count of
  missed periods and their next occurrence.
- **The kernel timer plan.** The next wakeup timer and the next non-wakeup
  timer are tracked.
- **Wake-lock bookkeeping for in-flight broadcasts.** This covers reference
  counting, per-package and per-filter statistics, and the wakeup log.
- **The resource service's grant, focus, usage and screen records.**

Modules:

| module | file | models |
|---|---|---|
| `Wrappers` | wrappers.dfy | `Option` |
| `Similarity` | similarity.dfy | `MultiResourceManager`: perceivability, time and hardware similarity |
| `Alarms` | alarms.dfy | the `Alarm` record, request normalisation, `maxTriggerTime`, `isMergeable`, `isHigherSimilarity`, the experiment-app hardware table |
| `Batches` | batch.dfy | the `Batch` class: add under both policies, remove, window and usage bookkeeping |
| `Registry` | registry.dfy | the alarm manager: the sorted batch list, coalescing searches, set, remove, rebatch, trigger, kernel timer plan |
| `WakeHold` | wakehold.dfy | dispatch and finish of in-flight broadcasts, statistics, wakeup records |
| `Resources` | resources.dfy | `MultiResourceManagerService` state and its updates |

Some things are external and become parameters:

- Clocks are parameters. `now` is the elapsed-time clock, `nowRtc` is the
  wall clock, and `skew` is wall-clock time minus elapsed time.
- An alarm's recorded hardware usage comes from the wakeup history. It is a
  parameter of `Set`, and so is the interval slack. Both are then carried
  unchanged through rebatching and recurrence (see "## Left out").
- `PendingIntent` identity is the `Operation` datatype. Matching by package or
  by user uses its fields.
- The kernel alarm device is the `Driver` object. It keeps the two cached
  targets and the list of timers it was asked to arm.

## Model

| member | source | states |
|---|---|---|
| `Similarity.IsPerceivable` | MultiResourceManager.java:56-67 | true exactly when the vibration, sound or screen slot has a positive use |
| `Similarity.OverlapsIsMeet` | MultiResourceManager.java:69-77 | the closed-interval test used for windows holds exactly when the two spans share a point |
| `Similarity.TimeSimilarity` | MultiResourceManager.java:69-77 | High exactly when the windows overlap, Mid exactly when only the intervals overlap, Low exactly when neither does |
| `Similarity.TimeSimilaritySymmetric` | MultiResourceManager.java:69-77 | swapping the two alarms does not change the time grade |
| `Similarity.XorCode` | MultiResourceManager.java:83-88 | the code a used slot contributes is `2 XOR slot`, i.e. 2,3,0,1,6,7,4, not a power of two |
| `Similarity.HardwareSimilarity` | MultiResourceManager.java:79-105 | a missing usage vector grades Low; otherwise the summed codes are compared by the subset, share and both-zero rules as written |
| `Similarity.GetHardwareSimilarity` | MultiResourceManager.java:79-105 | the loop that sums the codes slot by slot computes the same grade as the definition |
| `Similarity.HardwareSimilarityReflexive` | MultiResourceManager.java:79-105 | any usage vector is High-similar to itself |
| `Similarity.HardwareSimilaritySymmetric` | MultiResourceManager.java:79-105 | the hardware grade does not depend on argument order |
| `Similarity.ClassifySymmetric` | MultiResourceManager.java:94-104 | the subset/share/zero classification of two codes is symmetric |
| `Similarity.OneZeroCodeIsLow` | MultiResourceManager.java:101-104 | when exactly one code is zero the grade is Low |
| `Similarity.SoundOnlyCodeIsZero` | MultiResourceManager.java:83-88 | a vector that uses only the sound slot sums to code 0, so it grades like a CPU-only vector |
| `Similarity.MaskSimilarityMeaning` | MultiResourceManager.java:94-104 | under a one-bit-per-slot reading, High means one used set contains the other and Mid means they meet without containment, as the comments there describe |
| `Similarity.ClassifyMeaning` | MultiResourceManager.java:94-104 | for codes that are faithful bit sets, absorbing the other code under bitwise or is set inclusion, and a non-zero bitwise and is intersection |
| `Similarity.XorCodesGradeDisjointAsHigh` | MultiResourceManager.java:83-104 | network-only against vibration-only grades High with the summed codes although the slot sets are disjoint |
| `Alarms.Interval` | AlarmManagerService.java:1933-1944 | an alarm's interval starts at its earliest elapsed time and ends no earlier than its latest |
| `Alarms.ConvertToElapsed` | AlarmManagerService.java:730-736 | wall-clock kinds are shifted by the clock skew; elapsed kinds are unchanged |
| `Alarms.MaxTriggerTime` | AlarmManagerService.java:740-752 | a futurity under 10 s gives an exact alarm; otherwise the latest time is three quarters of the futurity past the trigger, rounded down |
| `Alarms.Requested` | AlarmManagerService.java:1048-1122 | no alarm for a type outside RTC_WAKEUP..ELAPSED_REALTIME; else windows over half a day become one hour, a negative trigger becomes 0, elapsed time is converted, and the latest time is exact, `maxTriggerTime`-based or trigger plus window |
| `Alarms.SplitTime` | AlarmManagerService.java:1515-1522 | a negative time arms at (0,0); otherwise seconds and nanoseconds recombine to the milliseconds given, with nanoseconds in range |
| `Alarms.JavaRem` | AlarmManagerService.java:2676 | the remainder truncates toward zero: same sign as the dividend, smaller than the divisor in magnitude |
| `Alarms.ExpAppHardware` | AlarmManagerService.java:2669-2720 | actions 1..35 use exactly slot (action-1)/5; every entry is 0 or 1 |
| `Alarms.NonPositiveActionUsesNothing` | AlarmManagerService.java:2669-2720 | a non-positive action uses no hardware |
| `Alarms.ExpAppPerceivable` | AlarmManagerService.java:2669-2720 | an experiment app is perceivable exactly for actions 6..20 or for remainders 25..27 outside 1..35 |
| `Alarms.IsMergeable` | AlarmManagerService.java:2563-2592 | mergeable exactly when time is High, or time is Mid and neither side is perceivable; hardware never matters |
| `Alarms.IsHigherSimilarity` | AlarmManagerService.java:2594-2601 | a candidate beats the current best exactly by the four rules; a winner never has a lower hardware grade and always differs |
| `Alarms.HigherSimilarityNotLexicographic` | AlarmManagerService.java:2594-2601 | (Mid, Mid) beats (High, Low): the order is not time-first |
| `Alarms.HigherSimilarityIsRankOrder` | AlarmManagerService.java:2594-2601 | on grades whose time similarity is not Low, a candidate beats the best exactly when its rank (three times hardware plus time) is larger, and equal ranks mean equal grades |
| `Alarms.MergeableTimeNotLow` | AlarmManagerService.java:2563-2592 | a mergeable pair never has Low time similarity |
| `Alarms.HigherSimilarityTransitive` | AlarmManagerService.java:2594-2601 | on mergeable grades, a grade that the best so far does not beat is not beaten by any candidate that beats the best, and differs from it |
| `Alarms.NothingBeatsTop` | AlarmManagerService.java:2594-2601 | no grade beats (High, High) |
| `Alarms.AnyCandidateBeatsLowLow` | AlarmManagerService.java:2449-2467 | every grade other than (Low, Low) beats the initial (Low, Low) |
| `Batches.InsertionPoint` | AlarmManagerService.java:358-362 | the binary search returns the point where every earlier key is smaller and every later key larger |
| `Batches.InsertKeepsSorted` | AlarmManagerService.java:358-363 | inserting at that point keeps the keys sorted |
| `Batches.KeepMembers` | AlarmManagerService.java:432-463 | the kept alarms are exactly the non-matching ones, with no new copies |
| `Batches.KeepSorted` | AlarmManagerService.java:432-463 | removing alarms keeps a batch in time order |
| `Batches.KeepUnchanged` | AlarmManagerService.java:432-463 | the list is unchanged exactly when nothing matches |
| `Batches.KeepShrinks` | AlarmManagerService.java:432-463 | the list shrinks exactly when something matches |
| `Batches.LatestStartIsMax` | AlarmManagerService.java:443-450 | the recomputed start is the largest survivor start, or 0 |
| `Batches.EarliestEndIsMin` | AlarmManagerService.java:443-450 | the recomputed end is the smallest survivor end, or Long.MAX_VALUE |
| `Batches.AddUsage` | AlarmManagerService.java:343-354 | adding a missing vector changes nothing; otherwise every slot is the sum, with a missing total read as zeros |
| `Batches.OverlapAdd` | AlarmManagerService.java:395-405 | the overlap policy narrows the window to lie inside both and adds the alarm to the batch's contents |
| `Batches.HowardAdd` | AlarmManagerService.java:369-394 | the similarity policy ORs perceivability, narrows the interval, collapses the window to -1 when disjoint, and adds the alarm |
| `Batches.HowardAddHardware` | AlarmManagerService.java:343-394 | after an add the batch usage is the slot-wise total of its alarms, and missing only when all are |
| `Batches.HowardAddIntervals` | AlarmManagerService.java:383-394 | the batch interval lies inside every member's interval; the batch is perceivable exactly when a member is |
| `Batches.HowardAddCoherent` | AlarmManagerService.java:356-424 | an add under the similarity policy keeps every batch invariant |
| `Batches.OverlapAddCoherent` | AlarmManagerService.java:356-424 | an add under the overlap policy keeps every batch invariant |
| `Batches.Seed` | AlarmManagerService.java:303-324 | a fresh batch holds only its seed, with the seed's window |
| `Batches.SeedCoherent` | AlarmManagerService.java:303-324 | a fresh batch satisfies the invariants; its `when` is the seed's start |
| `Batches.ResetState` | AlarmManagerService.java:684-696 | a reset batch is empty, uses no hardware and is not perceivable |
| `Batches.OverlapRemove` | AlarmManagerService.java:432-463 | the survivors are the non-matching alarms; the window is recomputed inside every survivor's window |
| `Batches.HowardRemove` | AlarmManagerService.java:465-490 | the similarity-policy removal rebuilds the batch from the survivors and keeps the invariants |
| `Batches.Batch.constructor` | AlarmManagerService.java:303-324 | the new batch is valid and holds exactly the seed |
| `Batches.Batch.CanHoldMeaning` | AlarmManagerService.java:334-337 | `canHold` holds exactly when the windows share a point |
| `Batches.Batch.AddHardwareUsage` | AlarmManagerService.java:343-354 | the usage becomes the slot-wise sum and nothing else changes |
| `Batches.Batch.Add` | AlarmManagerService.java:356-424 | the new state is the policy's add; it reports a new start exactly when the sort key moved |
| `Batches.Batch.Reset` | AlarmManagerService.java:684-696 | the batch becomes the reset state and stays valid |
| `Batches.Batch.RemoveMatching` | AlarmManagerService.java:432-490 | reports a removal exactly when an alarm matched, and leaves the batch untouched otherwise; the contents become the survivors under the policy's rebuild |
| `Batches.Batch.HasWakeups` | AlarmManagerService.java:617-628 | true exactly when some alarm has a wakeup type |
| `Batches.Batch.HasPackage` | AlarmManagerService.java:606-615 | true exactly when some alarm belongs to the package |
| `Batches.Sweep` | AlarmManagerService.java:439-455 | the loop removes exactly the matching alarms and recomputes start and end from the survivors |
| `Registry.FirstWakeup` | AlarmManagerService.java:1272-1281 | the index of the first batch holding a wakeup alarm, or -1 when none does |
| `Registry.DelaySize` | AlarmManagerService.java:1829-1840 | the delay-order key is the window size of a perceivable alarm and the interval size otherwise |
| `Registry.Recompute` | AlarmManagerService.java:800-817 | rebatching keeps the operation, type, wall time, period, window length and standalone flag, and carries the usage and interval slack over; it reconverts the elapsed time, and keeps an exact alarm exact, an explicit window, or recomputes `maxTriggerTime` |
| `Registry.RecomputeAll` | AlarmManagerService.java:797-818 | every alarm is recomputed in place, in order |
| `Registry.NextOccurrence` | AlarmManagerService.java:1788-1800 | the next occurrence of a repeating alarm is after now, with the same operation, type, period and window length, the given standalone flag, the usage and interval slack carried over, and a `maxTriggerTime` window |
| `Registry.NextOccurrenceShift` | AlarmManagerService.java:1788-1800 | the next occurrence lies a whole number of periods, equal to the delivery count, after the old one and at most one period after now |
| `Registry.CountOf` | AlarmManagerService.java:1780-1792 | the delivery count is 1 plus the whole periods of lateness; a one-shot alarm counts 1 |
| `Registry.PlanTargets` | AlarmManagerService.java:1303-1318 | the wakeup target is the first wakeup batch and the non-wakeup target is the head; a timer is armed only when its target changes |
| `Registry.PlanIdempotent` | AlarmManagerService.java:1303-1318 | rescheduling twice arms nothing more than rescheduling once |
| `Registry.RecomputeAllFrom` | AlarmManagerService.java:797-818 | the rebatched registry holds, for every old alarm, its recomputed version and nothing else |
| `Registry.RecomputeReady` | AlarmManagerService.java:797-818 | recomputed alarms stay well formed and their operations stay distinct |
| `Registry.RequestedStable` | AlarmManagerService.java:800-817 | recomputing a freshly requested alarm at the same clocks gives it back |
| `Registry.FilteredOpAbsent` | AlarmManagerService.java:1155 | after removing an operation, no alarm with it remains |
| `Registry.UndueHeld` | AlarmManagerService.java:1757-1806 | the alarms of batches whose key is after a time are all held by the batches |
| `Registry.UndueMoved` | AlarmManagerService.java:1206-1212 | a batch that gains alarms and moves to a key no earlier than a bound keeps every alarm that was not due before the bound not due |
| `Registry.UndueDrop` | AlarmManagerService.java:1776 | taking a due batch off the head leaves the alarms not yet due unchanged |
| `Registry.FirstIndex` | AlarmManagerService.java:1785 | the first position of an alarm in a list, or -1 when absent |
| `Registry.DeleteFirst` | AlarmManagerService.java:2795 | the result holds one copy fewer of the alarm and nothing else changes in the multiset; a sorted delay list stays sorted |
| `Registry.FilterOrder` | AlarmManagerService.java:2537-2542 | the delay-ordered list loses exactly the matching alarms and stays sorted |
| `Registry.Successor` | AlarmManagerService.java:1788-1800 | a delivered alarm is rescheduled exactly when it repeats, with its operation and after now |
| `Registry.RearmedLater` | AlarmManagerService.java:1788-1800 | all rescheduled alarms lie after now and come from delivered operations |
| `Registry.AccountedDone` | AlarmManagerService.java:1761-1804 | registered plus delivered equals the old registry plus the rescheduled recurrences |
| `Registry.Seeded` | AlarmManagerService.java:1201-1204 | a new batch holds only the alarm and takes its standalone flag |
| `Registry.Consider` | AlarmManagerService.java:2464-2466 | a batch is taken exactly when it is not standalone, mergeable and graded higher than the best so far |
| `Registry.EligibleMeaning` | AlarmManagerService.java:2550-2592 | a mergeable batch overlaps the alarm's window, or neither side is perceivable |
| `Registry.Driver.Apply` | AlarmManagerService.java:1303-1318 | the kernel state becomes the plan for the given times |
| `Registry.AlarmManager.constructor` | AlarmManagerService.java:994-1000 | the similarity policy is on before the 10th, rebatch control before the 5th, the fixed interval after the 20th; no batches |
| `Registry.AlarmManager.AddBatch` | AlarmManagerService.java:755-762 | the batch is inserted at its binary-search point; the result is true exactly when that point is 0 |
| `Registry.AlarmManager.AttemptCoalesce` | AlarmManagerService.java:765-776 | the first non-standalone batch that can hold the window, or -1 when there is none |
| `Registry.AlarmManager.AttemptCoalesceHoward` | AlarmManagerService.java:2441-2513 | the chosen batch is mergeable and before the deadline; no batch before the deadline beats its grade, no earlier mergeable batch has the same grade, and no earlier batch is a perfect match; -1 only when nothing before the deadline is mergeable |
| `Registry.AlarmManager.ScanHoward` | AlarmManagerService.java:2449-2474 | the loop stops at the first batch after the deadline or at a perfect match; its choice is eligible, unbeaten by every scanned batch and the first of its grade |
| `Registry.AlarmManager.NoTopBelow` | AlarmManagerService.java:2469-2471 | while the best so far is not perfect, no scanned batch is a perfect match |
| `Registry.AlarmManager.SearchOutcome` | AlarmManagerService.java:2441-2513 | a choice unbeaten up to the scan's stop point is unbeaten by every batch before the deadline |
| `Registry.AlarmManager.BestSoFar` | AlarmManagerService.java:2464-2468 | a candidate that beats the best so far is unbeaten by every batch scanned up to it and is the first eligible batch of its grade |
| `Registry.AlarmManager.TopUnbeaten` | AlarmManagerService.java:2469-2471 | no batch beats a perfect match, so stopping there loses nothing |
| `Registry.AlarmManager.FindFirstWakeup` | AlarmManagerService.java:1272-1281 | the loop finds the first wakeup batch |
| `Registry.AlarmManager.Reschedule` | AlarmManagerService.java:1303-1318 | the kernel state becomes the plan over batch start times, or batch `when` times under the similarity policy; the batches are untouched |
| `Registry.AlarmManager.ChooseBatch` | AlarmManagerService.java:1158-1196 | standalone alarms and the fixed-interval policy give -1; a chosen batch matches the standalone flag and is mergeable; the similarity policy inserts the alarm into the delay list at its search point |
| `Registry.AlarmManager.Place` | AlarmManagerService.java:1200-1233 | the registry gains the alarm and no batch with an earlier key appears; the kernel is re-planned |
| `Registry.AlarmManager.Merge` | AlarmManagerService.java:1206-1212 | the alarm joins the batch, which moves if its key changed; nothing becomes due earlier |
| `Registry.AlarmManager.NewBatch` | AlarmManagerService.java:1201-1204 | a new batch for the alarm is inserted in order |
| `Registry.AlarmManager.SweepBatches` | AlarmManagerService.java:1384-1390 | every batch loses its matching alarms and empty batches go; the registry is filtered and a removal is reported exactly when something matched |
| `Registry.AlarmManager.RemoveHoward` | AlarmManagerService.java:2518-2548 | matching alarms leave the batches and the delay list; the timers are re-planned only after a removal; with no match the batch list, keys, delay list and timers are unchanged |
| `Registry.AlarmManager.Remove` | AlarmManagerService.java:1378-1416 | removal reports whether anything matched; under rebatch control by operation the registry is exactly the survivors, otherwise they are rebatched; the timers are then re-planned; with no match the batch list, keys, delay list and timers are unchanged |
| `Registry.AlarmManager.Drop` | AlarmManagerService.java:1384-1402 | the batches and the delay list lose exactly the matching alarms; with no match the batch list, keys and delay list are unchanged |
| `Registry.AlarmManager.SweepRemove` | AlarmManagerService.java:1384-1416 | after a removal the survivors are rebatched and the timers re-planned by start time; with no match the batch list, keys, delay list and timers are unchanged |
| `Registry.AlarmManager.Refresh` | AlarmManagerService.java:1403-1415 | the registry becomes the recomputed survivors and the timers are aimed by batch start time |
| `Registry.AlarmManager.Set` | AlarmManagerService.java:1048-1235 | an invalid type changes nothing; otherwise the registry is the old contents without the operation, possibly rebatched, plus the requested alarm, and the timers are re-planned |
| `Registry.AlarmManager.Vacate` | AlarmManagerService.java:1155 | the registry no longer holds the operation; the survivors are kept as they are or rebatched |
| `Registry.AlarmManager.RebatchAll` | AlarmManagerService.java:792-819 | the new registry holds exactly the recomputed old alarms, in flattened batch order or in delay order, and the timers are re-planned |
| `Registry.AlarmManager.Collect` | AlarmManagerService.java:2607-2611 | the alarms to re-enter are the delay list or the flattened batches, and the lists are cleared |
| `Registry.AlarmManager.Reenter` | AlarmManagerService.java:2612-2631 | re-entering the alarms one by one builds a valid registry holding exactly them |
| `Registry.AlarmManager.Reload` | AlarmManagerService.java:797-818 | the registry becomes the recomputed alarms and the timers are aimed |
| `Registry.AlarmManager.Trigger` | AlarmManagerService.java:1757-1806 | no batch at or before now remains; registry plus delivered equals old registry plus rescheduled recurrences; each delivery has its count; every alarm of a batch not due at entry is still registered, and the delivered alarms are disjoint from them within the old registry plus the recurrences |
| `Registry.AlarmManager.TakeHead` | AlarmManagerService.java:1776 | the head batch leaves the list with its alarms |
| `Registry.AlarmManager.Deliver` | AlarmManagerService.java:1780-1800 | the delivery carries its count and the registry gains its successor, if any |
| `Registry.AlarmManager.Forget` | AlarmManagerService.java:2795 | under the similarity policy the first copy of the delivered alarm leaves the delay list; otherwise nothing changes; the batches and registry are untouched |
| `Registry.AlarmManager.Unqueue` | AlarmManagerService.java:2795 | the first copy of the delivered alarm leaves the delay list, which again holds exactly the registered alarms in delay order |
| `WakeHold.Opened` | AlarmManagerService.java:2074-2099 | a dispatch counts once, counts wakeups, and starts the clock only when no broadcast was open |
| `WakeHold.Closed` | AlarmManagerService.java:2316-2326 | a finish closes one nesting level and adds the elapsed time only when the last one closes |
| `WakeHold.OpenCloseQuiet` | AlarmManagerService.java:2316-2326 | an open then a close on an idle record adds exactly the time between them |
| `WakeHold.OpenCloseNested` | AlarmManagerService.java:2316-2326 | an open then a close inside an open broadcast leaves nesting, time and start unchanged |
| `WakeHold.StaleCount` | AlarmManagerService.java:2340-2345 | the count of leading log entries at or before the cut-off |
| `WakeHold.FirstFor` | AlarmManagerService.java:2307-2312 | the first in-flight entry for the operation, or -1 |
| `WakeHold.Logging` | AlarmManagerService.java:2327-2355 | the log keeps only old entries and the event, ends with the event, and its surviving old entries are within the last half hour; the per-id and per-uid records change only when kept and an event exists, then the event is the last for its id and uid, the one it replaces becomes the second, and other ids keep theirs |
| `WakeHold.Tracker.constructor` | AlarmManagerService.java:996-998 | wakeup records are kept under the similarity policy and the overhead experiment; everything starts empty |
| `WakeHold.Tracker.Dispatch` | AlarmManagerService.java:2057-2105 | a failed send changes nothing; a sent one takes a reference, holds and attributes the lock on 0 to 1, records the flight and opens both statistics |
| `WakeHold.Tracker.Finish` | AlarmManagerService.java:2303-2384 | the first matching flight is retired and its statistics closed, and the wakeup records change as `Logging` says exactly when its filter's last level closes; with no matching flight the statistics and records are unchanged; the reference drops; at zero the lock is released and flights cleared, otherwise it goes to the first flight |
| `WakeHold.Tracker.Retire` | AlarmManagerService.java:2307-2357 | the flight leaves the list and both statistics close; the wakeup records change as `Logging` says when the filter's last level closes and are unchanged otherwise |
| `WakeHold.Tracker.Release` | AlarmManagerService.java:2361-2382 | the reference drops; at zero the lock is released and flights cleared, otherwise it goes to the first flight |
| `WakeHold.Tracker.FindInFlight` | AlarmManagerService.java:2307-2312 | the loop finds the first flight for the operation |
| `WakeHold.Tracker.Logged` | AlarmManagerService.java:2327-2355 | stale log entries go and the event is appended; records by id, second records and records by uid update only when records are kept; the records as a whole become `Logging` of the old ones |
| `WakeHold.Tracker.PruneRecent` | AlarmManagerService.java:2340-2348 | exactly the stale head entries of the wakeup log are dropped |
| `Resources.Newest` | MultiResourceManagerService.java:155-159 | at most 500 entries remain, the newest ones |
| `Resources.TrimOldest` | MultiResourceManagerService.java:155-159 | removing the oldest entry while over the limit yields the newest 500 |
| `Resources.IndexOf` | MultiResourceManagerService.java:428-430 | the first index of the uid, or -1 when absent |
| `Resources.PromoteKeepsDistinct` | MultiResourceManagerService.java:421-437 | moving a uid to the front keeps the recent list free of duplicates and adds nothing but that uid |
| `Resources.CreditEffect` | MultiResourceManagerService.java:462-469 | with the screen off nothing changes; otherwise only the uid gains time minus the later of its focus time and the screen-on time |
| `Resources.ResourceService.constructor` | MultiResourceManagerService.java:53-96 | all records start empty and the screen state at its defaults |
| `Resources.ResourceService.GetLastGrantTime` | MultiResourceManagerService.java:125-130 | 0 for an unrecorded grant, otherwise the recorded time |
| `Resources.ResourceService.GetIsGrant` | MultiResourceManagerService.java:101-119 | true exactly when a positive last grant time lies within 10 s of the range |
| `Resources.ResourceService.AddNotificationEvent` | MultiResourceManagerService.java:151-160 | the event is appended and the history trimmed to its newest 500 |
| `Resources.ResourceService.Grant` | MultiResourceManagerService.java:135-147 | an unknown hardware index changes nothing; otherwise the grant time is recorded, and vibration and sound grants are logged |
| `Resources.ResourceService.IsServeNotification` | MultiResourceManagerService.java:165-188 | the caller is remembered, a notification event is logged and the request is served |
| `Resources.ResourceService.IsServeScreen` | MultiResourceManagerService.java:290-299 | the screen-on reason becomes window manager and the request is served |
| `Resources.ResourceService.IsServeWakeLock` | MultiResourceManagerService.java:365-380 | the screen-on reason becomes wake lock and the request is served |
| `Resources.ResourceService.GetLastFocusTime` | MultiResourceManagerService.java:475-477 | -1 for an unrecorded uid, otherwise its last focus time |
| `Resources.ResourceService.AddFocusUid` | MultiResourceManagerService.java:421-437 | system uids change nothing; an app uid moves to the front of a duplicate-free list of at most 5 and its focus time is set |
| `Resources.ResourceService.Promoted` | MultiResourceManagerService.java:427-436 | the recent list after the move is the uid followed by the others, cut to 5 |
| `Resources.ResourceService.AddFocusEvent` | MultiResourceManagerService.java:442-457 | system uids change nothing; otherwise the event is appended and the history trimmed to 500 |
| `Resources.ResourceService.AddUsageTime` | MultiResourceManagerService.java:462-469 | usage is credited as described for `CreditEffect` |
| `Resources.ResourceService.FocusChanged` | MultiResourceManagerService.java:401-419 | the uid and event are recorded, then the second-newest focus event is credited |
| `Resources.ResourceService.ScreenOff` | MultiResourceManagerService.java:583-601 | a screen event is logged, the on-time accumulates, the last focus event is credited, and the screen is marked off |
| `Resources.ResourceService.ScreenOn` | MultiResourceManagerService.java:602-605 | the screen-on time is set and the screen is marked on |

## Left out

- Floating point is not modelled: `INTERVAL_RATIO` in `getInterval`, `getHardwareWeight`, `getAppUsage`, and the `Math.ceil` rounding of kernel times under the fixed-interval policy. An interval's upper end is taken as its latest time (`Alarms.Interval` only bounds it from below by `maxWhen`).
- `Alarms.MaxTriggerTime`: the source computes `0.75 * futurity` in double precision. It is modelled as `3 * futurity / 4` rounded down, which agrees for futurities below 2^51 ms.
- The window special case in `getWindow` for one named application package is not modelled. Windows are always `[whenElapsed, maxWhen]`.
- `OFFLINE_SUPPORT` and `getIntervalFromHistory` only feed the floating-point interval width, so they are not modelled.
- `Alarms.IsHigherSimilarity`: the enum's `higher` is read as the order High > Mid > Low. The enum body is not part of this model.
- `Alarms.IsMergeable`: modelled as written. A Mid time grade is mergeable for non-perceivable sides whatever the hardware grade, so hardware never decides a merge.
- `Batches.Batch.Add`, `Registry.AlarmManager.ChooseBatch`, `Registry.AlarmManager.Place`, `Registry.AlarmManager.Set`, `Registry.AlarmManager.Trigger`, `Registry.AlarmManager.Remove`: the overhead experiment (days 16 to 19) is not modelled for the alarm manager. In the source it keeps a delay-ordered list and perceivability under the overlap policy, runs a discarded similarity search, and reports a batch as moved when its `when` changes. Only its effect on the wakeup records is modelled, in `WakeHold.Tracker`.
- `WakeHold.Tracker.Dispatch`: when a repeating alarm's send fails, the source removes that alarm. Here this is a separate call to `Registry.AlarmManager.Remove`; the delivery loop that would compose the two is not modelled.
- `Registry.CountOf`: integers are unbounded. The source adds the whole periods of lateness to the `int` field `count` with a compound assignment (AlarmManagerService.java:1793, 2802), which narrows to 32 bits; the model does not wrap.
- `Registry.NextOccurrence`: `count * repeatInterval`, `whenElapsed + delta` and `when + delta` (AlarmManagerService.java:1797-1798, 2806-2807) are 64-bit `long` arithmetic in the source and can overflow; the model computes them exactly.
- `Alarms.Requested`: `triggerElapsed + windowLength` (AlarmManagerService.java:1121) is `long` arithmetic in the source and can overflow for a trigger near `Long.MAX_VALUE`; the model computes it exactly.
- `Registry.AlarmManager.AddBatch`: the batch comparator tests the sign of the `long` difference of two keys (AlarmManagerService.java:714-718), which overflows and gives the wrong order for keys more than `Long.MAX_VALUE` apart; the model compares keys exactly.
- `Registry.AlarmManager.Remove`: when nothing matched, the batch list, keys, delay list and timers are stated unchanged, but the fields of each batch are only stated to hold the same alarms.
- `Registry.Recompute`: the rebatched alarm keeps the usage vector and interval slack it was registered with. In the source every rebatch goes through `setImplLocked`, which builds a new `Alarm` stamped with the current elapsed time (AlarmManagerService.java:815-816, 2629-2630, 1152-1153). A one-shot alarm's `register2Trigger` is then recomputed from that time (1873-1874), which shrinks its interval, and the usage is read afresh from the wakeup records (1902-1910). Both can change time similarity, the delay order and so the similarity policy's batching; the model does not capture that.
- `Registry.NextOccurrence`: the next occurrence of a repeating alarm keeps the usage vector and interval slack of the first `Set`. In the source it is a new `Alarm` through `setImplLocked` (AlarmManagerService.java:1798-1800, 2807-2809), and its usage and perceivability are read live from the wakeup records (1902-1910), which the previous delivery's finish may have updated. Its interval is unaffected, because a repeating alarm's `register2Trigger` is its period (1873).
- The alarm thread, the handler, `synchronized` locking and the time-change and uninstall receivers are not modelled. Each modelled operation is one atomic step.
- Native calls (`init`, `close`, `set`, `waitForAlarm`) are not modelled. Arming a timer appends to `Registry.Driver`'s list of armed timers.
- `Registry.AlarmManager.Set`: a null operation and the caller's work source are not modelled. `DEBUG_VALIDATE`, `DISABLE_GOOGLE_LOCATION_ALARM` and `OBSERVATION_APP_BEHAVIOR` are constant false in the source, so their branches are dropped. The recorded hardware usage and the interval slack are inputs.
- `Registry.AlarmManager.Place`: during a rebatch and a trigger, the `removeLocked(operation)` inside `setImplLocked` has nothing to remove, because operations are distinct and the alarm has just been taken out. Those paths call `Place` directly.
- Wake-lock work sources, `ActivityManagerNative.noteWakeupAlarm` and the `/proc` reads of `initialRecord` and `finishRecord` are not modelled. A finished broadcast's wakeup event is an input to `WakeHold.Tracker.Finish`.
- `Resources.ResourceService.FocusChanged`: the source reads the second-newest focus event and throws when fewer than two exist. The requires states that the call is made only when two exist.
- `Resources.ResourceService.IsServeNotification`: the daily dump to a file and the buffered-notification policy behind `USE_ORIGINAL_POLICY` are not modelled. That flag is constant true, so requests are always served.
- Dumps, logging, `toString` and the statistics pretty-printers are not modelled.
- The commented-out reverse search in `attemptCoalesceLockedHoward` and the maximum-connected-component policy are not modelled.
