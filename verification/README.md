# A verified model of the Pintos thread kernel

This project models the scheduler, the synchronisation primitives and the timer of a
Pintos kernel, and proves what they promise over every run. `dafny verify dfyconfig.toml`
checks all of it.

**Scheduler and alarm clock.** `Scheduler` is the kernel as a step machine: one event is
one call of a kernel function, or one timer interrupt, together with the thread switch it
ends with. The same machine covers priority scheduling and the multi-level feedback queue
(`mlfqs`). `Machine.Kernel` is the code itself: thread objects, run queues updated in
place, an array of 64 buckets, and one method per C function, each proved to take the
machine from one state to the next. `SchedulerInvariant` and `SchedulerTheorems` prove the
invariant, who is dispatched and how soon, and the bounds of the arithmetic.
`MlfqsAccounting` proves that the machine's `load_avg` and `recent_cpu` follow the documented
recurrences at the documented ticks, and `MlfqsPriorities` which priority every thread has
after every event, each time in terms of the formula. `Preemption` proves exactly when an event
takes the processor from the running thread, `LifeCycle` which events dispatch, when a yield
gives way, and what becomes of every thread's status, and `QueueOrder` that each priority is
served first come, first served, between two re-orderings of the buckets.
`SchedulerRefinement` proves that the sorted ready and sleep lists cannot be told apart from
a reference machine (`scan`) that keeps arrival order and scans for the most urgent thread;
`AlarmClock` proves that sleepers wake at the right interrupt.

**Arithmetic.** `FixedPoint` and `MlfqsMath` hold the 17.14 numbers with C's truncating
division, the three recurrences, their bounds over runs of any length, and a 32/64-bit
version that yields `None` on overflow. `Buckets` and `OrderedList` hold the theory of the
bucket array, of ordered insertion, and of stable sorting.

**Donation.** `Donation` is `donate_priority` on the wait-for graph and `DonationBooks` what
`lock_acquire`, `lock_release` and `refresh_priority` write. `DonationRuns` is the machine of
their runs, cut at every point where another thread may come in: inside `sema_down`, between
taking the semaphore's unit and recording the holder, and between `sema_up` and
`refresh_priority`. Beside the recorded fields it keeps what is the case: who owns each lock's
unit, and who waits for which lock. A priority is *right* if it is the highest base priority
among the thread and all who really wait for it, directly or through others; a thread inside
`lock_release` may be too high, never too low. `DonationExact` proves when priorities are
right: over every run from the start, they are right in every state *if and only if*

- each thread that takes a lock's unit is at least as high as all others who wait for it;
- each thread that calls `lock_acquire` while the unit is taken and the holder not yet
  recorded, and so sleeps without donating, finds an owner at least as high;
- no donation is cut short at a waiting thread whose own wait is not recorded, or leads to
  an owner not yet recorded, unless the donation is no higher than that owner;
- no `refresh_priority` falls below a thread that sleeps unrecorded on a lock still owned;
- no other write, by `thread_set_priority` or under MLFQS by `mlfqs_update_priority`, changes
  the priority of a thread outside `lock_release`, or brings one inside below its base
  priority or a thread that waits for it.

Each can be checked before the step, and the kernel ensures none of them: `DonationFailures`
has, for each of the five, a run from the start in which every step before meets its guard and
one step then leaves a thread below another that waits for it. The comment on each says how
the priority scheduler comes to make the run. `LockKernel.LockTable`
is the code on thread and lock objects, one method for each stretch between those points,
proved against the machine.

**Semaphores, locks, condition variables.** `Semaphores` and `Locks` are step machines whose
steps are the stretches of code that run with interrupts disabled, so a run is any
interleaving, barging included. A lock's semaphore goes through the semaphore run of the lock's
own events, so the results on semaphores hold of it; nobody who sleeps in `lock_acquire` is
forgotten. The methods of `LockKernel.LockTable` are tied to both lock machines: each also
takes its step of module `Locks`. `Synch` is the code on semaphore and condition objects,
proved against those steps. `SemaKernel` joins semaphores to the scheduler: `sema_down` and
`sema_up` on the kernel objects, in thread and in interrupt context, and the proof that the
threads on a semaphore stay blocked whatever else happens. Lock and condition code blocks and
readies threads by their status alone. A waiter list is sorted when a thread enters and not
when a priority changes: `sema_up` wakes the most urgent threads until the list is empty if
and only if the list is sorted by the current priorities (`DrainIsByUrgencyIff`). A thread
that has released the lock in `cond_wait` and not yet gone to sleep has an empty semaphore
list, of which `cond_signal` takes the front: it is well-defined if and only if at most one
thread has queued or all of them sleep (`Synch.CondSignal`, with the run `SignalTooEarly`).

**Calibration.** `Calibrate` proves `timer_calibrate` as a successive approximation on
32-bit words.

Reading notes. The list library and src/threads/interrupt.c are not part of this model; their
usual meaning is: `list_insert_ordered` inserts before the first strictly greater element,
`list_max` returns the first maximum, and a yield asked for by `intr_yield_on_return` is made
when the interrupt handler returns. A contended `lock_acquire` links one list element of the
thread into two lists (src/threads/synch.c:234 and :79), which src/threads/thread.h:84-89
rules out; the model keeps `lock->waiters` and `semaphore.waiters` as separate sequences of
threads and claims nothing about the raw links. Since `donate_priority` never moves a thread that is
already queued, the scheduler machine has no contended locks, and donation is proved on the
wait-for graph alone. `thread_create` is a sequence of events: `Enroll`, then the check
at the end of `sema_up` and the `Refresh` of the `lock_release` in `allocate_tid`, which
resets the creator's priority to its base priority in both modes and may yield, then `Wake`
and the closing check. Where a comment and the code disagree the code is followed:
`timer_calibrate` announces eight more bits and refines nine, and `lock_release` announces
that it wakes the highest-priority waiter, while the waiter list is sorted only when a
thread is inserted. The machine starts once the idle thread has introduced itself.

## Model

| member | source | states |
|---|---|---|
| FixedPoint.TruncDivIsTheCQuotient | src/threads/fixed_point.h:9 | C's `/` is the one quotient whose remainder is smaller than the divisor and has the sign of the dividend, whatever the signs |
| FixedPoint.NearestWithinHalf | src/threads/fixed_point.h:11-16 | rounding is within half a unit, ties away from zero, and recovers an integer after any smaller perturbation |
| MlfqsMath.LoadAvgStaysBounded | src/threads/thread.c:822-829 | if never more than R threads compete, 0 <= load_avg <= 16383 * R for ever |
| MlfqsMath.LoadAvgTracksExact | src/threads/thread.c:822-829 | the fixed-point average never exceeds the documented recurrence 59/60 * load + ready/60 over the reals and lags it by at most 60 * (R + 1) units, for runs of any length |
| MlfqsMath.LoadAvgClimbs | src/threads/thread.c:822-829 | with a constant ready count load_avg is nondecreasing from 0 on |
| MlfqsMath.LoadAvgDrains | src/threads/thread.c:822-829 | with nothing ready a positive load_avg strictly falls at each update and stays at 0 once there |
| MlfqsMath.DecayCoefficientBelowOne | src/threads/thread.c:785-787 | the decay coefficient lies in [0, F) for every non-negative load |
| MlfqsMath.DecayKeepsCpuBounded | src/threads/thread.c:778-804 | one decay, after up to 100 charged ticks, leaves recent_cpu between -20 * (2R + 1) and 240R + 20 units |
| MlfqsMath.NoOverflow | src/threads/fixed_point.h:8-26 | within the bounds for R <= 545, no intermediate of any update leaves C's int or int64_t |
| MlfqsMath.OverflowBeyond545 | src/threads/fixed_point.h:20 | from 546 competitors on there is a recent_cpu within the proved bounds whose next charge leaves int |
| MlfqsMath.DominanceIsKept | src/threads/thread.c:778-820 | a thread with less recent_cpu and less nice keeps both leads through every sequence of decays and never gets the lower priority, negative values and clamping included |
| MlfqsMath.PriorityForIsTheFormula | src/threads/thread.c:809-820 | the computed priority is 63 - q - 2 * nice, clamped to 0..63, where q is recent_cpu / 4 truncated to an integer as C does |
| MlfqsMath.RecentCpuIsTheFormula | src/threads/thread.c:785-791 | for load_avg >= 0 the new recent_cpu is coef * recent_cpu + nice, where coef is 2 * load_avg / (2 * load_avg + 1) and both the quotient and the product are truncated as C does |
| MlfqsMath.LoadAvgIsTheFormula | src/threads/thread.c:822-829 | the new load_avg is 59/60 * load_avg + ready/60 with the two fractions and the product truncated as C does |
| MlfqsMath.ClampNice | src/threads/thread.c:493-496 | a nice value below -20 becomes -20, one above 20 becomes 20, and others are left alone |
| OrderedList.InsertIsFifo | src/threads/thread.c:278 | ordered insertion puts a thread last among its equals and moves nobody else |
| OrderedList.StableSortIsStable | src/threads/thread.c:360-364 | a list fed by ordered insertions keeps arrival order within each priority |
| OrderedList.SortedIsUnique | src/threads/thread.c:360-364 | a sorted list is determined by its priority classes |
| OrderedList.FirstMaxHeadsTheSort | src/threads/synch.c:424-425 | removing the first maximum of an arrival queue removes the head of its stable sort |
| OrderedList.SplitCommutesWithSort | src/devices/timer.c:141-148 | splitting at a threshold and sorting commute |
| Buckets.RebucketIsSound | src/threads/thread.c:878-896 | re-bucketing loses and invents nobody, puts everybody into his own bucket, and keeps the order within each priority of the old buckets joined from 0 to 63 |
| Buckets.RebucketIsIdentityInPlace | src/threads/thread.c:878-896 | if all threads were in place the pass changes nothing |
| SchedulerInvariant.StepKeepsInvariant | src/threads/thread.h:84-89 | every event keeps: a ready thread other than idle is queued exactly once, at its priority, all other threads not at all; only the current thread runs; lists are sorted; every sleeper is blocked and asleep once; nice values are in range, and under MLFQS every priority has a bucket |
| SchedulerTheorems.BootIsFine | src/threads/thread.c:103-138 | the invariant holds when the scheduler starts |
| SchedulerTheorems.ReachableStatesKeepInvariant | src/threads/thread.c:245-288 | the invariant holds in every state of every run |
| SchedulerTheorems.ReadyThreadsIsTheCrowd | src/threads/thread.c:847-858 | mlfqs_ready_threads counts exactly the threads other than idle that are ready or running |
| SchedulerTheorems.DispatchTakesHighest | src/threads/thread.c:656-666 | a dispatch picks a thread that no queued thread outranks, and idle only if nobody is queued |
| SchedulerTheorems.StepDispatchesHighest | src/threads/thread.c:722-735 | so does the dispatch that ends any event |
| SchedulerTheorems.PriorityModeIsStrict | src/threads/thread.c:346-357 | in priority mode no queued thread outranks the running one after a priority change, the end of an uncontended lock_release, a preemption check such as those that end sema_up and thread_create, or any dispatch |
| SchedulerTheorems.FourthTickRestoresOrder | src/devices/timer.c:228-245 | after every fourth interrupt, its yield included, the running thread is idle or outranks all queued threads, and the buckets match the new priorities |
| SchedulerTheorems.DispatchWithinASlice | src/threads/thread.c:160-162 | any four consecutive interrupts contain a dispatch, after which no queued thread outranks the running one |
| SchedulerTheorems.RunKeepsCpuBounded | src/threads/thread.c:620-630 | over whole runs with at most R competitors, load_avg and every recent_cpu keep bounds that depend on R and on ticks mod 100, through ticks, decay and inheritance by children |
| SchedulerTheorems.NoRunOverflows | src/threads/thread.c:778-834 | from boot, with at most 545 competitors, every MLFQS computation of every run fits C's types |
| MlfqsAccounting.StepCountsTicks | src/devices/timer.c:228 | the clock advances by one at each timer interrupt and at no other event |
| MlfqsAccounting.StepLoad | src/devices/timer.c:240-244 | load_avg is updated by exactly the interrupts that bring the clock to a multiple of 100, with the number of threads other than idle that are ready or running after the wake-ups; no other event touches it |
| MlfqsAccounting.MachineTracksLoad | src/threads/thread.c:822-834 | over every run from boot load_avg is the recurrence from 0, fed with the crowds at the full seconds, and lies within 60 * (R + 1) units below the documented average over the reals |
| MlfqsAccounting.TickRecentCpu | src/devices/timer.c:229-244 | an interrupt charges the running thread one tick and nobody else; at full seconds every thread but idle then decays, by the load_avg from before the interrupt; idle never changes |
| MlfqsAccounting.FullSecondDecays | src/threads/thread.c:785-791 | the same in terms of the formula, in the state after the whole interrupt; load_avg is never negative by SchedulerTheorems.RunKeepsCpuBounded |
| MlfqsAccounting.StepRecentCpu | src/threads/thread.c:620-630 | no other event changes a recent_cpu, and a new thread has that of its creator |
| MlfqsPriorities.WakePriorities | src/threads/thread.c:265-288 | under MLFQS an unblocked thread gets 63 - recent_cpu / 4 - 2 * nice, truncated and clamped; in priority mode it keeps its priority, and all others keep theirs in both modes |
| MlfqsPriorities.SetNicePriorities | src/threads/thread.c:490-502 | thread_set_nice clamps the value to -20..20, gives the running thread the formula's priority for the new value, and changes nobody else |
| MlfqsPriorities.WrittenPriorities | src/threads/thread.c:474-480 | thread_set_priority and the refresh of an uncontended lock_release write the running thread's priority, with the argument and the base priority, and nothing else |
| MlfqsPriorities.EnrollRecord | src/threads/thread.c:599-635 | a new thread is blocked, inherits nice and recent_cpu under MLFQS with the priority that follows from them, and otherwise has the priority asked for; nobody else's record and no list changes |
| MlfqsPriorities.OtherPriorities | src/threads/thread.c:432-454 | blocking, yielding, sleeping, a preemption check and the exit of another thread change no priority, base priority or nice value |
| MlfqsPriorities.TickPriorities | src/devices/timer.c:228-239 | under MLFQS, at every fourth tick each thread but idle has the formula's priority for the recent_cpu just charged and not yet decayed; at other ticks only the threads that the interrupt wakes get it; in priority mode nothing changes |
| Preemption.ChecksPreemptIff | src/threads/thread.c:346-357 | the check that ends sema_up and thread_create in both modes, thread_set_priority and lock_release in priority mode and thread_set_nice under MLFQS takes the processor away if and only if some queued thread has a strictly higher priority; then the highest runs on a new slice and the other is queued, and otherwise nothing changes |
| Preemption.OtherChecksDoNothing | src/threads/thread.c:860-876 | the check of thread_set_priority and lock_release under MLFQS, and that of thread_set_nice in priority mode, never yield |
| Preemption.TickPreemptsIff | src/threads/thread.c:160-162 | an interrupt ends in a dispatch if and only if it ends the slice of four ticks or, under MLFQS at a fourth tick, a queued thread has a strictly higher new priority; otherwise the thread goes on with its slice |
| LifeCycle.DispatchesIff | src/threads/thread.c:722-735 | the events that call schedule are exactly: blocking, exiting, yielding, sleeping for a positive time, an interrupt that preempts, and a check that finds somebody queued of strictly higher priority |
| LifeCycle.YieldGivesWayIff | src/threads/thread.c:432-454 | round robin: a thread that yields, or whose slice is over, goes on running if and only if it strictly outranks every queued thread |
| LifeCycle.StepStatus | src/threads/thread.h:84-89 | the status of every thread after every event: the thread that loses the processor is ready unless it blocks, sleeps or exits, only its own wake-up readies a blocked thread, the dispatched one runs, and all others stay as they were; threads come by thread_create and go by thread_exit only |
| QueueOrder.StepLine | src/threads/thread.c:762-776 | in both modes the threads of a priority form a FIFO line: woken, preempted and yielding threads join its end, and a dispatch takes its front |
| QueueOrder.RunLine | src/threads/thread.c:656-666 | over every run, in priority mode or between two re-orderings of the buckets, the threads of each priority are dispatched in exactly the order in which they were queued |
| QueueOrder.ReformedLine | src/threads/thread.c:878-896 | at a fourth tick each new line takes its threads from the old lines, the lowest line first, in their order there |
| SchedulerInvariant.WakeHeadsKeepsCore | src/devices/timer.c:136-153 | at every pop thread_unblock's assertion holds, the invariant is kept, and afterwards no sleeper is due |
| AlarmClock.WakeHeadsIsSplit | src/devices/timer.c:136-153 | popping the sorted list while its head is due wakes exactly the threads that are due |
| AlarmClock.TickWakesExactlyTheDue | src/devices/timer.c:228-233 | one interrupt removes exactly the due threads from the sleepers and readies them; all who remain have wakeup_tick > ticks |
| AlarmClock.NeverWokenEarly | src/devices/timer.c:97-120 | whatever the others do, a sleeper stays blocked until an interrupt reaches its deadline |
| AlarmClock.AlarmIsExact | src/devices/timer.c:97-120 | a sleeper is woken at the first interrupt after its insertion with ticks >= start + n and never before, even if ticks pass between reading start and disabling interrupts |
| SchedulerRefinement.BootMirrors | src/threads/thread.c:755-760 | kernel and scanning reference start in matching states |
| SchedulerRefinement.StepMirrors | src/threads/thread.c:432-454 | every event keeps kernel and reference matched: same state, kernel lists the stable sorts of the arrival queues |
| SchedulerRefinement.RunMirrors | src/devices/timer.c:122-153 | along every run both enable the same events, run the same thread and give every thread the same status |
| SchedulerRefinement.MirrorFront | src/threads/thread.c:661-664 | the head of the kernel's ready list is the first arrival among the most urgent in the reference's queue, and popping it leaves the lists matched |
| SchedulerRefinement.ReferenceTakesLongestWaiting | src/threads/thread.c:656-666 | the reference dispatches the first arrival among the most urgent |
| Machine.Kernel.constructor | src/threads/thread.c:103-138 | the objects start in the machine's boot state: main runs at its base priority in both modes, and the idle thread has introduced itself |
| Machine.Kernel.InsertByPriority | src/threads/thread.c:278 | the insertion loop is the specified ordered insertion |
| Machine.Kernel.MlfqsInsert | src/threads/thread.c:773-776 | the thread is last in the bucket of its priority |
| Machine.Kernel.MlfqsNextThreadToRun | src/threads/thread.c:762-771 | the scan pops the front of the highest non-empty bucket, or picks idle |
| Machine.Kernel.NextThreadToRun | src/threads/thread.c:656-666 | picks and dequeues the machine's next thread |
| Machine.Kernel.Schedule | src/threads/thread.c:722-735 | dispatches it and starts a new slice |
| Machine.Kernel.MlfqsReadyThreads | src/threads/thread.c:847-858 | the counting loop computes the machine's ready count |
| Machine.Kernel.MlfqsReorganizeQueues | src/threads/thread.c:878-896 | the two loops over a temporary list compute the stable re-bucketing |
| Machine.Kernel.HighestBucket | src/threads/thread.c:861-867 | the scan finds the highest non-empty bucket |
| Machine.Kernel.MlfqsCheckPreemption | src/threads/thread.c:860-876 | yields, or asks for a yield on return inside an interrupt, exactly when a bucket above the current priority is non-empty |
| Machine.Kernel.CheckReadyList | src/threads/thread.c:346-357 | yields, or asks for a yield on return inside an interrupt, exactly when the first ready thread outranks the current one |
| Machine.Kernel.ThreadYield | src/threads/thread.c:432-454 | requeues the current thread unless it is idle, and dispatches |
| Machine.Kernel.ThreadBlock | src/threads/thread.c:244-255 | takes the step `Block` |
| Machine.Kernel.ThreadUnblock | src/threads/thread.c:265-288 | readies a blocked thread, with a fresh priority under MLFQS, and keeps the invariant |
| Machine.Kernel.MlfqsUpdatePriority | src/threads/thread.c:809-820 | recomputes one priority and never that of idle |
| Machine.Kernel.InitThread | src/threads/thread.c:599-635 | the new thread inherits nice and recent_cpu under MLFQS and is enrolled, blocked |
| Machine.Kernel.ThreadCreate | src/threads/thread.c:188-208 | takes the step `Enroll` |
| Machine.Kernel.RefreshCurrent | src/threads/synch.c:307-311 | the end of an uncontended lock_release, as in allocate_tid, takes the step `Refresh`: the priority falls back to the base priority, and the thread yields if it no longer is the highest |
| Machine.Kernel.WakeThread | src/threads/thread.c:265-288 | thread_unblock on its own takes the step `Wake` |
| Machine.Kernel.LaunchThread | src/threads/thread.c:226-234 | the end of thread_create takes the steps `Wake` and `CheckPreemption` |
| Machine.Kernel.ReturnFromInterrupt | src/threads/thread.c:350-351 | a requested yield is made on return from the interrupt, by the step `YieldCpu` |
| Machine.Kernel.ThreadExit | src/threads/thread.c:325-342 | takes the step `Exit` |
| Machine.Kernel.CheckPreemptionEvent | src/threads/synch.c:133-137 | takes the step `CheckPreemption` |
| Machine.Kernel.ThreadSetNice | src/threads/thread.c:490-502 | takes the step `SetNice` |
| Machine.Kernel.ThreadSetPriority | src/threads/thread.c:474-480 | takes the step `SetPriority` |
| Machine.Kernel.InsertByDeadline | src/devices/timer.c:124-132 | the insertion loop orders by deadline, earliest first, FIFO among equals |
| Machine.Kernel.TimerSleep | src/devices/timer.c:97-120 | takes the step `Sleep` |
| Machine.Kernel.ThreadTickHandler | src/threads/thread.c:141-163 | charges the running thread unless idle and asks for a yield when the slice is over |
| Machine.Kernel.TimerWakeup | src/devices/timer.c:136-153 | the loop wakes the due heads; thread_unblock's assertion holds each time |
| Machine.Kernel.MlfqsUpdatePriorityAll | src/threads/thread.c:836-843 | recomputes all priorities, then re-buckets |
| Machine.Kernel.MlfqsUpdateRcpuLa | src/threads/thread.c:831-834 | decays every recent_cpu once, by the old load_avg, and then updates it |
| Machine.Kernel.TimerHandler | src/devices/timer.c:228-245 | computes tick, wake-ups, fourth-tick and per-second updates in this order, the decay with the old load_avg, and asks for a yield exactly when the slice is over or a bucket above the current priority is non-empty |
| Machine.Kernel.TimerInterrupt | src/devices/timer.c:226-245 | takes the step `Tick`, the yield on return included |
| Semaphores.NoWakeupIsEverLost | src/threads/synch.c:67-138 | over every interleaving, while threads wait the value is at most the number of woken threads that have not yet rechecked; nobody is queued twice, or queued and woken |
| Semaphores.QuietMeansExhausted | src/threads/synch.c:67-138 | once every woken thread has rechecked, threads wait only on a semaphore at 0 |
| Semaphores.UnitsAreConserved | src/threads/synch.c:67-138 | value = initial value + ups - successful downs at all times |
| Semaphores.DrainIsByUrgencyIff | src/threads/synch.c:125-131 | draining a waiter list without further arrivals wakes a thread of maximum current priority each time if and only if the list is sorted by the current priorities at the start |
| Semaphores.UpWakesMostUrgent | src/threads/synch.c:79 | while priorities stay fixed, sema_up wakes the longest-waiting thread of maximum priority |
| Semaphores.LaterRiseIsIgnored | src/threads/synch.c:125-131 | a concrete run in which sema_up passes over a waiter whose priority rose after it was queued |
| Locks.LockStepKeepsInvariant | src/threads/synch.c:213-314 | every step keeps: value 1, no owner and no holder, or value 0, exactly one owner, and holder null or that owner |
| Locks.MutualExclusion | src/threads/synch.c:213-314 | over every interleaving, the windows around sema_down and in lock_try_acquire included, at most one thread owns the lock |
| Locks.HolderIsOwner | src/threads/synch.c:282 | the thread that lock_release's assertion admits is the unique owner |
| Locks.FreeLockHasATaker | src/threads/synch.c:213-314 | a free lock with queued threads always has a woken thread about to try |
| Locks.NobodyIsForgotten | src/threads/synch.c:213-241 | in every reachable state the threads that sleep in lock_acquire, on either path, are exactly those queued on or woken from the semaphore |
| Locks.NobodyDropsOut | src/threads/synch.c:213-314 | from its lock_acquire to its own lock_release a thread owns the lock or is on its way to it, whatever the others do |
| Locks.ReleaseWakesTheFirst | src/threads/synch.c:303-305 | lock_release brings the semaphore from 0 to 1, wakes exactly the first waiter and keeps the others in order |
| Locks.LockRunsItsSemaphore | src/threads/synch.c:213-314 | over every run the lock's semaphore is the run of the semaphore events that the lock's events make |
| Locks.LockWakesMostUrgent | src/threads/synch.c:303-305 | over every run from lock_init units are conserved, and while priorities stay fixed lock_release wakes the longest-waiting thread of maximum priority |
| Donation.DonateWalks | src/threads/thread.c:372-387 | with one edge still out of order, the early-exit walk raises everybody reachable and nobody else and leaves all edges in order, on cyclic graphs too |
| Donation.EarlyExitIsFullWalk | src/threads/thread.c:372-387 | if no edge but the donor's own is out of order, donate_priority equals the full walk, and afterwards every edge is in order |
| DonationBooks.RefreshIsMax | src/threads/thread.c:391-415 | refresh_priority yields the maximum of the base priority and the priorities queued on held locks; the thread's own stale entry and old priority do not matter |
| DonationBooks.ListsMatchPointers | src/threads/synch.c:230-247 | lock->waiters minus the holder is exactly the set of threads whose waiting_lock is the lock, and locks_held matches holder |
| DonationRuns.StepIsCoherent | src/threads/synch.c:213-314 | every step keeps the agreement of lists and pointers; a recorded holder is the owner, an unrecorded owner is about to record itself, a waiting thread owns not what it waits for, a releasing thread waits for nothing |
| DonationRuns.TakingsBalanceReleases | src/threads/synch.c:213-314 | over every run each lock is taken as often as released, and once more while it has an owner |
| DonationRight.ChangeIsRightIff | src/threads/thread.c:391-415 | if one thread that waits for nobody changes its priority or gains and loses waiters, all priorities stay right if and only if it is at least as high as each thread that now waits for it, on cyclic graphs too |
| DonationRight.GrowthIsRightIff | src/threads/thread.c:372-387 | if edges are added and priorities only raised to that of a thread that waits, all are right if and only if no edge is out of order |
| DonationExact.TakeIsRightIff | src/threads/synch.c:224-228 | taking the unit, on either path, keeps all priorities right if and only if the taker is at least as high as everybody left waiting, asleep unrecorded or queued |
| DonationExact.SleepIsRightIff | src/threads/synch.c:224-226 | sleeping without a donation, because no holder is recorded, keeps all priorities right if and only if the owner is at least as high |
| DonationExact.QueueIsRightIff | src/threads/synch.c:229-240 | a contended acquire keeps all priorities right if and only if its donation is not cut short, deadlocks included |
| DonationExact.RecordStaysRight | src/threads/synch.c:242-247 | recording the holder keeps all priorities right |
| DonationExact.LetGoStaysRight | src/threads/synch.c:287-305 | letting go leaves nobody too low, and only threads inside lock_release too high |
| DonationExact.RefreshIsRightIff | src/threads/synch.c:308 | the refresh makes the releaser's priority right if and only if it does not fall below a thread that sleeps unrecorded on a lock it still owns |
| DonationExact.OverwriteIsRightIff | src/threads/thread.c:474-480 | a write to a priority that has nothing to do with locks keeps all priorities right if and only if it changes nothing, or hits a thread inside lock_release and leaves it no lower than its base priority and those who wait for it |
| DonationExact.StepIsRightIff | src/threads/synch.c:213-314 | a step keeps all priorities right if and only if its guard holds before it |
| DonationExact.RunIsRightIff | src/threads/synch.c:213-314 | from any coherent state with right priorities, a run keeps them right throughout if and only if every step meets its guard |
| DonationExact.DonationIsRightIff | src/threads/thread.c:372-415 | the same over every run from the start, when there are no threads; the runs include writes to priorities by thread_set_priority and, under MLFQS, mlfqs_update_priority |
| DonationExact.RightIsExact | src/threads/thread.c:389-390 | a thread outside lock_release with a right priority runs at exactly the highest base priority among itself and all who wait for it |
| DonationExact.RunsAreCoherent | src/threads/synch.c:213-314 | every run keeps the agreement of lists, pointers and owners |
| DonationExact.BooksAgree | src/threads/synch.c:230-302 | in every reachable state lock->waiters minus the holder are the threads whose waiting_lock is the lock, locks_held are the locks held, and a recorded holder is the owner |
| DonationFailures.BargingLosesDonation | src/threads/synch.c:224-228 | a run whose steps all meet their guards until a thread of priority 7 takes the lock before the woken one has run, which a donation has raised to 9 without moving it in the ready list: the taker stays at 7 |
| DonationFailures.WindowLosesDonation | src/threads/synch.c:240-245 | likewise, a thread of priority 9 calls lock_acquire between the down and the recording of the holder, of priority 5: it sleeps with no waiting_lock and donates nothing |
| DonationFailures.CutShortLosesDonation | src/threads/thread.c:372-387 | likewise, a donation of 9 stops at a thread that waits for a lock whose unit a thread of priority 7 has taken and not yet recorded |
| DonationFailures.RefreshLosesDonation | src/threads/synch.c:307-308 | likewise, a holder of priority 5, raised to 9 through another lock in the window before it is recorded, falls back to 5 when it releases that lock, below a thread of priority 7 that came in the window and sleeps unrecorded |
| DonationFailures.OverwriteLosesDonation | src/threads/thread.c:474-480 | likewise, the holder sets its own priority to its base priority and falls below its donor |
| LockKernel.LockTable.StartThread | src/threads/thread.c:599-635 | takes the step `Start` |
| LockKernel.LockTable.LockInit | src/threads/synch.c:194-203 | adds a lock that nobody owns or waits for, with its semaphore at 1 |
| LockKernel.LockTable.DonatePriority | src/threads/thread.c:372-387 | the recursion on objects computes the donation; its measure is the number of threads below the donated priority |
| LockKernel.LockTable.RefreshPriority | src/threads/thread.c:391-415 | the nested loops compute the refreshed priority and change nothing else |
| LockKernel.LockTable.LockAcquire | src/threads/synch.c:213-240 | takes the step `Acquire`, and in module Locks `AcquireFree` or `AcquireHeld`: the lock is taken, or the caller is blocked on its semaphore without a donation, or it is queued and has donated; on the first path one pass of sema_down is made, on the contended path the semaphore is not touched yet |
| LockKernel.LockTable.DownAfterWait | src/threads/synch.c:241 | one pass of a waiting thread through sema_down: the step `TakeUnit` exactly if the unit is free, otherwise it is queued and blocked; either way it is the pass that `Resume` and `DownHeld` make in module Locks |
| LockKernel.LockTable.RecordHolder | src/threads/synch.c:242-247 | takes the step `Record`, and `RecordHolder` of module Locks |
| LockKernel.LockTable.WithoutEntry | src/threads/synch.c:291-300 | the removal loop drops exactly the releaser's entries |
| LockKernel.LockTable.LockRelease | src/threads/synch.c:278-305 | takes the step `LetGo`, and `Release` of module Locks, ups the semaphore and readies its first waiter; thread_unblock's assertion holds, because every method keeps that each lock's semaphore is up exactly if nobody owns the lock, and that the threads on it are distinct, blocked, and wait for this lock |
| LockKernel.LockTable.FinishRelease | src/threads/synch.c:307-308 | takes the step `RefreshPriority` |
| LockKernel.LockTable.ThreadSetPriority | src/threads/thread.c:474-477 | takes the step `Overwrite` |
| Synch.InsertOrdered | src/threads/synch.c:79 | the insertion loop is the specified ordered insertion |
| Synch.SemaDownPass | src/threads/synch.c:75-83 | takes a unit or queues the caller, as the step machine says |
| Synch.SemaTryDown | src/threads/synch.c:92-111 | takes a unit if there is one |
| Synch.SemaPost | src/threads/synch.c:126-130 | takes the first waiter off the queue and adds a unit, as the step machine says |
| SemaKernel.ParkedStays | src/threads/thread.c:265-288 | no scheduler event but its own wake-up unblocks a blocked thread, puts it into the sleep list, or ends it |
| SemaKernel.WaitersStayBlocked | src/threads/synch.c:67-138 | over every run of scheduler events and semaphore calls, the scheduler invariant holds, no wake-up is lost, and every waiter is blocked, so thread_unblock's assertion holds in the next sema_up |
| SemaKernel.SemaDown | src/threads/synch.c:67-85 | one pass of the loop on kernel and semaphore objects takes the step `DownPass` |
| SemaKernel.SemaUp | src/threads/synch.c:117-138 | the whole of sema_up on kernel and semaphore objects, its preemption check included, takes the step `UpCall` |
| SemaKernel.SemaUpInInterrupt | src/threads/synch.c:117-138 | sema_up called by an interrupt handler takes the step `UpInInterrupt`, and asks for a yield on return exactly when a queued thread outranks the running one, or one was asked for before |
| Synch.LockTryDown | src/threads/synch.c:264-267 | lock_try_acquire up to sema_try_down takes the step `TryAcquire`, and succeeds exactly when the semaphore is up |
| Synch.LockTryRecord | src/threads/synch.c:268-269 | the rest of it takes the step `RecordHolder` |
| Synch.CondEnqueue | src/threads/synch.c:393-396 | the caller queues a new semaphore at 0, last, on which nobody sleeps yet |
| Synch.CondBlock | src/threads/synch.c:398 | a queued thread goes to sleep alone on its own semaphore, unless it has been signalled in the meantime |
| Synch.MostUrgent | src/threads/synch.c:345-361 | the list_max loop finds the first waiter of maximum priority if there is one waiter or all are asleep, and otherwise takes the front of an empty list |
| Synch.CondSignal | src/threads/synch.c:412-428 | well-defined if and only if at most one thread has queued or all are asleep; then exactly the first most urgent waiter is signalled, and woken if it sleeps |
| Synch.CondBroadcast | src/threads/synch.c:436-444 | under the same condition all waiters are signalled, each semaphore gains one unit and none is left; sleeping ones are woken in the stable descending-priority sort of their arrival order |
| Synch.SignalTooEarly | src/threads/synch.c:397-398 | a run in which one thread sleeps, a second has released the lock but not gone to sleep, and cond_signal takes the front of an empty list |
| Calibrate.OrIsAddition | src/devices/timer.c:72-73 | setting a bit with this bit and all lower ones clear adds it |
| Calibrate.DoubleUntilTooMany | src/devices/timer.c:62-67 | the first loop ends at the leading bit of the threshold; its assertion fails if and only if the threshold needs 32 bits |
| Calibrate.Refine | src/devices/timer.c:70-73 | the second loop ends with the ten leading bits of the threshold |
| Calibrate.TimerCalibrate | src/devices/timer.c:53-76 | the result is within high_bit / 512 below the threshold for thresholds from 1024 up to 2^31, and 1024 below that |

## Left out

- Machine.Kernel.ThreadCreate: page allocation and stack frames are not modelled, so it cannot fail; tid_lock is taken as uncontended, as contended locks are not part of the scheduler machine.
- Machine.Kernel.ThreadSetPriority: under MLFQS requires a priority that has a bucket, since the function does no range check and the run queue would be indexed with it; in priority mode any priority will do.
- Machine.Kernel.ThreadSetNice: in priority mode the bucket lists are never initialised (src/threads/thread.c:111-113) and the call would read them; the model takes them as empty.
- Machine.Kernel.TimerInterrupt: tick counters are unbounded; tick statistics are left out.
- Synch.CondBroadcast: assumes that priorities stay fixed while threads wait, and that threads which run between two wake-ups leave the remaining waiters alone.
- Semaphores.UpWakesMostUrgent: stated for fixed priorities; DrainIsByUrgencyIff is the exact condition when they change.
- LockKernel.LockTable.LockRelease: the run queue is not part of it: a woken thread is made ready by its status, and the yields in sema_up and at the end are scheduler events; in between, other steps of the donation machine may come.
- Synch.CondSignal: readies the woken thread by its status; the run queue and the preemption check of the sema_up inside it are those of SemaKernel.
- The release and re-acquisition of the lock in cond_wait belong to the lock models.
- Thread exit in the donation model: its threads start and never end; a thread that waits for nothing and holds nothing leaves no trace in it.
- lock_try_acquire in the donation model: it does not put the lock on locks_held, so that the later lock_release unlinks an element that is in no list, which the list library does not define; nothing calls it, and it is covered by the mutual exclusion results.
- Contended locks in the scheduler machine: a donation changes the priority of a queued thread without moving it, so the order of the run queue holds for runs without them.
- The raw links of lock->waiters under contention (one list element in two lists).
- thread_get_load_avg and thread_get_recent_cpu: reading them is not modelled; the latter's multiplication by 100 can overflow within the proved bounds once more than 4 threads compete.
- effective_priority and more_priority, which nothing in the scheduler uses.
- thread_yield inside timer_wakeup outside interrupt context: timer_wakeup has no such caller.
- Context switches, interrupt hardware, stack and magic checks, idle-thread start-up: the machine starts when the idle thread has introduced itself and main runs again.
- Busy-wait delays, real-time sleeps, printing, statistics, sema_self_test, and the USERPROG, FILESYS and VM parts.
- The measurement in too_many_loops: it is taken as a threshold on the number of loops.
