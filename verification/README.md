# Verified models of three concurrent C programs

Three programs of the repository, each modelled as a transition system whose runs are arbitrary sequences of steps, and
each also written as an imperative Dafny class over arrays whose methods are proved to do what the steps do.

**The user-level thread scheduler (`sp2024-hw3-MaxWutw/src`).** Up to 99 threads running `fibonacci`, `pm` or `enroll`
share one processor. One step is a stretch of the current thread from the place of its last `setjmp` to its next
`thread_yield` or jump to the scheduler; at a yield an arbitrary boolean says whether a signal enters the scheduler. A
woken thread goes on inside `read_lock` or `write_lock` without being counted, a sleeper goes on at `thread_setup` with
`keepgo` set, and the waiting queue is kept exactly as stored, with `size` as its tail index and a scan that does not
wrap.

- `threads.dfy`: control blocks, the macros, the routines; `scheduler.dfy`: one pass, one step, whole runs.
- `scheduler_invariant.dfy`, `scheduler_safety.dfy`: the invariant over lock counters, queues and program points, no
  deadlock, thread conservation, the all-or-none scan.
- `scheduler_locks.dfy`: what each stretch of enroll does about the locks, and exact counts; `scheduler_order.dfy`: the
  order of the ready queue.
- `scheduler_deadlock.dfy`: the exact number of enroll threads up to which there is no deadlock and every run ends;
  `scheduler_exclusion.dfy`: the exact number up to which the lock keeps readers and writers apart.
- `scheduler_progress.dfy`: every run ends; `scheduler_timing.dfy`: turn in the ready queue, length of sleeps;
  `scheduler_outputs.dfy`, `scheduler_enroll.dfy`: what a thread prints does not depend on the scheduling.
- `kernel.dfy`: class `Kernel`, the globals as arrays and indices changed in place.

Runs are those of every command line that `main.c` admits. Each lock wait moves the tail of the waiting queue, and the
scan stops working once the tail has wrapped; `scheduler` then returns with exactly the threads of the waiting queue left
behind. With at most 51 enroll threads the waits stay below 100 in every run, so this never happens; with 52 to 99 there
is a run in which it does. Every run returns, under any signals: only turns of the idle thread that no signal ends are
not counted. Counters and printed values of fibonacci and pm are 32-bit ints that wrap, so a loop with n < 1 ends too,
after n + 2^32 rounds. Because a woken thread is not counted, the lock keeps readers and writers apart only as long as
there is a single enroll thread.

**The thread pool for matrix products (`sp2024-hw4-MaxWutw`).** Workers, one frontend thread as in `main.c`, a ring of
100 works, one mutex and one condition variable. One step is one section under the mutex or one cell write outside it.
`pthread_cond_wait` releases the mutex and blocks in one step and may wake spuriously; `pthread_cond_signal` wakes an
arbitrary blocked thread, which may be the frontend or a worker.

- `tpool.dfy`: states and steps; `tpool_split.dfy`: how a request is cut into works; `tpool_invariant.dfy`: products,
  conservation, wake-ups; `tpool_history.dfy`: first in, first out; `tpool_progress.dfy`: bounded runs, when
  `tpool_synchronize` waits in vain, when the ring is large enough; `tpool_runs.dfy`: which jobs can hang, and how many
  works can be unfinished after `tpool_synchronize`; `tpool_signals.dfy`: who is woken and when; `tpool_output.dfy`:
  what `main.c` prints; `tpool_monitor.dfy`: class `TPool` and the matrix loops; `tpool_program.dfy`: class `Program`,
  whole runs on the stored ring.

The queue of the model is a sequence that grows, so it is the ring's only in runs in which it never holds more than 100
works; `Fits` says so of a run, and the results on products and order are for such runs. Exact conditions replace
promises that the code does not keep for all inputs. The unchecked ring can overflow exactly when a job has more than 100
works. A job can hang in `tpool_synchronize` exactly when it has at least two workers and a request. When
`tpool_synchronize` returns, any number of works from none up to one for each worker can be unfinished, so `main.c`,
which prints at that point, can print a cell wrong exactly when the cell is not 0 and, with one worker, belongs to the
last work; the products are complete when `tpool_destroy` has returned.

**The write side of the seat booking server (`sp2024-hw1-MaxWutw`).** Many clients, five train files of 80 bytes. One
event is a connection, a disconnection or time-out, or one line of input of one client. Line 395 of `server.c` takes the
train index from another request's buffer, so the index is an arbitrary valid one in each event, and everything is stated
about the client's train file, not its shift id.

- `booking.dfy`: files, records and requests; `booking_requests.dfy`: what each line of input does; `booking_sets.dfy`:
  a simple server over sets of seats, which the server refines; `booking_invariant.dfy`: what a request keeps;
  `booking_history.dfy`: whole runs, ownership, where every '1' and '2' comes from; `booking_orphans.dfy`: which seats
  can be lost; `booking_visits.dfy`: seats entered twice, full trains; `booking_info.dfy`: the booking info read back;
  `booking_server.dfy`: class `SeatServer`, the tables and files changed in place.

A '2' cell is not given back when its client closes; that is proved as it is: the seat stays locked for ever, and every
free seat can be lost in this way.

`dafny verify dfyconfig.toml` checks everything.

## Model

| member | source | states |
|---|---|---|
| SchedulerDeadlock.EnrollBoundIsExact | sp2024-hw3-MaxWutw/src/scheduler.c:105-121 | deadlock freedom, with its exact bound: every run, under any signals, of every command line with e enroll threads returns only with all threads exited, if and only if e <= 51 |
| SchedulerSafety.NoDeadlock | sp2024-hw3-MaxWutw/src/scheduler.c:105-121 | when `scheduler` returns every created thread has exited, so nobody is left in the waiting queue that the return test never looks at |
| SchedulerSafety.LeftBehindWhenWrapped | sp2024-hw3-MaxWutw/src/scheduler.c:66-121 | for every command line: when `scheduler` returns every thread has exited if and only if the waiting queue has not wrapped, and the threads that have not are exactly those in it |
| SchedulerSafety.WrappedForGood | sp2024-hw3-MaxWutw/src/scheduler.c:66-82 | a step, with or without a pass, from a good state in which the tail of the waiting queue has wrapped below the head leaves it so: the scan looks at nothing, whatever the lock counts, and the head stays |
| SchedulerDeadlock.CrowdDeadlocks | sp2024-hw3-MaxWutw/src/scheduler.c:66-82 | the counterexample beyond the bound: for each e in 52..99 and every time slice, a command line and signals under which `scheduler` returns while threads 3..e wait for ever, because the tail of the waiting queue wraps and the scan does not; with a slice longer than the run (`SLOW`, 1000 seconds) the two signals are SIGTSTP |
| SchedulerSafety.WaitsBounded | sp2024-hw3-MaxWutw/src/thread_tool.h:122-150 | the counting argument for the bound 51: all waits for locks together are fewer than 100, because a thread that waits for both locks needs three counted acquisitions |
| SchedulerSafety.DoubleWaiterNeedsThreeCounts | sp2024-hw3-MaxWutw/src/thread_tool.h:137-150 | from the lock counters alone: whoever is about to wait to write after having waited to read does so only when at least three acquisitions were counted |
| SchedulerSafety.EveryReachableStateIsGood | sp2024-hw3-MaxWutw/src/scheduler.c:28-144 | the invariant in every state of every run of every command line: `write_count` is 0 or 1, 1 implies `read_count` = 0 and a live counted writer; `read_count` is at most the number of live counted readers; while the waiting queue has not wrapped, which with at most 51 enroll threads it never does, a waiting reader implies `read_count` = 0 and the tail is the number of waits so far |
| SchedulerExclusion.ExclusionIsExact | sp2024-hw3-MaxWutw/src/thread_tool.h:124-146 | in every run of every command line with e enroll threads no thread is in its write section together with another in its read or write section, if and only if e <= 1 |
| SchedulerExclusion.TwoWriters | sp2024-hw3-MaxWutw/src/thread_tool.h:139-146 | the run that breaks it, for each e in 2..99 and every time slice: a writer woken behind a reader is not counted, and the former reader finds both counts 0 |
| SchedulerLocks.CountsAreExact | sp2024-hw3-MaxWutw/src/thread_tool.h:122-160 | in every run of every command line, as long as no thread has had to wait for a lock, `read_count` is the number of threads in their read section, `write_count` the number in their write section, and one of the two sections is empty |
| SchedulerLocks.WriteLockIs | sp2024-hw3-MaxWutw/src/thread_tool.h:137-150 | for every enroll thread, whatever its arguments, in a good state: at write_lock it goes on into its section, counted, if and only if both counts are 0; otherwise it jumps to the scheduler, last in the waiting queue, with both counts as they were |
| SchedulerLocks.ReadLockIs | sp2024-hw3-MaxWutw/src/thread_tool.h:122-135 | likewise at read_lock: it goes on, counted, if and only if `write_count` is 0, and otherwise is last in the waiting queue with both counts as they were |
| SchedulerLocks.ReadUnlockIs | sp2024-hw3-MaxWutw/src/thread_tool.h:152-155 | read_unlock lowers `read_count` by exactly one, or leaves it at 0, and changes nothing else but the thread's place and the output |
| SchedulerLocks.WriteUnlockIs | sp2024-hw3-MaxWutw/src/routine.c:107-110 | write_unlock leaves `write_count` 0 and `read_count` as it was, and the thread has exited |
| SchedulerLocks.WokenIs | sp2024-hw3-MaxWutw/src/thread_tool.h:125-131 | a thread woken inside read_lock or write_lock goes into its section with both counts as they are |
| SchedulerLocks.FirstVisitIs | sp2024-hw3-MaxWutw/src/routine.c:77-84 | an enroll thread that comes first to thread_setup is asleep for its seconds and one time slice, and nothing else has changed but the output |
| SchedulerSafety.EveryWaitScanIsAllOrNone | sp2024-hw3-MaxWutw/src/scheduler.c:66-82 | in every pass of every run the lock-wait scan wakes all waiting threads in queue order, leaving the queue empty, exactly when both counts are 0 and the queue has not wrapped, and nobody otherwise |
| SchedulerInvariant.WaitScanAllOrNone | sp2024-hw3-MaxWutw/src/scheduler.c:66-82 | the same for any state that satisfies the invariant: the unconditional increment of `head` removes exactly the threads made ready |
| SchedulerSafety.ThreadConservation | sp2024-hw3-MaxWutw/src/scheduler.c:84-141 | in every run of every command line a thread that has not exited is in exactly one of current, ready, waiting (the array read as a ring) and sleeping, once; an exited one is nowhere; the skip of sleeping threads at dispatch never skips; the ready ring never fills |
| SchedulerInvariant.PassKeeps | sp2024-hw3-MaxWutw/src/scheduler.c:28-144 | one pass entered in a good state resumes the first ready thread in a good state and keeps the order of the others, or returns with nobody live but the threads in a waiting queue that has wrapped; the idle thread is resumed only if somebody sleeps |
| SchedulerInvariant.DispatchKeeps | sp2024-hw3-MaxWutw/src/scheduler.c:105-143 | the dispatch: first ready thread, else idle if somebody sleeps, else return, and then nobody is live but those in a wrapped waiting queue |
| SchedulerOrder.PassOrder | sp2024-hw3-MaxWutw/src/scheduler.c:50-141 | the whole ready queue after a pass entered in a good state: those ready before, then the sleepers whose time is over by id, then all waiting threads in order if the scan wakes them, then the thread that yielded; the first of these is resumed |
| SchedulerOrder.DueIs | sp2024-hw3-MaxWutw/src/scheduler.c:50-64 | those sleepers are listed exactly, by increasing id: the ones with at most a time slice left |
| SchedulerOrder.FirstPass | sp2024-hw3-MaxWutw/src/scheduler.c:122-143 | the first pass resumes the thread created first, with the others ready in the order of creation |
| SchedulerSafety.SegmentKeeps | sp2024-hw3-MaxWutw/src/routine.c:9-111 | every stretch of every routine, from any resume point, keeps the invariant up to its next yield or jump to the scheduler |
| SchedulerSafety.StepKeeps | sp2024-hw3-MaxWutw/src/thread_tool.h:96-120 | a stretch followed, or not, by a pass at the yield keeps the invariant |
| SchedulerProgress.EveryRunEnds | sp2024-hw3-MaxWutw/src/scheduler.c:50-143 | under any pattern of signals, for every command line: the steps of a run other than unsignalled turns of the idle thread are at most as many as the command line fixes, and once a run has had that many `scheduler` has returned, with every thread exited if and only if the waiting queue has not wrapped, hence always with at most 51 enroll threads |
| SchedulerProgress.RunEndsUnderAlarm | sp2024-hw3-MaxWutw/src/scheduler.c:36 | with an alarm that lets idle turn at most m times in a row, for any m, `scheduler` returns, in the same sense, after a number of steps that m and the command line fix |
| SchedulerTiming.PassesAreBounded | sp2024-hw3-MaxWutw/src/scheduler.c:28-144 | in every run of every command line, under any signals, the passes after the first are at most as many as the command line fixes |
| SchedulerDeadlock.AlwaysEndsExactly | sp2024-hw3-MaxWutw/src/scheduler.c:105-121 | every run of every command line with e enroll threads ends, with every thread exited, if and only if e <= 51 |
| SchedulerOutputs.LoopTakesItsRounds | sp2024-hw3-MaxWutw/src/routine.c:38-42 | a fibonacci or pm thread exits in no run shorter than the rounds that bring its counter to n: n, or n + 2^32 for n < 1, where the counter has to wrap |
| SchedulerProgress.StepOutcome | sp2024-hw3-MaxWutw/src/scheduler.c:50-64 | the measure (rounds and segments left over all threads, plus sleep left) falls at every step except an unsignalled turn of the idle thread, which changes nothing but the output |
| SchedulerTiming.DispatchedInTurn | sp2024-hw3-MaxWutw/src/scheduler.c:122-140 | a thread with k threads ahead of it in the ready queue is the one that the (k+1)-th pass from now resumes, in every run |
| SchedulerTiming.EnrollSleeps | sp2024-hw3-MaxWutw/src/routine.c:80-84 | an enroll thread told to sleep s seconds, and awakened by nobody, is asleep after a run if and only if the passes made, its own included, times the slice are less than s + time_slice |
| SchedulerTiming.SleepLasts | sp2024-hw3-MaxWutw/src/scheduler.c:50-64 | the same for a sleeper with any time left, in both directions |
| SchedulerTiming.StepSleeps | sp2024-hw3-MaxWutw/src/scheduler.c:54-63 | each pass takes one time slice from a sleeper, and wakes it with keepgo set when nothing is left |
| SchedulerOutputs.OutputsAsIfAlone | sp2024-hw3-MaxWutw/src/routine.c:20-73 | in every run, for every int n, the lines of a fibonacci or pm thread are a prefix of what it prints alone, and it has exited if and only if they are those of all its rounds (n of them for n >= 1) with the exit line |
| SchedulerEnroll.EnrollOutputsAsIfAlone | sp2024-hw3-MaxWutw/src/routine.c:75-111 | in every run the lines of an enroll thread are the first few of the same six, fixed by its arguments and the quotas; it has exited if and only if they are all six |
| SchedulerEnroll.EnrollTells | sp2024-hw3-MaxWutw/src/routine.c:81-110 | every stretch of enroll prints exactly its next lines, or none when it has to wait for a lock |
| SchedulerEnroll.EnrollAwakes | sp2024-hw3-MaxWutw/src/thread_tool.h:170-178 | a resumed enroll thread readies exactly the sleeper it names, with keepgo, at the end of the ready queue, and then is counted as a reader or queued, by `write_count` alone |
| SchedulerOutputs.FibExactUpTo46 | sp2024-hw3-MaxWutw/src/routine.c:28-34 | the 32-bit value printed in round i is the Fibonacci number F_i if and only if i <= 46 |
| SchedulerOutputs.PmNext | sp2024-hw3-MaxWutw/src/routine.c:51-62 | the closed form (i+1)/2 for odd i and -i/2 for even i is the sum 1 - 2 + 3 - ... up to i, and fits the 32-bit value for every int argument |
| SchedulerOutputs.FibRoundSpeaks | sp2024-hw3-MaxWutw/src/routine.c:24-34 | one round of the loop, on the values kept over a switch and with a counter that wraps, yields the next Fibonacci number modulo 2^32, or 1 once the counter is negative |
| SchedulerOutputs.PmRoundSpeaks | sp2024-hw3-MaxWutw/src/routine.c:51-62 | one round of pm, with a counter that wraps, yields the next partial sum of 1 - 2 + 3 - ... modulo 2^32 |
| KernelState.Kernel.PushReady | sp2024-hw3-MaxWutw/src/scheduler.c:58-59 | the write at the tail index (the field `size`) and the wrapped increment append to the FIFO sequence that the ring holds, as long as it has a free slot |
| KernelState.Kernel.DropHead | sp2024-hw3-MaxWutw/src/scheduler.c:138-139 | the wrapped increment of the head takes the first of that sequence off |
| KernelState.Kernel.ScanSleepers | sp2024-hw3-MaxWutw/src/scheduler.c:50-64 | the loop over the sleeping set, in place, does to the model what `SleepScan` does |
| KernelState.Kernel.ScanWaiters | sp2024-hw3-MaxWutw/src/scheduler.c:66-82 | the loop over the waiting array, in place, does what `WaitScan` does |
| KernelState.Kernel.FindSleeper | sp2024-hw3-MaxWutw/src/scheduler.c:106-112 | the search loop says exactly whether some slot of the sleeping set is taken |
| KernelState.Kernel.SkipAsleep | sp2024-hw3-MaxWutw/src/scheduler.c:123-133 | the loop that drops ready threads found sleeping |
| KernelState.Kernel.DispatchNext | sp2024-hw3-MaxWutw/src/scheduler.c:105-141 | dispatch on the ring: who runs next, or return |
| KernelState.Kernel.RunScheduler | sp2024-hw3-MaxWutw/src/scheduler.c:28-144 | a whole call of `scheduler` on the globals is one `Pass` |
| KernelState.Kernel.LockRead | sp2024-hw3-MaxWutw/src/thread_tool.h:122-135 | read_lock: queue and block if and only if `write_count` is not 0, and otherwise count |
| KernelState.Kernel.LockWrite | sp2024-hw3-MaxWutw/src/thread_tool.h:137-150 | write_lock: queue and block if and only if either count is not 0, and otherwise set the count |
| KernelState.Kernel.AwakeThread | sp2024-hw3-MaxWutw/src/thread_tool.h:170-178 | thread_awake: a sleeper is made ready with keepgo set, anybody else is left alone |
| KernelState.Kernel.RunFibonacci | sp2024-hw3-MaxWutw/src/routine.c:24-42 | one stretch of fibonacci on the control block |
| KernelState.Kernel.RunPm | sp2024-hw3-MaxWutw/src/routine.c:50-71 | one stretch of pm on the control block |
| KernelState.Kernel.RunEnrollStart | sp2024-hw3-MaxWutw/src/routine.c:77-92 | enroll from its setup point: sleep the first time, awake and lock when resumed with keepgo |
| KernelState.Kernel.RunSegment | sp2024-hw3-MaxWutw/src/routine.c:9-111 | a stretch of whichever thread is current |
| KernelState.Execute | sp2024-hw3-MaxWutw/src/main.c:118-138 | the whole program on arrays, for every command line and any signals: it reaches the state that the run of the model reaches; if the scheduler has returned every thread has exited if and only if the waiting queue has not wrapped, and always with at most 51 enroll threads |
| KernelState.RoomInEveryRun | sp2024-hw3-MaxWutw/src/scheduler.c:58-59 | the ready ring overflows in no run of any command line |
| PoolInvariant.EveryInterleavingComputesTheProducts | sp2024-hw4-MaxWutw/tpool.c:18-28 | when `tpool_destroy` has returned, after any interleaving in which the ring of 100 slots does not overflow, every `c[r][row][col]` is the entry of the product of a and the original b, and completed = total_works |
| PoolInvariant.ApplyKeeps | sp2024-hw4-MaxWutw/tpool.c:9-36 | every step of every thread keeps the invariant: each cell still to be pushed, queued, held or right; works conserved; no wake-up lost |
| PoolInvariant.NoLostWakeup | sp2024-hw4-MaxWutw/tpool.c:9-17 | in every reachable state a queued work has a worker that is not blocked; after `terminate` no worker is blocked; a worker returns only then and with the queue empty |
| PoolSignals.SignalsExactly | sp2024-hw4-MaxWutw/tpool.c:30-35 | who is woken by a step from any reachable state: completing a work wakes somebody if and only if all works announced so far are completed with it and somebody is blocked; a push if and only if somebody is blocked; either wakes just one thread; tpool_destroy wakes all blocked workers; no other step wakes anybody; whoever is woken does its test again |
| PoolInvariant.SynchronizeLeavesAtMostOnePerWorker | sp2024-hw4-MaxWutw/tpool.c:99-105 | when `tpool_synchronize` returns the queue is empty and total_works - completed is the number of workers still holding a work, one each |
| PoolRuns.UnfinishedExactly | sp2024-hw4-MaxWutw/tpool.c:99-105 | for every job, u works can be unfinished when `tpool_synchronize` returns, in a run that does not overflow the ring, if and only if 0 <= u <= the number of workers and u <= the number of works |
| PoolOutput.PrintedWrongExactly | sp2024-hw4-MaxWutw/main.c:63-75 | `main.c` prints the results before `tpool_destroy`: for every job and every cell, some run that does not overflow the ring prints the cell wrong if and only if the entry of the product is not 0 and there are at least two workers or the cell belongs to the last work of the job |
| PoolHistory.WorkConservation | sp2024-hw4-MaxWutw/tpool.c:18-21 | in every reachable state the works ever queued are as many as those queued, held and completed; those handed out as many as held and completed |
| PoolHistory.FirstInFirstOut | sp2024-hw4-MaxWutw/tpool.c:88-93 | in every interleaving in which the ring does not overflow the works handed out, followed by those still queued, are the works queued, in the same order |
| PoolProgress.RunsAreBounded | sp2024-hw4-MaxWutw/tpool.c:9-36 | every run takes at most a number of steps that the job fixes, plus two for each spurious wake-up |
| PoolProgress.StuckIsDoneOrHangs | sp2024-hw4-MaxWutw/tpool.c:99-115 | a run that cannot go on has ended with `tpool_destroy` returned, or hangs in `tpool_synchronize` with all works completed |
| PoolRuns.HangsExactlyWithTwoWorkers | sp2024-hw4-MaxWutw/tpool.c:30-35 | a job, of any requests, can hang in `tpool_synchronize`, in a run that does not overflow the ring, if and only if it has at least two workers and at least one request: the single signal may go to an idle worker |
| PoolProgress.OneWorkerNeverHangs | sp2024-hw4-MaxWutw/tpool.c:99-105 | with one worker a blocked `tpool_synchronize` implies completed < total_works and a worker able to step, and every run that cannot go on is done |
| PoolProgress.RingSufficesExactly | sp2024-hw4-MaxWutw/tpool.c:88-91 | some interleaving queues more works than the ring has slots if and only if the job has more than 100 works in all |
| PoolProgress.FitsExactly | sp2024-hw4-MaxWutw/tpool.c:88-91 | the queue stays within the 100 slots in every state of every run of a job if and only if the job has at most 100 works in all |
| PoolProgress.TooLargeOverflows | sp2024-hw4-MaxWutw/main.c:58-60 | a job that `main.c` admits and that does not fit: one worker, matrices of size 11, one request cut into 101 works |
| PoolSplit.ExactSplit | sp2024-hw4-MaxWutw/tpool.c:69-96 | for every total and every num_works >= 1 each cell belongs to exactly one work, nothing else to any, and works differ by at most one cell |
| PoolSplit.CellsAreEntries | sp2024-hw4-MaxWutw/tpool.c:23-27 | i -> (i / n, i % n) is one-to-one from 0..n*n-1 onto the entries |
| PoolSplit.CalculationIsProduct | sp2024-hw4-MaxWutw/tpool.c:62-68 | calculation on a row of a and a row of the transposed copy is the dot product of that row of a and a column of b |
| PoolSplit.CalculationFits | sp2024-hw4-MaxWutw/main.c:52-56 | with entries in -100..100, and n * n an int, no partial sum leaves the range of int |
| PoolMonitor.TransposeMatrix | sp2024-hw4-MaxWutw/tpool.c:62-68 | the copying loops leave the transpose |
| PoolMonitor.Calculate | sp2024-hw4-MaxWutw/main.c:13-17 | the accumulating loop computes the sum of the products |
| PoolMonitor.ComputeWork | sp2024-hw4-MaxWutw/tpool.c:23-27 | the loop of a worker writes its cells, start to end - 1, and leaves every other entry of c as it was |
| PoolMonitor.TPool.QueueRequest | sp2024-hw4-MaxWutw/tpool.c:69-96 | the loop of tpool_request queues the works of the split, in order, behind what the ring holds, through any number of wraps |
| PoolMonitor.TPool.PushWork | sp2024-hw4-MaxWutw/tpool.c:88-93 | a push on a ring that is not full appends to the queue that the ring holds |
| PoolMonitor.FullRingLosesTheOldest | sp2024-hw4-MaxWutw/tpool.c:88-91 | the unchecked push on a full ring: the work takes the place of the oldest queued one, which is lost, and is handed out next |
| PoolMonitor.TPool.EnterSection | sp2024-hw4-MaxWutw/tpool.c:10-21 | the first section of a worker: wait, return, or take the oldest work |
| PoolMonitor.TPool.FinishSection | sp2024-hw4-MaxWutw/tpool.c:30-35 | the second section of a worker: it counts the work, and signals if and only if then `completed >= total_works` |
| PoolMonitor.TPool.MustWait | sp2024-hw4-MaxWutw/tpool.c:99-105 | the test of tpool_synchronize: wait exactly while the queue is not empty |
| PoolMonitor.TPool.Terminate | sp2024-hw4-MaxWutw/tpool.c:109 | tpool_destroy raises `terminate` and changes nothing else |
| PoolProgram.Program.Broadcast | sp2024-hw4-MaxWutw/tpool.c:110 | every blocked worker goes back to its test, and no other is touched |
| PoolProgram.Program.FrontTurn | sp2024-hw4-MaxWutw/tpool.c:60-120 | one step of the frontend, on the ring and the positions of the threads as stored |
| PoolProgram.Program.WorkerTurn | sp2024-hw4-MaxWutw/tpool.c:7-38 | one step of a worker, likewise |
| PoolProgram.RunJob | sp2024-hw4-MaxWutw/main.c:26-86 | a job under any schedule that does not overflow the ring, as none does with at most 100 works: the stored ring, the positions of the threads and the matrices go through the run of the model; when the frontend has returned the matrices are the products |
| BookingHistory.SeatOwnership | sp2024-hw1-MaxWutw/server.c:446-577 | after any run: no two clients on the same train file hold the same seat, chosen implies '2' and paid implies '1' in the file, `num_of_chosen_seats` is the number of chosen entries, every file keeps its form and position 0 |
| BookingHistory.NextKeeps | sp2024-hw1-MaxWutw/server.c:276-581 | every connection, disconnection and line of input keeps that invariant |
| BookingHistory.CellHistory | sp2024-hw1-MaxWutw/server.c:456-576 | each event moves a cell only '0' to '2', '2' to '0' or '2' to '1'; a '2' goes away only by the client that had the seat chosen, and a '2' or '1' comes only with the acting client holding the seat so |
| BookingHistory.PaidForever | sp2024-hw1-MaxWutw/server.c:456-481 | a '1' cell stays '1' in every run |
| BookingHistory.OnlyTheHolderMoves | sp2024-hw1-MaxWutw/server.c:488-577 | over a run without an event of client i, client i is as it was and so are the cells of all the seats it holds |
| BookingHistory.OnesCountPayments | sp2024-hw1-MaxWutw/server.c:453-485 | after any run the number of '1' cells over all files is the initial number plus the chosen seats of every payment made |
| BookingHistory.TwosAccountedFor | sp2024-hw1-MaxWutw/server.c:498-576 | after any run a cell is '2' if and only if a live client has it chosen, or it was '2' at the start or was left by a client that closed; never both |
| BookingHistory.OrphansOverRuns | sp2024-hw1-MaxWutw/server.c:339-350 | a '2' that no live client holds arises exactly when the client that chose it closes, and stays for ever |
| BookingOrphans.SeatCanBeLostExactly | sp2024-hw1-MaxWutw/server.c:339-350 | from the start of the server some run leaves a seat chosen by a client that has closed if and only if the seat is free and there is a client |
| BookingOrphans.SeatIsLost | sp2024-hw1-MaxWutw/server.c:498-519 | that run: connect, ask for the shift of the train, choose the seat, disconnect |
| BookingHistory.LeftSeatIsLockedForever | sp2024-hw1-MaxWutw/server.c:541-543 | after any run, a client that asks for such a seat is answered "locked" and nothing changes |
| BookingInvariant.WriteSeatIs | sp2024-hw1-MaxWutw/server.c:501-519 | a seat write changes only byte 2 * (seat - 1), keeps the form of the file and leaves it at position 0 |
| BookingInvariant.OccupiedIs | sp2024-hw1-MaxWutw/server.c:115-134 | `occupied` answers 0 if and only if some seat is '0', and leaves the file as it was |
| BookingInvariant.HandleOk | sp2024-hw1-MaxWutw/server.c:345-578 | a line of input leaves a good client and a good file, moves each seat together with its cell by choosing a free one, cancelling or paying a chosen one, and leaves the file alone when it ends the session |
| BookingRequests.PaymentIs | sp2024-hw1-MaxWutw/server.c:446-487 | "pay": the client is in the booked state afterwards if and only if it had a chosen seat; then exactly its chosen seats become paid, with '1' in the file; if it had none, client and file are as before and it is told so |
| BookingRequests.SeatNumberIs | sp2024-hw1-MaxWutw/server.c:488-577 | a seat number 1..40: a seat the client has chosen is given back and its cell is '0'; else a '0' seat is chosen and its cell '2'; else nothing changes and the answer tells a paid seat from a locked one; no other seat or byte changes and the client stays at its seats |
| BookingRequests.NoSeatIs | sp2024-hw1-MaxWutw/server.c:488-497 | 0, or no number, ends the session |
| BookingRequests.ShiftIs | sp2024-hw1-MaxWutw/server.c:382-413 | each of the five shift ids: the client gets the train, with the number it sent as its shift id, if and only if the file has a '0' cell; otherwise it is as before and told that the shift is fully booked |
| BookingRequests.NoShiftIs | sp2024-hw1-MaxWutw/server.c:383-391 | any other text but "exit" ends the session |
| BookingRequests.AfterPayingIs | sp2024-hw1-MaxWutw/server.c:425-445 | after a payment "seat" leads back to the seats with everything kept, and any other text ends the session |
| BookingRequests.ExitIs | sp2024-hw1-MaxWutw/server.c:345-351 | "exit" ends the session in every state and leaves the file alone |
| BookingSets.RunRefines | sp2024-hw1-MaxWutw/server.c:276-584 | refinement: over every run the server goes through the states of a simple server over sets of seat numbers, which has no files, offsets, counts or loops, and gives its answers, the booking infos read back |
| BookingSets.NextRefines | sp2024-hw1-MaxWutw/server.c:330-581 | the same for one event of any kind |
| BookingSets.BoardDetermines | sp2024-hw1-MaxWutw/server.h:52-57 | nothing is lost in it: two good states of the server with the same sets are the same, byte for byte |
| BookingVisits.EnteredTwice | sp2024-hw1-MaxWutw/server.c:498-576 | a client that enters a free seat, and after any events of others enters it again, is as it was and the seat is free; with nothing in between the whole server is as it was |
| BookingVisits.BoardedWithAFreeSeat | sp2024-hw1-MaxWutw/server.c:396-413 | over every run from the start, a client that is on board a train got there by its own choice of one of the five shifts at a moment at which the train had a free seat |
| BookingInvariant.PutKeeps | sp2024-hw1-MaxWutw/server.c:488-577 | what one client does leaves every other client's seats and cells as they were |
| BookingInfo.BookingInfoRoundTrip | sp2024-hw1-MaxWutw/server.c:195-232 | for every record the printed lists parse back, strictly increasing, to exactly the chosen and the paid seats, and stay within 512 bytes |
| BookingInfo.AtoiDecimal | sp2024-hw1-MaxWutw/server.c:488 | atoi undoes the printing of every number |
| BookingServer.SeatServer.IsOccupied | sp2024-hw1-MaxWutw/server.c:121-133 | the scanning loop of `occupied` |
| BookingServer.SeatServer.CheckSeat | sp2024-hw1-MaxWutw/server.c:71-103 | `checkCurr`: what the byte of the seat says, and the position back at 0 |
| BookingServer.SeatServer.PrintTrainInfo | sp2024-hw1-MaxWutw/server.c:188-235 | the two loops build the lists of the booking info |
| BookingServer.SeatServer.ShiftRequest | sp2024-hw1-MaxWutw/server.c:382-421 | the choice of a shift: the train, the shift id and the seat state if and only if the file has a '0' cell, else fully booked |
| BookingServer.SeatServer.PayRequest | sp2024-hw1-MaxWutw/server.c:446-487 | the paying loop on the tables and the file, and the booked state if and only if a seat was chosen |
| BookingServer.SeatServer.SeatRequest | sp2024-hw1-MaxWutw/server.c:488-577 | adding and cancelling a seat |
| BookingServer.SeatServer.Request | sp2024-hw1-MaxWutw/server.c:345-578 | one line of input, with the answers it gets; on the sets it does what the simple server does |
| BookingServer.SeatServer.Accept | sp2024-hw1-MaxWutw/server.c:594-618 | a new connection, on a free descriptor |
| BookingServer.SeatServer.Serve | sp2024-hw1-MaxWutw/server.c:276-584 | the server loop over any events reaches the state of the run, sends its answers, keeps the invariant, and goes through the sets of the simple server |

## Left out

- SchedulerSafety.NoDeadlock: for more than 51 enroll threads it is false (SchedulerDeadlock.CrowdDeadlocks); SchedulerSafety.LeftBehindWhenWrapped says for every command line when threads are left.
- SchedulerProgress.EveryRunEnds: `alarm`, `sleep` and real time are not modelled, so nothing bounds the unsignalled turns of the idle thread, which are counted apart; RunEndsUnderAlarm is for any bound on them.
- SchedulerOutputs.LoopTakesItsRounds: beyond its range the signed counter of the C program is undefined; the model wraps it.
- SchedulerOutputs.FibExactUpTo46: beyond i = 46 the sum of the C program overflows a signed int, which is undefined; the model wraps to 32 bits there.
- SchedulerTiming.EnrollSleeps: seconds and time slices are unbounded integers, so an overflow of s + time_slice is not modelled.
- SchedulerEnroll.EnrollOutputsAsIfAlone: the class name in the line "acquire write lock" comes from locals that need not survive the switch, so the line is modelled without it; products of quotas are unbounded integers.
- SchedulerEnroll.EnrollTells: the class name is not part of the line "acquire write lock", as above.
- KernelState.Execute: a control block is named by its thread id; `setjmp`, `longjmp`, signal masks and handlers, the "caught" lines, and freeing control blocks are not modelled.
- Quotas of the two classes in enroll: `q_p` and `q_s` are never decremented.
- Argument parsing of the scheduler (`main.c:58-111`), apart from the limits that `ValidConfig` states.
- PoolInvariant.EveryInterleavingComputesTheProducts: entries are unbounded integers; PoolSplit.CalculationFits shows that the sums fit an int for the entries and sizes that `main.c` admits, up to n = 46340. `main.c` frees the matrices between `tpool_synchronize` and `tpool_destroy`; memory is not modelled, so the matrices are taken to last.
- PoolHistory.FirstInFirstOut: what becomes of the order once the ring has overflowed is not modelled.
- PoolProgress.RingSufficesExactly: beyond 100 works the model lets the queue grow, where the ring would be overwritten. So PoolInvariant.ApplyKeeps, PoolInvariant.NoLostWakeup, PoolInvariant.SynchronizeLeavesAtMostOnePerWorker, PoolHistory.WorkConservation, PoolProgress.RunsAreBounded, PoolProgress.StuckIsDoneOrHangs and PoolProgress.OneWorkerNeverHangs describe the code only in runs that fit the ring; PoolProgress.FitsExactly shows which jobs have only such runs.
- PoolProgram.Program.FrontTurn: a push on a full ring, which the program makes without a test, is not a step; PoolMonitor.FullRingLosesTheOldest says what it does to the works.
- PoolMonitor.TPool.QueueRequest: the whole request in one piece, with no worker in between; with workers in between it is PoolProgram.RunJob.
- PoolMonitor.TPool.Terminate: the broadcast is PoolProgram.Program.Broadcast, since blocked threads are not a field of the pool.
- PoolProgram.RunJob: the sections that hold the mutex are each one indivisible step; the cells are written one by one into matrices kept as values, while PoolMonitor.ComputeWork writes them in place.
- PoolOutput.PrintedWrongExactly: the printing is one instant, between `tpool_synchronize` and `tpool_destroy`, not a series of reads during which workers go on.
- Thread creation, allocation, the text that is printed and reading the input in `sp2024-hw4-MaxWutw`.
- BookingInvariant.HandleOk: seat numbers below 0 or above 40 index outside the record in `addORcancel`, and 0 with exactly one chosen seat takes the cancel branch with a negative offset, which ends the process; these inputs are not events of the model. Input 0 (or no number) with any other number of chosen seats is an event. A shift choice for which line 395 computes no valid index is none either: the buffer it reads is another client's, and if that client has sent nothing the index is 0 - 902001, outside `trains`.
- BookingHistory.NextKeeps: the same inputs are left out, as no event.
- BookingServer.SeatServer.SeatRequest: the same inputs are left out.
- BookingServer.SeatServer.Request: the same inputs are left out.
- BookingHistory.SeatOwnership: train files start in their 80-byte form with any seats taken; failing reads, writes and seeks, and other processes that change the files under `fcntl` locks, are not modelled.
- BookingServer.SeatServer.Serve: sockets, `select`, time-outs, banners and the splitting of input into lines become the events; descriptors below the first connection are not told apart.
- BookingInfo.BookingInfoRoundTrip: the lists and the shift id are kept, the fixed text around them is not.
- The READ_SERVER branch of `server.c`.
- `sp2024-hw2-MaxWutw`: `friend.c` does not compile as it is, and `utility.c` is a plain list that would only add easy members.
- `checker.py`, `testSpace`, Makefiles and test data.
