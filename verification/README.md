# A verified model of the eventuals concurrency engine

This project models the synchronization and concurrency core of the eventuals library and
proves what its code relies on: over every interleaving, for any number of contexts,
fibers, readers and writers.

- **Locks and queues.** `LockProtocol` takes `Lock` apart into its atomic loads, stores and
  weak compare-and-swaps and proves that every interleaving is a run of the abstract
  `FifoLock`. `SubmitQueue` does the same for `Submit` and its single consumer, the event
  loop's `Check` or a pool worker. Both rest on the list theory in `Chains`, and
  `LockProgress` and `SubmitProgress` prove that neither gets stuck.
  `IntrusiveLists` holds the same lists and the lock as in-place code on linked nodes.
- **Waiting.** `Monitor` is `Wait` and `Notify` of condition variables on the FIFO lock; `Pipe`
  is the pipe with its two conditions, as a class and as a machine of queued operations,
  and `PipeOnMonitor` proves that this machine is a run of the monitor.
- **Concurrent streams.** `ConcurrentCore` is the type-erased adaptor, `Concurrent` the
  machine of upstream, fibers, downstream, interrupts and done, `ConcurrentEnding` its
  progress and `ConcurrentHistory` what its flags mean, `Reorder` the reorder adaptor, and `ConcurrentOrdered` composes the two machines and proves that the whole is
  the sequential flat-map.
- **Joins, clock, allocation.** `Joins`, `VirtualClock`, `Pinning`, `CompletionQueues`.
- **Error inference.** `TypeLists` is the type-list arithmetic of the templates and
  `ErrorInference` proves `ErrorsFrom` sound for the run-time propagation of signals.

Conventions. A protocol is a datatype of states with a function `Next` on labelled steps;
a run is any sequence of steps, a step that is not enabled does nothing, and theorems
quantify over all sequences. A null pointer is an absent key or `None`. A `CHECK` is a
predicate that is proved to hold, or a precondition where the source demands it of its
caller. Objects that the source updates in place are classes whose methods state their
new state as a function of the old one, and the theorems are about that function.

Five statements turned out to be false of the code and are stated as they are:

- `Release` by a lone owner clears `acquired` only after the swap that lets others in. If
  the owner's continuation waits again and is notified in between, the CHECK against a
  recursive acquire aborts (`LockProtocol.EarlyReuseHappens`). No other CHECK of the lock
  can fail, and this one fails only then (`LockProtocol.OnlyEarlyReuseAborts`).
- `Catch` does drop errors: handlers match on the type with its reference, the branch that
  forwards is removed on the decayed type, so an error passed to `Fail` as an lvalue is
  neither handled nor forwarded (`ErrorInference.LvalueErrorIsDropped`). This happens
  exactly under the condition in `ErrorInference.DropsExactlyLvalues` and never to rvalues
  (`ErrorInference.RvaluesAreNeverDropped`).
- The fork check of the pool's `ForkJoin` subtracts in `size_t`, so a mask longer than the
  number of CPUs wraps around and the check passes although no CPU is left
  (`Pinning.GuardCanWrap`). The check can be trusted exactly for masks that are no longer
  than the number of CPUs (`Pinning.GuardIsTrustworthyIff`).
- An `expected` whose error is a variant is inferred to raise `RuntimeError` while it raises
  the alternatives of the variant; inference is right exactly if every alternative is
  `RuntimeError` (`ErrorInference.ExpectedIsSoundIff`).
- What an `.all` handler raises is not inferred, as a comment in the source warns
  (`ErrorInference.RaisingAllHandlerIsMissed`, `ErrorInference.AllHandlerIsSoundIff`).

## Model

| member | source | states |
|---|---|---|
| `Chains.ChainUnique` | eventuals/lock.h:130-130 | the pointers from `head_` have one reading: a finite, duplicate-free queue |
| `FifoLock.OwnsAfterExactlyKReleases` | eventuals/lock.h:102-115 | in the abstract lock a waiter with k ahead of it is at the front after exactly k releases, and k - d are ahead after d |
| `LockProtocol.StepSimulates` | eventuals/lock.h:29-117 | every atomic step of AcquireFast, AcquireSlow and Release keeps the invariant and is a step or a stutter of the abstract lock |
| `LockProtocol.RefinesFifoLock` | eventuals/lock.h:29-117 | every interleaving, with spurious failures, refines the abstract FIFO lock |
| `LockProtocol.ListIsQueue` | eventuals/lock.h:82-107 | after any run the list reached from `head_` is the abstract queue and nothing else |
| `LockProtocol.HolderOwnsLock` | eventuals/lock.h:36-127 | from the end of an acquire to the start of its release the holder is alone, is the oldest node, and `owner_` is its context |
| `LockProtocol.OnlyEarlyReuseAborts` | eventuals/lock.h:30-109 | over every interleaving no null pointer is followed and one CHECK only can fail: `!waiter->acquired`, exactly when a waiter is acquired again between the swap that removed it and the store that clears its flag |
| `LockProtocol.EarlyReuseHappens` | eventuals/lock.h:87-100 | wherever a waiter holds the lock alone, its release, an acquire by another context and a notification can be interleaved so that this CHECK fails |
| `LockProtocol.EarlyReuseFromStart` | eventuals/lock.h:52-100 | a run from the initial state that ends in the failing CHECK: a continuation is notified, acquires by `AcquireSlow`, waits again, and is notified a second time before its release has cleared the flag |
| `LockProtocol.FastPathOnlyWhenFree` | eventuals/lock.h:35-45 | the fast path succeeds exactly when nobody holds or waits for the lock |
| `LockProtocol.LockIsNeverLost` | eventuals/lock.h:102-115 | while the list is not empty its oldest waiter is active, or one releaser resumes it in at most three steps |
| `LockProtocol.FreeLockHasNoOwner` | eventuals/lock.h:87-99 | `owner_` is null whenever the lock is free, and while a lone holder tries its swap |
| `LockProgress.ReleaseCompletes` | eventuals/lock.h:78-117 | wherever in `Release` an interleaving has left a waiter, a swap lost to a newcomer included, a bounded number of its own steps take it out of the queue and leave the next one holding the lock |
| `LockProgress.AcquireCompletes` | eventuals/lock.h:29-76 | wherever in an acquire a waiter is, at most 7 steps of its own bring it to the back of the queue, and to holding the lock if it was free |
| `LockProtocol.ServedInOrder` | eventuals/lock.h:29-117 | in any run a waiter with k ahead of it cannot hold the lock before k further releases and is at the front after exactly k |
| `IntrusiveLists.Lock.AcquireFast` | eventuals/lock.h:29-50 | takes a free lock and sets `owner_`, otherwise changes nothing |
| `IntrusiveLists.Lock.AcquireSlow` | eventuals/lock.h:52-76 | joins as the newest waiter and reports acquiring exactly when the list was empty |
| `IntrusiveLists.Lock.Release` | eventuals/lock.h:78-117 | removes exactly the oldest waiter and hands `owner_` and `acquired` to the next oldest, which is resumed |
| `IntrusiveLists.ConditionVariable.Append` | eventuals/lock.h:932-947 | the three-case append adds at the end and keeps the list linked |
| `IntrusiveLists.ConditionVariable.Notify` | eventuals/lock.h:962-972 | wakes the longest waiting waiter only, unlinks and marks it |
| `IntrusiveLists.ConditionVariable.NotifyAll` | eventuals/lock.h:974-979 | terminates and wakes everybody in waiting order |
| `IntrusiveLists.WaiterList.Push` | eventuals/event-loop.cc:290-298 | the swap loop adds the waiter as the newest, whatever the spurious failures |
| `IntrusiveLists.WaiterList.TakeOldest` | eventuals/event-loop.cc:309-330 | removes and returns exactly the oldest waiter, unlinked |
| `SubmitQueue.StepPreserves` | eventuals/event-loop.cc:277-358 | every atomic step of submitters and consumer keeps list, bookkeeping, job log and semaphore count in agreement |
| `SubmitQueue.RunsEachJobOnceInOrder` | eventuals/event-loop.cc:277-358 | in any run the jobs that ran, the one in hand and the listed ones are the pushed ones in push order; every listed context is blocked |
| `SubmitQueue.OnlyResubmittingAborts` | eventuals/static-thread-pool.cc:47-98 | no interleaving follows a null pointer or trips a CHECK on the list, and the CHECK in `Submit` fails exactly for a context that is still blocked |
| `SubmitQueue.EarlySubmitLosesJob` | eventuals/event-loop.cc:335-346 | submitting a context between the consumer's unblock and its move of the callback replaces the job about to run, which never runs, and leaves the pushed waiter without a callback |
| `SubmitQueue.CheckReturnsOnEmptyList` | eventuals/event-loop.cc:305-358 | `Check` returns only on an empty list, with everything pushed having run |
| `SubmitQueue.EventLoopIsWoken` | eventuals/event-loop.cc:290-300 | while the list is not empty outside `Check`, a wakeup is pending or a submitter has yet to send it |
| `SubmitQueue.SemaphoreCountsJobs` | eventuals/static-thread-pool.cc:43-100 | list length is semaphore count plus unsignalled pushes plus one while the worker has woken and not popped; a woken worker never finds the list empty |
| `SubmitProgress.PushLands` | eventuals/event-loop.cc:290-298 | a submitter that goes on alone reloads the head and has its job pushed exactly once |
| `SubmitProgress.RunsOldest` | eventuals/static-thread-pool.cc:46-98 | a woken consumer, wherever it is, runs exactly the oldest job in a bounded number of its own steps |
| `SubmitProgress.CheckDrains` | eventuals/event-loop.cc:305-358 | `Check`, left alone, runs everything that was pushed and returns |
| `Monitor.BlockedInExactlyOnePlace` | eventuals/lock.h:604-676 | with any number of condition variables on one lock, a blocked continuation is in exactly one place once: in the list of the variable it waits on and notifiable, or queued on the lock |
| `Monitor.WakeupsFollowWaitOrder` | eventuals/lock.h:907-972 | for each condition variable, conditions are evaluated again in the order in which their continuations waited |
| `Monitor.OnlyTheOwnerActs` | eventuals/lock.h:612-642 | waiting, notifying and evaluating again happen only while owning the lock, and notifying never acquires it |
| `Monitor.UsesTheFifoLock` | eventuals/lock.h:628-672 | every step changes the lock's queue only as the abstract FIFO lock allows |
| `Pipe.SynchronizedPipe.Write` | eventuals/pipe.h:34-41 | an open pipe stores the value and wakes one reader, a closed one drops it |
| `Pipe.SynchronizedPipe.Read` | eventuals/pipe.h:44-65 | parks on an empty open pipe, takes the first value, or reports the end; emptying a closed pipe wakes the drain waiters |
| `Pipe.SynchronizedPipe.Close` | eventuals/pipe.h:78-86 | closes, wakes all readers, and all drain waiters if empty |
| `Pipe.SynchronizedPipe.WaitForClosedAndEmpty` | eventuals/pipe.h:104-110 | returns only when closed and empty, parks otherwise |
| `Pipe.NoLostWakeup` | eventuals/pipe.h:34-86 | in any run, while a reader is parked each stored value has a notified reader on its way; a closed pipe parks no reader, a closed and empty one no drain waiter |
| `Pipe.ConservesValues` | eventuals/pipe.h:34-86 | what was read in lock order and then what is stored is exactly what was written before the first close; the end is seen only when closed and drained |
| `Pipe.SettlesWithNobodyForgotten` | eventuals/pipe.h:34-110 | from any reachable state the queued operations finish, leaving readers parked only on an empty open pipe |
| `Pipe.EveryOperationIsKnown` | eventuals/pipe.h:44-110 | the reads that were started are exactly the values read, the ends seen, the parked readers and the queued reads, and likewise the drain waiters |
| `Pipe.ClosedAndEmptyAnswers` | eventuals/pipe.h:57-110 | a read that runs on a closed and empty pipe is answered with one end, a drain waiter with one return |
| `PipeOnMonitor.RefinesMonitor` | eventuals/pipe.h:34-110 | every run of the pipe is a run of the monitor with two condition variables on one FIFO lock, in which no CHECK fails |
| `PipeOnMonitor.NotifiesAll` | eventuals/lock.h:974-979 | notifying all moves the whole list to the back of the lock's queue in waiting order |
| `PipeOnMonitor.OnePlaceInPipe` | eventuals/pipe.h:114-120 | in every reachable state each continuation is once in the lock's queue, among the parked readers or among the drain waiters |
| `ConcurrentCore.Adaptor.FibersDone` | eventuals/concurrent.h:105-117 | true exactly when every fiber is done |
| `ConcurrentCore.Adaptor.InterruptFibers` | eventuals/concurrent.h:125-137 | interrupts every running fiber and no other, and says whether there was one |
| `ConcurrentCore.FirstReusable` | eventuals/concurrent.h:175-192 | the first fiber that is done with its context out of use, or the end of the list |
| `ConcurrentCore.Adaptor.CreateOrReuseFiber` | eventuals/concurrent.h:155-205 | a fiber is given exactly when not done, interrupted or failed: the first reusable one or a new one at the end |
| `ConcurrentCore.Adaptor.IngressEpilogue` | eventuals/concurrent.h:216-268 | marks upstream done, keeps the first failure, recomputes fibers done and wakes both sides when everything is |
| `ConcurrentCore.Adaptor.FiberEpilogue` | eventuals/concurrent.h:277-351 | marks the fiber done; a failure is kept if first and interrupts the others |
| `ConcurrentCore.Adaptor.Interrupt` | eventuals/concurrent.h:358-370 | marks interrupted, interrupts all fibers, wakes both sides when everything is done |
| `ConcurrentCore.Adaptor.Done` | eventuals/concurrent.h:419-447 | marks downstream done, interrupts all fibers, wakes only the waiter for done |
| `Concurrent.NoLostWakeup` | eventuals/concurrent.h:223-447 | in any run egress is parked only with nothing to deliver and more to come, the waiter for done only while somebody is not done, and Ended goes downstream at most once |
| `Concurrent.FibersDoneIsExact` | eventuals/concurrent.h:166-350 | `fibers_done_` is never set while a started value is running, and after upstream has ended it is set exactly when all have finished |
| `Concurrent.QuiescenceIsStable` | eventuals/concurrent.h:166-350 | upstream and fibers done is stable, and no value, failure or fiber is added from then on |
| `Concurrent.FirstFailureGoesDownstream` | eventuals/concurrent.h:614-646 | a failure or stop goes downstream only when upstream and all fibers are done, and it is the first recorded |
| `Concurrent.DeliversInPushOrder` | eventuals/concurrent.h:535-541 | delivered values and stored ones are the pushed ones in push order, and each fiber pushes a prefix of its stream |
| `Concurrent.EndOfStreamMeansEverything` | eventuals/concurrent.h:637-644 | the end marker comes only without failure and after every value of every started stream, and without an interrupt every upstream value was started |
| `ConcurrentEnding.EmptyUpstreamDrains` | eventuals/concurrent.h:223-238 | an upstream that ends at once wakes the parked egress and leaves an empty stream to drain |
| `ConcurrentEnding.CanAlwaysEnd` | eventuals/concurrent.h:377-447 | from every reachable state in which upstream and the fibers have finished without failure, asking on delivers everything pushed and then sends Ended exactly once |
| `ConcurrentEnding.CanAlwaysFail` | eventuals/concurrent.h:614-636 | from every reachable state in which upstream and the fibers have finished and something failed, at most one more request of a downstream that has not given up is answered with the first failure |
| `Concurrent.EveryValueIsRun` | eventuals/concurrent.h:166-203 | an upstream value is turned away only after an interrupt, a done or a failure, and at most one is |
| `Concurrent.InterruptsReachEveryFiber` | eventuals/concurrent.h:303-427 | once interrupted, told to be done or hit by a fiber's failure, every running fiber is interrupted and none is started |
| `Concurrent.OnlyWindingUpInterrupts` | eventuals/concurrent.h:285-370 | and otherwise no running fiber has been interrupted, a normal end of another fiber included |
| `ConcurrentHistory.FlagsTellHistory` | eventuals/concurrent.h:223-447 | `interrupted_`, `upstream_done_` and `downstream_done_` hold exactly if an interrupt, an end of upstream or a Done has happened |
| `ConcurrentHistory.NeverReusesAContextInUse` | eventuals/concurrent.h:489-501 | a fiber is given a new value only when its context is out of use |
| `Reorder.ReorderAdaptor.Next` | eventuals/concurrent-ordered.h:76-88 | flushes, moves past ended tranches, or asks upstream; the recursion terminates |
| `Reorder.ReorderAdaptor.Body` | eventuals/concurrent-ordered.h:41-55 | records an end marker, forwards the current tranche, buffers later ones |
| `Reorder.ReorderAdaptor.Done` | eventuals/concurrent-ordered.h:90-95 | drops what is buffered and forbids further values |
| `Reorder.ReceiveKeeps` | eventuals/concurrent-ordered.h:41-88 | on any merge the CHECKs pass and sent values with the current buffer stay the flattening of what arrived |
| `Reorder.ChecksNeverFire` | eventuals/concurrent-ordered.h:41-88 | while a request is outstanding the current tranche is not buffered and not ended, and what arrives next is never of an earlier tranche |
| `Reorder.RequestsArePassedOn` | eventuals/concurrent-ordered.h:41-88 | whatever arrives, upstream is asked exactly as long as downstream waits for an answer |
| `Reorder.DeliversTranchesInOrder` | eventuals/concurrent-ordered.h:70-88 | when n tranches have ended and nothing else arrived, exactly their values have been sent, tranche by tranche, and every buffer is empty |
| `ConcurrentOrdered.OrderedAdaptor.Body` | eventuals/concurrent-ordered.h:166-178 | tags a value and remembers the tag |
| `ConcurrentOrdered.OrderedAdaptor.Ended` | eventuals/concurrent-ordered.h:193-197 | emits the end marker of the remembered tag |
| `ConcurrentOrdered.EmitTranche` | eventuals/concurrent-ordered.h:166-205 | a tranche comes out tagged with its end marker last, and the CHECK aborts exactly for an empty tranche |
| `ConcurrentOrdered.FibersFormMerge` | eventuals/concurrent-ordered.h:257-274 | whatever the interleaving, the fibers' tagged streams form a merge with each end marker last |
| `ConcurrentOrdered.RunsConcurrent` | eventuals/concurrent-ordered.h:254-277 | every run of the composed machine is a run of `Concurrent` |
| `ConcurrentOrdered.OnlyEmptyTrancheAborts` | eventuals/concurrent-ordered.h:41-197 | in no run of the composed machine does the reorder adaptor trip a CHECK, the one that nothing arrives after Done included, and the adaptor inside a fiber trips its own exactly when a tranche ends without a value |
| `ConcurrentOrdered.RequestsArePassedOn` | eventuals/concurrent-ordered.h:41-88 | in every run of the composed machine a waiting downstream has its request at `Concurrent` or on the way there, and no other request is made |
| `ConcurrentOrdered.OrderedIsFlatMap` | eventuals/concurrent-ordered.h:254-277 | for every interleaving, at the end of the stream and after Ended exactly the concatenation of what `f` emits for the accepted inputs has been sent, in input order, which without an interrupt are all inputs that arrived; every buffer is empty, Ended was sent at most once, and no tranche was empty |
| `ConcurrentOrdered.SentIsPrefix` | eventuals/concurrent-ordered.h:254-277 | at every moment what has been sent is a prefix of the concatenation for the inputs accepted so far |
| `ConcurrentOrdered.CanAlwaysEnd` | eventuals/concurrent-ordered.h:254-277 | from every reachable state in which upstream and the fibers have finished without failure and downstream has not given up, asking on sends exactly that concatenation and then Ended once |
| `Joins.VerdictUnique` | eventuals/do-all.h:225-247 | the slots determine the verdict: stop before errors, last error by index, else none |
| `Joins.OutcomeUnique` | eventuals/do-all.h:111-135 | the slots determine what the continuation is called with |
| `Joins.Adaptor.StoppedOrErrorByFold` | eventuals/do-all.h:225-247 | DoAll's fold computes the verdict |
| `Joins.Adaptor.StoppedOrErrorWithBreak` | eventuals/fork-join.h:227-245 | ForkJoin's loop with its early break computes the same verdict |
| `Joins.Adaptor.GetValues` | eventuals/fork-join.h:212-225 | the value of every slot at its own index |
| `Joins.Adaptor.Complete` | eventuals/do-all.h:111-135 | the continuation is stopped, failed or started as the verdict says |
| `Joins.Adaptor.Finish` | eventuals/do-all.h:97-135 | a child writes its own slot and decrements, and completes the whole exactly if it found the counter at 1 |
| `Joins.CompletesExactlyOnce` | eventuals/do-all.h:97-201 | for every order of writes and decrements the continuation is called once, exactly when the last child has decremented: stopped if any child stopped, else failed with the last error by index, else started with every child's value at its index |
| `Joins.CompleterSeesEverySlot` | eventuals/fork-join.h:104-203 | the child that completes reads every slot written, and the CHECKs on the verdict and on the values hold |
| `VirtualClock.Clock.PauseAt` | eventuals/event-loop.cc:17-40 | pauses exactly if the clock is running and no timer of the loop is active, keeps `Now` and resets the advance |
| `VirtualClock.Clock.ResumeAll` | eventuals/event-loop.cc:44-61 | calls every pending callback in order with what is left of its wait |
| `VirtualClock.Clock.AdvanceBy` | eventuals/event-loop.cc:65-90 | calls what is due with 0 in order and keeps the rest in order |
| `VirtualClock.Clock.SubmitCallback` | eventuals/event-loop.h:180-190 | calls at once on a running clock, otherwise keeps the deadline on the paused time line |
| `VirtualClock.NowFollowsAdvances` | eventuals/event-loop.h:1415-1421 | a paused clock shows the time of its pause plus what it has been advanced by |
| `VirtualClock.AdvanceKeepsOrder` | eventuals/event-loop.cc:72-84 | due callbacks are called, and the others kept, in the order of their submission |
| `VirtualClock.ResumeKeepsOrder` | eventuals/event-loop.cc:44-61 | resuming calls everything pending in the order of submission with what is left of its wait |
| `VirtualClock.RunningCallsAtOnce` | eventuals/event-loop.h:180-190 | a running clock calls at once with the given wait and keeps nothing |
| `VirtualClock.PausedKeepsOrder` | eventuals/event-loop.h:184-190 | a paused clock queues a callback behind those submitted before it |
| `VirtualClock.RunsExactlyOnce` | eventuals/event-loop.cc:44-90 | a callback submitted while paused is called once: with 0 in the first advance that reaches its wait, else at resume with the wait less the time elapsed, never negative |
| `VirtualClock.EverySubmissionIsAccountedFor` | eventuals/event-loop.cc:17-90 | over any run each submission has been called or is pending, and nothing is pending on a running clock |
| `Pinning.RandomCpu` | eventuals/static-thread-pool.h:42-62 | returns a CPU in range outside the mask, and keeps drawing exactly while draws are masked |
| `Pinning.PinForks` | eventuals/static-thread-pool.h:664-674 | pins forks one after the other with a growing mask, all of them if there are enough free CPUs and every CPU is drawn eventually |
| `Pinning.ChosenAreDistinct` | eventuals/static-thread-pool.h:670-674 | chosen CPUs are in range, pairwise distinct and outside the initial mask |
| `Pinning.NeverStuck` | eventuals/static-thread-pool.h:659-674 | no order of choices runs out of CPUs exactly when there are at least as many free CPUs as forks |
| `Pinning.GuardSuffices` | eventuals/static-thread-pool.h:655-662 | the fork check guarantees enough free CPUs when the mask is no longer than the number of CPUs |
| `Pinning.GuardIsExact` | eventuals/static-thread-pool.h:655-662 | for such a mask the check passes exactly if forks and mask together are no more than the CPUs and no masked CPU is beyond them |
| `Pinning.GuardCanWrap` | eventuals/static-thread-pool.h:659-662 | with two CPUs and mask 0, 1, 1 the check passes and no CPU is free |
| `Pinning.GuardIsTrustworthyIff` | eventuals/static-thread-pool.h:655-662 | the check is right for every number of forks exactly when the mask is no longer than the number of CPUs |
| `CompletionQueues.CompletionPool.Schedule` | eventuals/grpc/completion-thread-pool.h:128-146 | leases the first least loaded queue; the CHECK aborts exactly when no load is below SIZE_MAX |
| `CompletionQueues.SchedulesRoundRobin` | eventuals/grpc/completion-thread-pool.h:135-145 | with every lease kept the k-th call selects queue k mod n |
| `CompletionQueues.WorkersGetDistinctQueues` | eventuals/grpc/server.cc:156-169 | n calls select n different queues, and loads never differ by more than one |
| `TypeLists.UnionMembers` | eventuals/type-traits.h:176-240 | `tuple_types_union` is set union |
| `TypeLists.UnionDistinct` | eventuals/type-traits.h:203-237 | the union of duplicate-free lists is duplicate free |
| `TypeLists.UnionAllMembers` | eventuals/type-traits.h:244-265 | `tuple_types_union_all` is the union of all its operands |
| `TypeLists.SubtractMembers` | eventuals/type-traits.h:269-288 | `tuple_types_subtract` is set difference |
| `ErrorInference.CatchInfers` | eventuals/catch.h:247-259 | exactly which errors `Catch` is inferred to let through and to raise |
| `ErrorInference.InfersExactly` | eventuals/then.h:86-96 | exactly which errors every eventual other than `Catch` is inferred to pass on and to raise; `Finally` none |
| `ErrorInference.InfersNoDuplicates` | eventuals/compose.h:92-95 | inferred lists never repeat an error |
| `ErrorInference.CatchFail` | eventuals/catch.h:59-205 | the typed handler that runs is the first for `TypeErasedError` or for a base of an rvalue's type, else `.all` runs; the error is forwarded exactly if there is no `.all` and no handler is for `TypeErasedError` or a base of its type |
| `ErrorInference.DropsExactlyLvalues` | eventuals/catch.h:59-204 | an error is dropped exactly if it was passed as an lvalue, some handler is for a base of its type, none is for `TypeErasedError` and there is no `.all` handler |
| `ErrorInference.LvalueErrorIsDropped` | eventuals/catch.h:191-196 | an eventual that fails with an lvalue of the type that is caught calls no handler and no continuation |
| `ErrorInference.RvaluesStay` | eventuals/then.h:141-143 | errors raised as rvalues reach every later eventual as rvalues |
| `ErrorInference.RvaluesAreNeverDropped` | eventuals/catch.h:153-205 | a pipeline whose eventuals fail with rvalues drops no error in any run |
| `ErrorInference.EndsBySignal` | eventuals/compose.h:92-127 | the runs of an eventual that call its continuation are exactly the signals it can send |
| `ErrorInference.EndsByDropping` | eventuals/catch.h:153-205 | the runs that call nobody are exactly those in which some `Catch` drops an error |
| `ErrorInference.AlwaysSignals` | eventuals/compose.h:92-127 | an eventual that can drop nothing has a run, and every run of it calls its continuation |
| `ErrorInference.InferenceIsSound` | eventuals/compose.h:92-127 | every error that reaches the continuation is a subtype of an inferred one, `.all` handlers included that raise only what typed handlers are inferred to raise |
| `ErrorInference.NothingInferredNothingRaised` | eventuals/compose.h:92-95 | a pipeline with nothing inferred cannot fail |
| `ErrorInference.ComposeAssociates` | eventuals/compose.h:82-128 | composition is associative in inference and in behaviour |
| `ErrorInference.RaisingAllHandlerIsMissed` | eventuals/catch.h:24-30 | a raising `.all` handler raises an error that is not inferred |
| `ErrorInference.AllHandlerIsSoundOn` | eventuals/catch.h:24-30 | for one error, inference of a `Catch` with `.all` is right exactly if a typed handler takes the error or what `.all` raises is covered by what typed handlers are inferred to raise |
| `ErrorInference.AllHandlerIsSoundIff` | eventuals/catch.h:24-30 | for all errors from upstream, it is right exactly if typed handlers take every one of them or what `.all` raises is so covered |
| `ErrorInference.AllHandlerIsSoundIfInferred` | eventuals/catch.h:24-30 | from the types alone: it is right if every error inferred for the `.all` handler is inferred for some typed handler |
| `ErrorInference.ExpectedIsSoundIff` | eventuals/expected.h:151-158 | inference for an expected with a variant error is right exactly if every alternative is `RuntimeError` |

## Left out

- Memory orders: the atomics use relaxed and release orders; the model interleaves sequentially consistent steps.
- The step machines are functions on values rather than classes, because a method cannot be interleaved with another; aliasing of nodes is in `IntrusiveLists`.
- Order of the lock's queue in `Concurrent`: its synchronized blocks run in any order, which includes the lock's order; that the first egress block precedes every ingress and fiber block is taken from the FIFO lock.
- `Interrupt::Handler`: a fiber's interrupt is a flag that stays set, and an interrupt of `Concurrent` may come at any time.
- Done before the first Next on `Concurrent`, and an interrupt that is triggered before its handler is installed.
- SubmitQueue.OnlyResubmittingAborts: does not model the CHECKs of `Submit` and of the consumers on schedulers, pinned CPUs and context switches, which concern other state; those on the list, on `blocked` and on the callback are there.
- `ForkJoin` with 0 forks, which never completes.
- 64-bit overflow of nanoseconds and 32-bit overflow of tranche indices.
- Pool shutdown, and progress that depends on user eventuals finishing or on a fair scheduler.
- `RequestResponseChannel`, `FlatMap::ErrorsFrom`, `Task` and `Generator`: type erasure and repetition of what is here.
- HTTP, x509, RSA, files, DNS, signals, polling and most of gRPC: wrappers over other libraries.
- Borrow counting, stack checks, logging and the order of destruction.
