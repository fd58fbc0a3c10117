# A verified model of the cppservicelib runtime core

This project models the concurrent core of the C++ stream-service runtime in Dafny 4.11 and proves what its design
relies on: the task schedulers, the keyed join storage, the delay pool, the finalization of gRPC sessions and requests,
the shutdown protocol, and the binary serdes. `dafny verify dfyconfig.toml` checks everything.

The model has two layers.

*Data structures* are classes whose methods are the sections under a mutex, each proved against a function on an
abstract value: the indexed heap shared by both pools (`IndexedHeap.dfy`), the doubly linked FIFO (`TaskList.dfy`), the
FIFO queue with its deadline heap (`TaskQueue.dfy`), the two heaps of the priority pool (`PriorityPool.dfy`), the
two-generation table of the join storage (`JoinTable.dfy`), the serde output with back-patched headers and the serde
reader (`SerdeBuffers.dfy`).

*Protocols* are state machines with one step per lock section, atomic access or piece of user code. `Enabled` says when
a step is possible, `Do` what it does, and `Run` is defined for exactly the sequences of possible steps; every main
result is about every `Run`. Fields marked as history record what happened and are read by no step. Each protocol has an
inductive invariant `Inv` with `StepKeeps` and `RunKeeps`. They are the task pool with its executors and manager
(`PoolProtocol.dfy`), the join storage (`JoinProtocol.dfy`) and the arming of one of its items (`JoinExpiry.dfy`), the
delay pool (`DelayProtocol.dfy`), the event its scheduler sleeps on (`DelayWakeUp.dfy`), its cancellation list
(`CancelInbox.dfy`) and the pool with that list (`DelayInbox.dfy`), the component lifecycle (`Lifecycle.dfy`) and the
application around it (`AppShutdown.dfy`), client-streaming sink sessions (`SinkSession.dfy`), gRPC source requests
(`SourceRequest.dfy`) and the admission gate (`Admission.dfy`).

`LazyPromotion.dfy` relates the FIFO pool, which looks for expired deadlines only when it holds the lock anyway, to a
pool with one timer per task; `TiedDeadlines.dfy` adds tasks with the same deadline. `Serdes.dfy` and `BigEndian.dfy`
hold the encodings as pure functions, `MapOrder.dfy` what the iteration order of maps does to them. `Options.dfy` and
`Collections.dfy` are shared by all.

Assumptions: atomics are sequentially consistent; the clock is read inside the lock section and does not go back;
mutexes, condition variables, events, task joins and stop callbacks are modelled by their contracts (a waiter may wake
up at any time, a compare-and-exchange may fail spuriously, resetting a stop callback waits while it runs); user
callbacks are uninterpreted and keep the contracts their interfaces state.

## What turned out not to hold

Each of these is the behaviour of the code, with a concrete run and the condition under which the property does hold.

- An executor whose own coroutine is cancelled while it is idle leaves without a successor; if it was the last one, a
  task accepted afterwards can still be waiting when stop() has returned (`PoolProtocol.IdleCancelStrandsTask`). Once
  stop() has joined the manager, every continuation drains the queue if and only if nothing waits, or an executor stays
  and fewer executors than the target are leaving (`PoolProtocol.DrainsIff`). Without such a cancellation that is always
  so, and every accepted task runs (`PoolProtocol.StoppedMeansDrained`).
- A renewal of a join item that fails restores the old generation but not the old stop callback, so a later cancellation
  of the context that armed the item is not noticed; its timer stays (`JoinExpiry.FailedRenewalMissesCancellation`,
  `JoinExpiry.NoMissedCancellation`, `JoinExpiry.DeafUntilRenewed`).
- A rollback goes by start order alone and stops data sinks before components
  (`Lifecycle.RollbackStopsSinkBeforeComponent`). A sink is stopped last in a rollback if and only if nothing but sinks
  and sources is registered (`Lifecycle.RollbackStopsSinksLastIff`); in a regular stop sinks always come last, and pools
  and storages come after every source and component in both (`Lifecycle.PhaseBarrier`).
- Starting the execution runtime sets the input counter to zero; invocations that exist at that moment are forgotten and
  a later drain does not wait for them (`AppShutdown.ResetForgetsInvocation`,
  `AppShutdown.DrainIsCompleteIffNothingForgotten`).
- The lease that overflows the 63 count bits of the admission gate closes the gate with its count at zero
  (`Admission.OverflowClosesGate`). In every run the count bits are the leases if and only if there are fewer than 2^63
  of them (`Admission.CountIsLeasesIff`), and the history flag on which the other results depend is set if and only if
  there once were that many (`Admission.OverflowedMeansFull`).
- Encodings of signed one-byte integers compare as the numbers do exactly when the signs agree
  (`Serdes.OrderOfSignedBytes`); for all other integers they always do (`Serdes.OrderPreserved`).

## Model

| member | source | states |
|---|---|---|
| `IndexedHeaps.IndexedHeap.Swap` | include/servicelib/runtime/pool/taskpool.hpp:526-530 | two slots change places and their back-indices follow |
| `IndexedHeaps.IndexedHeap.SiftUp` | include/servicelib/runtime/pool/taskpool.hpp:532-541 | restores heap order below one slot that may be too early, keeping the elements, their ranks and exact back-indices |
| `IndexedHeaps.IndexedHeap.SiftDown` | include/servicelib/runtime/pool/taskpool.hpp:543-562 | restores heap order above one slot that may be too late, keeping the elements, their ranks and exact back-indices |
| `IndexedHeaps.IndexedHeap.Push` | include/servicelib/runtime/pool/taskpool.hpp:564-573 | the heap ranks exactly one element more |
| `IndexedHeaps.IndexedHeap.RemoveAt` | include/servicelib/runtime/pool/taskpool.hpp:575-593 | the element in any slot is removed and nothing else |
| `IndexedHeaps.IndexedHeap.Remove` | include/servicelib/runtime/pool/taskpool.hpp:595-600 | an element is removed if it is there; one that is not leaves the heap alone |
| `IndexedHeaps.IndexedHeap.Pop` | include/servicelib/runtime/pool/prioritytaskpool.hpp:509-520 | hands out an element that no other precedes, and removes it |
| `IndexedHeaps.IndexedHeap.Raise` | include/servicelib/runtime/pool/prioritytaskpool.hpp:604-613 | an element gets an earlier rank in place |
| `IndexedHeaps.RootIsLeast` | include/servicelib/runtime/pool/taskpool.hpp:628-639 | in a heap no slot precedes the root, so looking at the first slot is looking at the earliest deadline |
| `TaskLists.TaskList.LinkLast` | include/servicelib/runtime/pool/taskpool.hpp:446-455 | head, tail, next and prev spell the old queue with the task appended |
| `TaskLists.TaskList.UnlinkFirst` | include/servicelib/runtime/pool/taskpool.hpp:813-823 | the first task is handed out and the links spell the rest |
| `TaskLists.TaskList.Unlink` | include/servicelib/runtime/pool/taskpool.hpp:603-626 | a task in the middle or at the end is cut out of the links |
| `TaskLists.TaskList.LinkFirst` | include/servicelib/runtime/pool/taskpool.hpp:603-626 | a task is linked in before the head |
| `TaskLists.TaskList.MoveToFront` | include/servicelib/runtime/pool/taskpool.hpp:603-626 | a queued task comes first and the others keep their order |
| `TaskQueues.TaskQueue.Add` | include/servicelib/runtime/pool/taskpool.hpp:393-456 | a task is refused exactly when it is cancelled or past its deadline; otherwise it is last and its deadline is watched |
| `TaskQueues.TaskQueue.RequeueToFrontLocked` | include/servicelib/runtime/pool/taskpool.hpp:603-626 | a queued task moves to the front once; later calls, and calls for tasks not queued, do nothing |
| `TaskQueues.TaskQueue.Due` | include/servicelib/runtime/pool/taskpool.hpp:630-634 | says whether any watched deadline has passed |
| `TaskQueues.TaskQueue.PromoteExpired` | include/servicelib/runtime/pool/taskpool.hpp:628-639 | exactly the overdue tasks move to the front, in order of their deadlines, and are counted |
| `TaskQueues.TaskQueue.RequeueToFront` | include/servicelib/runtime/pool/taskpool.hpp:674-691 | a cancellation is one step of the lazy pool; a wake-up is asked for exactly when something moved |
| `TaskQueues.TaskQueue.Dequeue` | include/servicelib/runtime/pool/taskpool.hpp:809-824 | an executor's turn is one step of the lazy pool, and hands out its task |
| `TaskQueues.TaskQueue.NothingWatchedWhenEmpty` | include/servicelib/runtime/pool/taskpool.hpp:813-824 | when no task waits, the deadline heap is empty |
| `LazyPromotion.HeapOrderIsTimeOrder` | include/servicelib/runtime/pool/taskpool.hpp:628-639 | moving overdue tasks to the front all at once, in heap order, is moving each one at the instant its deadline passes |
| `LazyPromotion.AppendCommutes` | include/servicelib/runtime/pool/taskpool.hpp:25-29 | deadlines that pass before a task arrives may be served after it was appended |
| `LazyPromotion.LinkStep` | include/servicelib/runtime/pool/taskpool.hpp:25-29 | each lock section keeps the lazy pool behind the eager one by only the deadlines that passed since it last looked |
| `TiedDeadlines.NeverFiredTwice` | include/servicelib/runtime/pool/taskpool.hpp:603-639 | a task that was moved to the front because of its deadline is never watched again, so it moves once in a run |
| `TiedDeadlines.LazyIsEagerUpToTies` | include/servicelib/runtime/pool/taskpool.hpp:25-29 | for every timed trace, also with equal deadlines, every run of the lazy pool hands out the same tasks as a pool with one timer per task, for some order among the timers of one instant; with distinct deadlines there is nothing to choose |
| `PriorityPools.PriorityPool.AddTask` | include/servicelib/runtime/pool/prioritytaskpool.hpp:328-374 | a task is refused exactly when it is stopped or past its deadline; otherwise it waits with the next sequence number |
| `PriorityPools.PriorityPool.ExpediteLocked` | include/servicelib/runtime/pool/prioritytaskpool.hpp:604-613 | a waiting task gets the most urgent priority once and its deadline is no longer watched |
| `PriorityPools.PriorityPool.PromoteExpired` | include/servicelib/runtime/pool/prioritytaskpool.hpp:615-630 | afterwards the expedited tasks are exactly the cancelled and the overdue ones; the result counts the new ones |
| `PriorityPools.PriorityPool.Cancel` | include/servicelib/runtime/pool/prioritytaskpool.hpp:632-655 | a waiting task becomes cancelled and expedited; a wake-up is asked for exactly when something was expedited |
| `PriorityPools.PriorityPool.Dequeue` | include/servicelib/runtime/pool/prioritytaskpool.hpp:757-762 | hands out the one waiting task that strictly precedes all others by effective priority, then sequence |
| `PoolProtocol.StepKeeps` | include/servicelib/runtime/pool/taskpool.hpp:735-996 | every step of executors, manager and callers keeps ledger, work conservation, account of tasks, lifecycle, handles and crew |
| `PoolProtocol.RunKeeps` | include/servicelib/runtime/pool/taskpool.hpp:146-343 | the invariant holds in every reachable state |
| `PoolProtocol.NobodySleepsOnWork` | include/servicelib/runtime/pool/taskpool.hpp:772-807 | while an executor is parked, waiting tasks are at most the executors on their way plus the notifications under way, the slots are within the target, and the pool is not done |
| `PoolProtocol.SlotsAreExecutors` | include/servicelib/runtime/pool/taskpool.hpp:748-770 | the slot counter is the number of executors that hold a slot plus the one being spawned |
| `PoolProtocol.BoundsOfEveryStep` | include/servicelib/runtime/pool/taskpool.hpp:735-746 | growth stays within the target, an excess exit leaves at least the target, nothing is accepted once done_ is set or outside kRunning |
| `PoolProtocol.StoppedMeansDrained` | include/servicelib/runtime/pool/taskpool.hpp:230-343 | when stop() has returned every accepted task was begun exactly once, the queue is empty and no slot is taken, provided no idle executor was cancelled; `DrainsIff` has the rest |
| `PoolProtocol.IdleCancelStrandsTask` | include/servicelib/runtime/pool/taskpool.hpp:779-789 | a run in which stop() returns while an accepted task waits |
| `PoolProtocol.DrainsIff` | include/servicelib/runtime/pool/taskpool.hpp:274-343 | when stop() has joined the manager, every continuation that stops has drained the queue if and only if nothing waits, or an executor stays and fewer executors than the target are leaving |
| `JoinTables.JoinTable.FindItem` | include/servicelib/runtime/store/hashmap.hpp:376-387 | finds what the union of the two generations maps the key to, and in which generation |
| `JoinTables.JoinTable.InsertIfAbsent` | include/servicelib/runtime/store/hashmap.hpp:188-201 | inserts exactly when the union lacks the key, as in one map |
| `JoinTables.JoinTable.MoveToCurrent` | include/servicelib/runtime/store/hashmap.hpp:272-277 | a renewal moves the item and leaves the union alone |
| `JoinTables.JoinTable.Remove` | include/servicelib/runtime/store/hashmap.hpp:394-412 | removes the key exactly when it maps to this item |
| `JoinTables.JoinTable.Rescue` | include/servicelib/runtime/store/hashmap.hpp:531-536 | every entry of the previous generation is rescued, none collides |
| `JoinTables.JoinTable.RotateLocked` | include/servicelib/runtime/store/hashmap.hpp:512-549 | rotation leaves the union unchanged and evicts nothing; current is empty after it |
| `JoinTables.JoinTable.Clear` | include/servicelib/runtime/store/hashmap.hpp:145-155 | the union is empty and the counter zero |
| `JoinTables.InsertIsInsert` | include/servicelib/runtime/store/hashmap.hpp:188-201 | inserting acts on the union as on one map and keeps the generations disjoint |
| `JoinTables.RenewIsInvisible` | include/servicelib/runtime/store/hashmap.hpp:272-277 | a renewal does not change the union; the item is in the current generation |
| `JoinTables.RemoveIsRemove` | include/servicelib/runtime/store/hashmap.hpp:394-412 | removing acts on the union as on one map |
| `JoinProtocol.StepKeeps` | include/servicelib/runtime/store/hashmap.hpp:158-295 | every step of joins, expiry tasks, rotation and stop keeps the invariant |
| `JoinProtocol.RunKeeps` | include/servicelib/runtime/store/hashmap.hpp:105-295 | the invariant holds in every reachable state |
| `JoinProtocol.AtMostOneOpenItem` | include/servicelib/runtime/store/hashmap.hpp:169-294 | two unprocessed items never have the same key |
| `JoinProtocol.EveryValueInOneItem` | include/servicelib/runtime/store/hashmap.hpp:280-294 | a call that has returned put its value into exactly one item, once, or failed and put it into none |
| `JoinProtocol.AcceptedOnlyWhileOpen` | include/servicelib/runtime/store/hashmap.hpp:222-231 | an item takes over values only while it is unprocessed; once processed its values never change |
| `JoinProtocol.FinalCallbackOnce` | include/servicelib/runtime/store/hashmap.hpp:480-500 | a final callback runs at most once per item, on exactly the accepted values in order; it is not forgotten while somebody owes it |
| `JoinProtocol.StoppedIsQuiet` | include/servicelib/runtime/store/hashmap.hpp:105-156 | stop() returns only after every admitted call and claimed expiry, with an empty table |
| `JoinExpiry.StepKeeps` | include/servicelib/runtime/store/hashmap.hpp:418-500 | every step of arming, renewal, cancellation and expiry keeps the invariant |
| `JoinExpiry.RunKeeps` | include/servicelib/runtime/store/hashmap.hpp:232-270 | the invariant holds in every reachable state of an item |
| `JoinExpiry.NoEarlyExpiry` | include/servicelib/runtime/store/hashmap.hpp:480-500 | an item expires only when the deadline of its last successful arming has passed or the context that armed it was cancelled |
| `JoinExpiry.OldGenerationsAreHarmless` | include/servicelib/runtime/store/hashmap.hpp:488-491 | a task of another generation than the last armed one changes nothing |
| `JoinExpiry.RenewalOutdatesTasks` | include/servicelib/runtime/store/hashmap.hpp:251-260 | arming a new generation makes every earlier timer and cancellation a task of another generation |
| `JoinExpiry.TimerStaysArmed` | include/servicelib/runtime/store/hashmap.hpp:432-451 | a running storage keeps a timer for the current deadline of every armed unprocessed item, also after failed renewals |
| `JoinExpiry.NoMissedCancellation` | include/servicelib/runtime/store/hashmap.hpp:422-457 | unless an expiry is already scheduled at once, the callback of the arming context listens, also when it races the arming, if and only if the last renewal did not fail |
| `JoinExpiry.DeafUntilRenewed` | include/servicelib/runtime/store/hashmap.hpp:261-270 | after a failed renewal no sequence of steps without another renewal notices a cancellation |
| `JoinExpiry.FailedRenewalMissesCancellation` | include/servicelib/runtime/store/hashmap.hpp:255-270 | a run in which the arming context is cancelled and nobody notices |
| `DelayProtocol.StepKeeps` | include/servicelib/runtime/pool/delaypool.hpp:256-318 | every step of delay calls, stop callbacks, scheduler, coroutines and stop keeps the invariant |
| `DelayProtocol.RunKeeps` | include/servicelib/runtime/pool/delaypool.hpp:420-476 | the invariant holds in every reachable state |
| `DelayProtocol.AtMostOnce` | include/servicelib/runtime/pool/delaypool.hpp:551-557 | no function runs twice, and only functions of calls that returned normally run |
| `DelayProtocol.ExactlyOnce` | include/servicelib/runtime/pool/delaypool.hpp:499-525 | when stop() has returned, exactly the functions of the calls that returned normally have run, each once |
| `DelayProtocol.PendingCountsLiveTasks` | include/servicelib/runtime/pool/delaypool.hpp:299-326 | pending is queued plus extracted plus not yet retired tasks; zero means no timers, and stop() returns only then |
| `DelayProtocol.NeverTooEarly` | include/servicelib/runtime/pool/delaypool.hpp:443-460 | a function is dispatched only when its effective run time has come or its context was cancelled |
| `DelayProtocol.NoticesDrainedOnce` | include/servicelib/runtime/pool/delaypool.hpp:358-393 | each cancelled task is noted at most once; when the scheduler has exited every note was drained and the list is empty |
| `DelayProtocol.NoMissedCancellation` | include/servicelib/runtime/pool/delaypool.hpp:304-316 | a finished cancellation of a queued task has made it due or is on its way to the scheduler, whatever the race with admission |
| `DelayProtocol.PublisherIsLive` | include/servicelib/runtime/pool/delaypool.hpp:434-441 | while somebody is about to publish a cancellation, pending is not zero |
| `DelayWakeUp.RunsThePool` | include/servicelib/runtime/pool/delaypool.hpp:420-476 | every run with the scheduler's event is a run of the delay pool |
| `DelayWakeUp.SleepsUntilFirstTimer` | include/servicelib/runtime/pool/delaypool.hpp:299-318 | while the scheduler sleeps, no timer is due before its sleep is over, no cancellation waits and nobody told it to stop, unless the event is set or about to be set, although only a first timer is reported |
| `DelayWakeUp.NeverOversleeps` | include/servicelib/runtime/pool/delaypool.hpp:420-457 | when a timer is due, a cancellation waits or the pool stops, a sleeping scheduler can wake up, at the latest after a Send() that is under way |
| `CancelInbox.StepKeeps` | include/servicelib/runtime/pool/delaypool.hpp:358-393 | every atomic access keeps the pointers in step with the lists they stand for |
| `CancelInbox.PointersAreLists` | include/servicelib/runtime/pool/delaypool.hpp:368-384 | following next pointers from the head gives the pushed tasks, last first, and the drain visits exactly the list it took |
| `CancelInbox.PublishedOnce` | include/servicelib/runtime/pool/delaypool.hpp:358-374 | a published task is in the lists exactly once, or its publisher has not got through its loop |
| `DelayInbox.RunsThePool` | include/servicelib/runtime/pool/delaypool.hpp:358-393 | every run of the delay pool with the atomic list is a run of the pool with a sequence, and a run of the list by itself |
| `DelayInbox.PointersSpellInbox` | include/servicelib/runtime/pool/delaypool.hpp:358-393 | in every such run the pointers spell the pool's notices and what the scheduler still has to drain, and a task is between publication and push in both or in neither |
| `DelayInbox.NotHeldUp` | include/servicelib/runtime/pool/delaypool.hpp:256-318 | the list holds nobody up: whatever the pool may do it may do, every publisher can go on, and a draining scheduler can go on or is through |
| `Lifecycle.PlanIs` | include/servicelib/runtime/serviceapp.hpp:101-108 | start order takes every component (without sources for startGraph) once, kind after kind |
| `Lifecycle.ListIs` | include/servicelib/runtime/serviceapp.hpp:149-170 | a phase stops exactly the components of its kinds, once |
| `Lifecycle.StepKeeps` | include/servicelib/runtime/serviceapp.hpp:330-394 | every step of start, stop phases, rollback and returning stops keeps the invariant |
| `Lifecycle.RunKeeps` | include/servicelib/runtime/serviceapp.hpp:93-189 | the invariant holds in every reachable state |
| `Lifecycle.PhaseBarrier` | include/servicelib/runtime/serviceapp.hpp:130-189 | over any sequence of timed-out, failed and retried stops: no component has two stops in flight or another after a success, pools and storages come after all started sources and components, sinks after everything else in a regular stop, and a rollback goes in reverse start order |
| `Lifecycle.StoppedStopsAll` | include/servicelib/runtime/serviceapp.hpp:175-189 | a stopped lifecycle has stopped every component it started and has no stop in flight |
| `Lifecycle.RollbackStopsSinkBeforeComponent` | include/servicelib/runtime/serviceapp.hpp:385-394 | a rollback that stops a sink while a component is up |
| `Lifecycle.RollbackStopsSinksLastIff` | include/servicelib/runtime/serviceapp.hpp:385-394 | a sink that a rollback stops is stopped after everything else if and only if nothing but sinks and sources is registered |
| `AppShutdown.StepKeeps` | include/servicelib/runtime/serviceapp.hpp:511-557 | every step of start, clean-up, stop, input invocations and parallel operations keeps the invariant |
| `AppShutdown.RunKeeps` | include/servicelib/runtime/serviceapp.hpp:511-557 | the invariant holds in every reachable state |
| `AppShutdown.FreedOnlyWhenQuiet` | include/servicelib/runtime/environment.hpp:318-348 | streams are freed, by stop() or after a failed start, only when no parallel operation is active or admissible and every component has stopped; and, if no invocation was forgotten, when inputs are closed and none is active |
| `AppShutdown.DrainIsCompleteIffNothingForgotten` | include/servicelib/runtime/environment.hpp:292-331 | a drain succeeds with no input invocation left if and only if the last reset of the counter found none |
| `AppShutdown.ResetForgetsInvocation` | include/servicelib/runtime/environment.hpp:292-297 | a run in which a drain succeeds while an input invocation exists |
| `SinkSession.StepKeeps` | include/servicelib/datasink/grpc/clientstreaming.hpp:93-259 | every step of consume and complete keeps the invariant |
| `SinkSession.RunKeeps` | include/servicelib/datasink/grpc/clientstreaming.hpp:93-259 | the invariant holds in every reachable state |
| `SinkSession.WaitersSeeOnlyPublished` | include/servicelib/datasink/grpc/clientstreaming.hpp:56-76 | whoever goes on after waiting sees a complete session, and a ready cell holds a session or an error, not both |
| `SinkSession.NoConsumeBesideFinalizer` | include/servicelib/datasink/grpc/clientstreaming.hpp:167-201 | consumeMessage never runs beside handleResponse, nor during or after endRequest |
| `SinkSession.EndOncePerBegin` | include/servicelib/datasink/grpc/clientstreaming.hpp:136-148 | endRequest runs at most once per successful beginRequest, and exactly once when the cell is gone |
| `SinkSession.PopsOwnCell` | include/servicelib/datasink/grpc/clientstreaming.hpp:204-210 | whoever removes an entry from the pending map removes its own cell |
| `SinkSession.FinalizersMayReenter` | include/servicelib/datasink/grpc/clientstreaming.hpp:167-172 | a call that reaches the flag while the exclusive lock is held is turned away without waiting |
| `SourceRequest.StepKeeps` | include/servicelib/datasource/grpc/common.hpp:521-623 | every step of handlers, results and callbacks keeps the invariant |
| `SourceRequest.RunKeeps` | include/servicelib/datasource/grpc/common.hpp:462-623 | the invariant holds in every reachable state |
| `SourceRequest.NoCallbackAfterFinish` | include/servicelib/datasource/grpc/common.hpp:572-609 | neither getMessageId nor a result callback runs on a request whose finish() has had the exclusive lock |
| `SourceRequest.ClosedForGood` | include/servicelib/datasource/grpc/common.hpp:521-565 | a closed or finished request stays so in every continuation |
| `SourceRequest.RegistryStaysEmpty` | include/servicelib/datasource/grpc/common.hpp:225-231 | a finished request has a closed, empty callback registry, a closed sender and no entry in the pending map |
| `SourceRequest.DoneOverridesFailedWait` | include/servicelib/datasource/grpc/common.hpp:532-535 | a done sent by an admitted callback clears the error of a failed wait |
| `SourceRequest.PopsOwnEntry` | include/servicelib/datasource/grpc/common.hpp:536-541 | finish() removes the entry of its own request or none |
| `Admission.StepKeeps` | include/servicelib/datasource/detail/request_admission.hpp:39-74 | every atomic access and lock operation keeps the invariant as long as the count does not overflow |
| `Admission.RunKeeps` | include/servicelib/datasource/detail/request_admission.hpp:39-74 | the invariant holds in every reachable state without overflow |
| `Admission.CountIsLeasesIff` | include/servicelib/datasource/detail/request_admission.hpp:39-74 | in every run, with or without overflow, the count bits are the outstanding leases if and only if there are fewer than 2^63 |
| `Admission.WordIsCountAndBit` | include/servicelib/datasource/detail/request_admission.hpp:39-48 | without overflow the word is the number of leases and the closed bit |
| `Admission.OverflowedMeansFull` | include/servicelib/datasource/detail/request_admission.hpp:41-44 | a run has overflowed if and only if there were 2^63 leases at some point of it |
| `Admission.NothingAcquiredAfterClose` | include/servicelib/datasource/detail/request_admission.hpp:39-74 | a closed gate stays closed and gives out no lease, and every lease is given back under the mutex of stop() |
| `Admission.DrainedMeansIdle` | include/servicelib/datasource/detail/request_admission.hpp:50-58 | stop() returns normally only with no lease left and nobody still busy with the gate |
| `Admission.DrainCheckIff` | include/servicelib/datasource/detail/request_admission.hpp:50-58 | in every run, the check that ends stop() is met with no lease left if and only if there are fewer than 2^63 |
| `Admission.NoMissedWakeUp` | include/servicelib/datasource/detail/request_admission.hpp:61-74 | while stop() waits there is a lease, or its releaser holds the mutex and is about to notify |
| `Admission.OverflowClosesGate` | include/servicelib/datasource/detail/request_admission.hpp:41-44 | a run that closes the gate without stop() |
| `BigEndian.ValueOfEncode` | include/servicelib/runtime/serde/serdeimpl.hpp:146-153 | reading the big-endian bytes of a number that fits gives the number |
| `BigEndian.EncodeByteAt` | include/servicelib/runtime/serde/serdeimpl.hpp:81-85 | the bytes got by shifting and masking are the big-endian digits |
| `BigEndian.BeforeIsLess` | include/servicelib/runtime/serde/serdeimpl.hpp:238-330 | byte strings of one length compare as the numbers they stand for |
| `Serdes.PrimRoundTrip` | include/servicelib/runtime/serde/serdeimpl.hpp:195-382 | every value of a fixed-size type is read back from its bytes |
| `Serdes.OrderPreserved` | include/servicelib/runtime/serde/serdeimpl.hpp:238-330 | for unsigned integers and for signed ones of 16, 32 and 64 bits, byte order is numeric order |
| `Serdes.OrderOfSignedBytes` | include/servicelib/runtime/serde/serdeimpl.hpp:209-221 | for signed bytes it is exactly when the signs agree |
| `Serdes.RoundTrip` | include/servicelib/runtime/serde/serdeimpl.hpp:384-748 | an encoding followed by any bytes is read back as the value if and only if the limits on total bytes allow it, for arbitrarily nested serdes |
| `Serdes.StrictPrefixRejected` | include/servicelib/runtime/serde/serdeimpl.hpp:117-125 | every strict prefix of an encoding is rejected |
| `Serdes.CollectAll` | include/servicelib/runtime/serde/serdeimpl.hpp:674-682 | assigning the keys and values of a map one by one gives the map |
| `Serdes.CollectKeepsLast` | include/servicelib/runtime/serde/serdeimpl.hpp:674-682 | where keys repeat in the bytes, each is kept once, with the value that came last |
| `Serdes.ReadsAMap` | include/servicelib/runtime/serde/serdeimpl.hpp:660-682 | whatever bytes are read as a map, its keys are different |
| `MapOrder.SameLimits` | include/servicelib/runtime/serde/serdeimpl.hpp:633-682 | values that are equal up to the iteration order of maps, at every depth, have encodings of the same length and meet the same limits of writing and reading |
| `MapOrder.OrderDoesNotMatter` | include/servicelib/runtime/serde/serdeimpl.hpp:633-682 | of such values, if one can be written both can; both are read back as values equal up to the order of maps, or both are refused |
| `MapOrder.OrdersOfOneMap` | include/servicelib/runtime/serde/serdeimpl.hpp:633-658 | two iteration orders of one map are equal up to the order of maps |
| `SerdeBuffers.Output.PutBigEndian` | include/servicelib/runtime/serde/serdeimpl.hpp:65-85 | appends exactly the big-endian bytes |
| `SerdeBuffers.Output.SetSize` | include/servicelib/runtime/serde/serdeimpl.hpp:87-96 | overwrites exactly the eight bytes of a header, or refuses an offset without room |
| `SerdeBuffers.Output.PutFrame` | include/servicelib/runtime/serde/serdeimpl.hpp:588-594 | an empty header patched afterwards leaves exactly the length and the encoding |
| `SerdeBuffers.Output.PutText` | include/servicelib/runtime/serde/serdeimpl.hpp:394-403 | appends length and bytes, or refuses a string over its limit |
| `SerdeBuffers.Output.PutVector` | include/servicelib/runtime/serde/serdeimpl.hpp:482-497 | appends count and elements, or refuses an array over its limit |
| `SerdeBuffers.Output.SerializeDictionary` | include/servicelib/runtime/serde/serdeimpl.hpp:633-658 | appends the key frame and the value frame of a map |
| `SerdeBuffers.Output.SerializeTo` | include/servicelib/runtime/serde/serdeimpl.hpp:384-748 | appends exactly the pure encoding when the limits allow it and keeps what was there; succeeds exactly when they do |
| `SerdeBuffers.Input.Take` | include/servicelib/runtime/serde/serdeimpl.hpp:117-125 | hands out the next bytes and moves on, or refuses when there are too few |
| `SerdeBuffers.Input.TakeSize` | include/servicelib/runtime/serde/serdeimpl.hpp:146-170 | reads a length and refuses one over the maximum |
| `SerdeBuffers.TakeItems` | include/servicelib/runtime/serde/serdeimpl.hpp:597-611 | reads elements one by one as the pure reader does |
| `SerdeBuffers.CollectEntries` | include/servicelib/runtime/serde/serdeimpl.hpp:674-682 | the loop of insert_or_assign computes the collected map |
| `SerdeBuffers.Deserialize` | include/servicelib/runtime/serde/serdeimpl.hpp:384-748 | the moving reader returns exactly what the pure reader says, errors included |

## Left out

- JoinProtocol.FinalCallbackOnce: callbacks do not throw, which their interface forbids (include/servicelib/runtime/store/joinstore.hpp:26-33), and do not change the values they are given; an item that is unprocessed when stop() returns is dropped without a callback, as in the code.
- AppShutdown.DrainIsCompleteIffNothingForgotten: supposes that fewer than 2^63 invocations were forgotten.
- AppShutdown.FreedOnlyWhenQuiet: says nothing about wake-ups of the drain, which is notified without its mutex.
- The priority pool's lifecycle, which is that of the FIFO pool almost line for line, is not modelled a second time.
- The back-index of a task in a heap is a map of the heap here, not a field of the task.
- The event of the delay pool's scheduler is a layer over its protocol, in which Send() may come after the mutex was handed back.
- Components are registered before the run of the application begins; the pools that ensureConfiguredPools() adds are among them.
- Keys of maps are compared as they are written; a map keyed by floating-point numbers may hold two NaN keys with the same bits and takes both zeros for one key, which the model does not.
- Sequence numbers, generations and hardware counters do not wrap, except in the admission word and the input counter.
- Allocation failure, except where the code handles it: spawning executors, tasks, timers and coroutines may fail.
- Item and task objects are never freed, so the weak pointers of expiry tasks and callbacks always lock.
- The join protocol takes any expiry at any time; when expiries come is proved for one item at a time in `JoinExpiry`.
- Data source requests of endpoints without a result stream, and unary endpoints whose response takes the place of done.
- stop() of the client-streaming endpoint, which cancels and joins the completing tasks.
- RotatingMap is one atomic slot per stream id in the session and request protocols.
- Size overflow checks of the serde output, which no vector that fits into memory can trip; lengths below 2^64 are a precondition of the round trip.
- Key-value pairs may be nested in the model although the code uses them at the top only; StubSerde and the default factories are left out.
- Memory orders weaker than sequential consistency, and the unsynchronized publication of fields between start() and stop().
- Metrics, logging, tracing, configuration, HTTP and Kafka transports, YAML, the status page, stream templates and operators: no effect on the modelled state, or only easy members.
