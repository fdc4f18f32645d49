# Verified models of YACLib's concurrent cores

YACLib is a C++ library of futures, executors and coroutine synchronisation. Its difficult parts are small
protocols over one tagged pointer or one packed counter. This project models those protocols, with any number of
threads and coroutines, and proves what they promise in every run.

## How to read it

A protocol has up to three kinds of files.

* `*Runs.dfy` is a machine: one step per access to an atomic variable (or per critical section of a mutex, where
  the source has one), written with the source's branches and constants. `Enabled` says when a thread can take a
  step; `Safe` says what the source relies on without checking when it takes it (its assertions, pointers that must
  point somewhere, counters that must not wrap around). A step that is not `Safe` may lead to any state, so
  `RunsAreSafe` is a theorem and not an assumption. A weak compare_exchange may fail for no reason, a strong one
  never does.
* `*Invariant.dfy`, `*Proofs.dfy`, `*Steps.dfy`, `*Theorems.dfy` hold the inductive invariant, one lemma per step
  that keeps it, and the theorems about all reachable states and all runs. Counters of the source are related to
  the number of threads in certain phases, with the counting lemmas of `Census.dfy`.
* `*Code.dfy` (and `SharedMutexImpl.dfy`) is the source's own form: classes whose methods assign their fields and
  walk intrusive lists on a heap, proved against a specification. Nobody interferes there. `*Alone.dfy`,
  `SharedMutexImpl`, `ResultCoreCode`, `MutexCode` and `StrandProofs` tie these specifications to the steps that the
  machine interleaves: what a thread does when nobody disturbs it is what the code does to the heap. Where no step
  of a machine can be repeated for nothing, `*Progress.dfy` and `ConnectProofs` say that every run is finite, how
  long it can be, and what it ends with.

| part | machine and proofs | code |
|---|---|---|
| reader/writer lock of coroutines | `SharedMutexRuns`, `SharedMutexInvariant`, `SharedMutexNumbers`, `SharedMutexSteps`, `SharedMutexHandOff`, `SharedMutexTheorems`, `SharedMutexFairness`, `SharedMutexPassing`, `SharedMutexRefines`, `SharedMutexAlone` | `SharedMutexCode`, `SharedMutexImpl`, `IntrusiveLists` |
| core of a shared future | `SharedCoreRuns`, `SharedCoreInvariant`, `SharedCoreSteps`, `SharedCoreDispatch`, `SharedCoreTheorems`, `SharedCoreDelivery`, `SharedCoreAlone` | `BaseCoreCode`, `ResultCoreCode` |
| chain of connected unique contracts | `ConnectRuns`, `ConnectProofs` | `ResultCoreCode` |
| waiting with a timeout, co_await of several futures | `WaitRuns`, `WaitProofs`, `WaitAlone` | `WaitCode` |
| wait group and one-shot event | `WaitGroupRuns`, `WaitGroupProofs`, `WaitGroupAlone` | `WaitGroupCode` |
| mutex of coroutines, sticky guard | `MutexRuns`, `MutexProofs`, `MutexTheorems`, `MutexAlone` | `MutexCode`, `IntrusiveLists` |
| strand | `StrandRuns`, `StrandProofs` | `StrandCode`, `IntrusiveLists` |
| WhenAny, WhenAll | `WhenRuns`, `WhenProofs`, `WhenTheorems`, `WhenProgress` | `WhenCode` |
| chain of continuations | `PipelineRuns`, `PipelineProofs`, `PipelineProgress` | `PipelineCode` |
| thread pool | `FairPoolRuns`, `FairPoolProofs`, `FairPoolAlone` | `FairPoolCode`, `IntrusiveLists` |
| list of the fiber scheduler | | `BiListCode` |

## Where code and documentation disagree

`Future::Ready` and `SharedFuture::Ready` are documented to say whether the result is computed
(include/yaclib/async/future.hpp:62-70). The code returns `!_core->Empty()`, which is also true while a callback is
registered and nothing is stored yet. `SharedCoreTheorems.ReadyMeaning` says exactly when the answer is right: no
callback is registered, or the promise was published.

Two operations rely on that answer instead of waiting. `Touch` asserts it
(include/yaclib/async/shared_future.hpp:54-70), and `co_await` of a shared future does not suspend when it is true
(include/yaclib/coro/detail/await_awaiter.hpp:235-245). The machine has the question and the read as two steps
(`AwaitOp` or `TouchOp` and then `LookOp`, and `GetRefOp` with `TakeOp` for `Touch &&`), gated as in the code.
`TrustingReady` says that they read a result that was never constructed exactly when a callback is registered and
nothing is stored at the time of the read, `ReadyTooEarly` is a run of three steps that gets there, and
`SharedCoreTheorems.RunsAreSafe` says that this is the only thing that can go wrong: a run is safe if and only if
it avoids that one case. The theorems about reachable states are about such runs.

A continuation without an executor of its own is meant to run on the one before it in the chain. Not so behind a
stage whose function returned a task that a coroutine heads: the coroutine's promise swaps executors with the stage
(include/yaclib/coro/detail/promise_type.hpp:124-127, include/yaclib/util/detail/intrusive_ptr_impl.hpp:35-39) and
the stage is left with the inline executor, which it hands on. `PipelineProofs.ExecutorInherited` says exactly when,
`ExecOfIs` says it for the meaning of the chain, and `CoroutineTakesExecutor` is the input.

A wait group that is made with a count of 0 never counts down to 0, so the jobs that wait for it are called only
if something is added and done later (`WaitGroupProofs.NobodyForgotten`).

## Model

| member | source | states |
|---|---|---|
| `SharedMutexTheorems.RunsAreSafe` | include/yaclib/coro/shared_mutex.hpp:18-163 | in every run, for both FIFO and both reader orders, the assertions hold, every queue that is popped is not empty and every pointer that is run points to a suspended coroutine |
| `SharedMutexTheorems.Exclusion` | include/yaclib/coro/shared_mutex.hpp:18-163 | a writer that owns the lock, or was taken out of the queue for it and not resumed yet, excludes every other writer and every admitted reader |
| `SharedMutexTheorems.HandOverUnique` | include/yaclib/coro/shared_mutex.hpp:40-48 | while the last reader is on its way to run the first writer there is one such reader and one such writer, `_writers_first` points to it, it is suspended, and nobody else owns the lock or can get it |
| `SharedMutexTheorems.ReadersWaitMeaning` | include/yaclib/coro/shared_mutex.hpp:71-79 | `_readers_wait` modulo 2^32 is the number of admitted readers, unspent passes and readers between their two decrements; before the writer's addition it is that minus the readers the writer counted |
| `SharedMutexTheorems.Accounting` | include/yaclib/coro/shared_mutex.hpp:98-163 | both halves of `_state`, `_readers_size` and `_readers_pass` in terms of who owns, waits, is queued or in flight; without a writer passes equal readers in flight and nobody is queued; an owner implies no passes |
| `SharedMutexTheorems.NobodyForgotten` | include/yaclib/coro/shared_mutex.hpp:98-163 | whenever a coroutine is suspended, the one that it waits for is running: for a queued one that is the writer with the claim on the lock, or whoever that writer waits for (a reader still to leave, or the unlocker that is about to run it); it can take a step, or the holder of the spinlock can |
| `SharedMutexRefines.Refines` | include/yaclib/coro/shared_mutex.hpp:18-163 | every step is a step, by the same coroutine, of an abstract reader/writer lock with an owner, a chosen next writer, admitted readers and two queues; the lock says who is next after an unlock, for both FIFO settings: the first writer if it queued up before all readers, or without FIFO when there are none, otherwise all queued readers and after them the first writer |
| `SharedMutexRefines.AbstractSound` | include/yaclib/coro/shared_mutex.hpp:18-163 | in that lock at most one writer has a claim, an owner excludes readers, nobody waits unless a writer has a claim, and with FIFO the number of writers before the first reader is that of all writers while no reader is queued |
| `SharedMutexFairness.BoundedBypass` | include/yaclib/coro/shared_mutex.hpp:184-185 | while a reader stays queued, over any stretch of a run, writers get the lock at most `_writers_prio` + 1 times, and at most once without FIFO |
| `SharedMutexFairness.WriterAdvances` | include/yaclib/coro/shared_mutex.hpp:49-54 | over any stretch of a run a queued writer moves forward by exactly one place per writer that is taken out of the queue |
| `SharedMutexFairness.DecisionServesQueue` | include/yaclib/coro/shared_mutex.hpp:144-163 | every slow unlock with queued writers takes one out, at once or when it also runs the readers |
| `SharedMutexPassing.FewReadersPass` | include/yaclib/coro/shared_mutex.hpp:28-48 | while a writer stays the waiting first writer, over any stretch of a run, readers are let in only with the passes that were unspent at its start, and the readers it waits for, which `_readers_wait` counts, only become fewer |
| `SharedMutexImpl.SlowUnlockIsSteps` | include/yaclib/coro/shared_mutex.hpp:144-163 | in every reachable state SlowUnlock, run without interference, is the composition of the machine's steps, with the same data and the same coroutines to resume, and none of its assertions fails |
| `SharedMutexImpl.SlowUnlockServes` | include/yaclib/coro/shared_mutex.hpp:98-163 | in every reachable state SlowUnlock resumes somebody if and only if somebody is queued, resumes only queued coroutines, and everybody who was queued is resumed, or becomes the first writer, or stays queued: nobody is lost or served twice |
| `SharedMutexAlone.LockSharedIsSteps` | include/yaclib/coro/shared_mutex.hpp:18-38 | in every reachable state with the spinlock free, a reader that nobody disturbs takes steps of the machine that do what TryLockSharedAwait and AwaitLockShared do on the heap, and holds the lock unless it suspends; the spinlock is free afterwards |
| `SharedMutexAlone.LockIsSteps` | include/yaclib/coro/shared_mutex.hpp:22-55 | the same for a writer, TryLockAwait and AwaitLock: it has the lock unless it suspends, in the queue or as the first writer, and leaves the spinlock free |
| `SharedMutexAlone.UnlockSharedIsSteps` | include/yaclib/coro/shared_mutex.hpp:71-79 | the same for a reader that unlocks and UnlockHereShared: it resumes at most one coroutine; a writer that waits as the first one is resumed, and has the lock afterwards, if and only if this reader was the only one that it waited for |
| `SharedMutexAlone.UnlockIsSteps` | include/yaclib/coro/shared_mutex.hpp:81-85 | the same for a writer that unlocks: if nobody else is counted the word is 0 afterwards and nobody else moved; otherwise everybody whom SlowUnlock resumes has the lock at the end, the new first writer waits for them, all others are where they were; the spinlock is free |
| `SharedMutexAlone.TryLockSharedIsSteps` | include/yaclib/coro/shared_mutex.hpp:57-65 | undisturbed, TryLockShared has the lock exactly when no writer is counted, and changes nothing otherwise |
| `SharedMutexAlone.TryLockIsSteps` | include/yaclib/coro/shared_mutex.hpp:67-69 | undisturbed, TryLock has the lock exactly when nobody is counted, and changes nothing otherwise |
| `SharedMutexImpl.SharedMutex.AwaitLockShared` | include/yaclib/coro/shared_mutex.hpp:28-38 | spends a pass and goes on, or links its node into the heap list of readers, on the side that the configured order asks for, and leaves the writers' list as it is |
| `SharedMutexImpl.SharedMutex.AwaitLock` | include/yaclib/coro/shared_mutex.hpp:40-55 | behind another writer its node is linked to the end of the heap list of writers; otherwise it is the first writer and suspends exactly when readers were counted and `_readers_wait` is not zero once they are added to it, whatever readers left meanwhile |
| `SharedMutexImpl.SharedMutex.CoLockShared` | include/yaclib/coro/detail/mutex_awaiter.hpp:16-31 | a co_await of the shared lock suspends exactly when a writer is counted and no pass is left, and then its node is in the readers' list |
| `SharedMutexImpl.SharedMutex.CoLock` | include/yaclib/coro/detail/mutex_awaiter.hpp:16-31 | a co_await of the lock does what TryLockAwait and then AwaitLock do, and its node is in the writers' list exactly when a writer was counted |
| `SharedMutexImpl.SharedMutex.TryLockShared` | include/yaclib/coro/shared_mutex.hpp:57-65 | counts the reader exactly when no writer is counted, whatever spurious failures there are |
| `SharedMutexImpl.SharedMutex.UnlockHereShared` | include/yaclib/coro/shared_mutex.hpp:71-79 | counts the reader out, also from `_readers_wait` when a writer is counted; runs the first writer, and nobody else, exactly when a writer is counted and `_readers_wait` was 1 |
| `SharedMutexImpl.SharedMutex.UnlockHere` | include/yaclib/coro/shared_mutex.hpp:81-85 | frees the lock when nobody else is counted; otherwise the heap lists, the counters and the resumed coroutines are those of `SlowUnlocked`, whose meaning `SlowUnlockServes` and `SlowUnlockIsSteps` state |
| `SharedMutexImpl.SharedMutex.RunReaders` | include/yaclib/coro/shared_mutex.hpp:120-142 | the heap list of readers is moved out, emptied and resumed in its order; the first node of the writers' list is unlinked as the next first writer if there is one |
| `SharedMutexImpl.SharedMutex.SlowUnlock` | include/yaclib/coro/shared_mutex.hpp:144-163 | on the heap lists, every node that was linked is resumed, or is the new first writer, or is still linked, each once |
| `SharedCoreTheorems.RunsAreSafe` | src/algo/base_core.cpp:6-72 | in every run of futures, awaiting coroutines, promise, callbacks and combinators, up to any step: the core exists when it is touched, a result that is read was stored and not moved away, and the last reference is released only by a ready core, if and only if no read of co_await, Touch or Touch && comes while a callback is registered and nothing is stored |
| `SharedCoreTheorems.TrustingReady` | include/yaclib/coro/detail/await_awaiter.hpp:229-245 | in every reachable state in which co_await, Touch or Touch && has seen Ready and is about to read, the read is unsafe exactly when a callback is registered and the promise has stored nothing, and then what it reads was never constructed; after the store it is safe, however early Ready was |
| `SharedCoreTheorems.MovedOnce` | include/yaclib/algo/detail/result_core.hpp:67-84 | once the value was moved out, no later step of the run gives it to anybody: not to a future that gets, touches or awaits it, not to a callback that the dispatch calls, was refused or was submitted |
| `SharedCoreTheorems.ReceivedIsStored` | include/yaclib/async/shared_future.hpp:36-52 | everybody who was given a result, by copy, by move or by reference, was given the one that was stored |
| `SharedCoreTheorems.DispatchCounts` | src/algo/base_core.cpp:53-72 | while a callback is called the count is at least 3 unless it is the last one; then it is at least 2, and 2 exactly when no future, combinator or submitted callback is left |
| `SharedCoreTheorems.MoverIsAlone` | include/yaclib/async/shared_future.hpp:36-44 | a future that saw the count 1 and moves the result is the only one that can reach the core |
| `SharedCoreTheorems.EachCalledOnce` | src/algo/base_core.cpp:54-72 | the dispatch calls each registered callback once, the last registered first, and all of them before the promise lets go of the core |
| `SharedCoreTheorems.RefusedIsReady` | src/algo/base_core.cpp:9-18 | a registration fails only when the result can be read |
| `SharedCoreTheorems.CalledGotResult` | src/algo/base_core.cpp:54-67 | a reader or a forwarding core that is done was given the stored result; only a submitted callback may be dropped without it |
| `SharedCoreDelivery.StepDelivers` | src/algo/base_core.cpp:6-72 | in every reachable state, for every step that is safe to ask for: a future that gets, touches or awaits, a callback that the dispatch calls or that was refused, a core that forwards, and a submitted callback that its executor calls are each given the stored result by that step; a submitted callback gets its reference; every other step, and a drop, gives nobody anything |
| `SharedCoreDelivery.SubmittedGotResult` | include/yaclib/algo/detail/core.hpp:127-145 | a submitted callback was given the stored result if and only if its executor called it; one that was dropped got nothing |
| `SharedCoreTheorems.Lifetime` | include/yaclib/algo/detail/result_core.hpp:35-38 | the core is destroyed exactly when the promise and every other owner let go of it, and then it is ready and every callback was called |
| `SharedCoreTheorems.DestroyedIsFinal` | include/yaclib/algo/detail/result_core.hpp:35-38 | nobody can take a step on a destroyed core |
| `SharedCoreTheorems.ReadyMeaning` | include/yaclib/async/shared_future.hpp:31-34 | Ready is true for a core with a result; it is true only for those if and only if no callback is registered or the promise was published |
| `SharedCoreTheorems.ReadyTooEarly` | include/yaclib/coro/detail/await_awaiter.hpp:235-245 | the input that fails: one coroutine awaits a shared future and suspends; nothing is stored, Ready is true, a second coroutine that awaits the same future does not suspend, and reads a result that is not there if it goes on before the store; so would Touch |
| `ResultCoreCode.ImplIsSteps` | include/yaclib/algo/detail/result_core.hpp:67-84 | a core called in the dispatch finds what Impl needs, gets the stored result, and moves it away if and only if it is the last callback and nobody else is left |
| `ResultCoreCode.RetireIsSteps` | include/yaclib/algo/detail/shared_core.hpp:29-37 | loading the count, taking the result and releasing the reference without a pause is Retire, and gives the stored result, for a combinator that was called or refused |
| `ResultCoreCode.GetIsSteps` | include/yaclib/async/shared_future.hpp:36-44 | loading the count and taking the result without a pause is Get &&: it gives the stored result, moves it away exactly at a count of 1, and keeps the reference |
| `ResultCoreCode.ResultCore.Impl` | include/yaclib/algo/detail/result_core.hpp:67-94 | stores the result of the caller; a caller with a count of 1 is moved from, released and destroyed; one with a count of 2 is moved from and keeps its count; one with 3 or more is not touched; a value that cannot be copied is always moved and its caller destroyed |
| `ResultCoreCode.UniqueImplIsSteps` | include/yaclib/algo/detail/result_core.hpp:77-94 | in every reachable state of a chain of connected contracts, a core that is called and runs without a pause does to itself and its caller what Impl does with a caller of count 1, for values that can be copied and for others: it has the value, and the caller is destroyed |
| `ConnectProofs.RunsAreSafe` | include/yaclib/async/connect.hpp:11-22 | in every run of a chain of contracts connected before, while or after the result comes, a core that is touched exists, a result that is taken is there, no core has two callbacks or two results, and only a ready core is destroyed |
| `ConnectProofs.OneOwner` | include/yaclib/algo/detail/result_core.hpp:67-94 | the value is in one place at a time, in one core, in the hands of one thread or with the owner of the last future, and it is the one that the first promise was set to |
| `ConnectProofs.DestroyedOnce` | include/yaclib/algo/detail/result_core.hpp:77-94 | when a core has been given its result, every core before it was destroyed exactly once |
| `ConnectProofs.AllDestroyed` | include/yaclib/algo/detail/result_core.hpp:35-38 | when the last future was taken, it gave the first promise's value and every core was destroyed exactly once |
| `ConnectProofs.NobodyForgotten` | include/yaclib/async/connect.hpp:11-22 | once the first promise is set and every future is connected or being connected, somebody can take a step until the last core has the result |
| `ConnectProofs.RunsEnd` | include/yaclib/async/connect.hpp:11-22 | no run of a chain of n contracts has more than 8 n + 1 steps |
| `ConnectProofs.EndsTaken` | include/yaclib/async/connect.hpp:11-22 | where a run ends that nobody can go on with, the last future gave the first promise's value and every core was destroyed once |
| `ResultCoreCode.ResultCore.Retire` | include/yaclib/algo/detail/shared_core.hpp:29-37 | moves with a count of 1, copies otherwise, and releases the reference |
| `BaseCoreCode.BaseCore.SetCallbackShared` | src/algo/base_core.cpp:9-18 | pushes the callback onto the intrusive list of the heap unless there is a result, which is the registration of `SharedCoreAlone.RegisterIsSteps` |
| `SharedCoreAlone.RegisterIsSteps` | src/algo/base_core.cpp:9-18 | in every reachable state a future that registers a callback without a pause does to the machine what SetCallback does to the heap, and has the callback back exactly when there is a result |
| `BaseCoreCode.BaseCore.SetCallbackUnique` | src/algo/base_core.cpp:19-24 | registers the callback exactly when the word is empty |
| `BaseCoreCode.BaseCore.Reset` | src/algo/base_core.cpp:30-34 | takes the callback back exactly when there is no result |
| `BaseCoreCode.BaseCore.SetResultShared` | src/algo/base_core.cpp:52-72 | on the heap: every callback once, the last registered first, the count each one sees, and three references given up, which is the dispatch of `SharedCoreAlone.DispatchIsSteps` |
| `SharedCoreAlone.DispatchIsSteps` | src/algo/base_core.cpp:52-72 | from every reachable state in which the result is stored, the promise alone gets through: every callback of any kind is called once, the last registered first, and the count is what it was minus three plus the submitted callbacks |
| `WaitProofs.RunsAreSafe` | include/yaclib/async/detail/wait_impl.hpp:20-62 | in every run of a waiter and its producers nobody touches the event after the return, its counter does not wrap around, it is set once, and a coroutine is resumed only when it is suspended and `next` points to it |
| `WaitProofs.TrueMeansReady` | include/yaclib/async/detail/wait_impl.hpp:37-39 | after true, and when the coroutine goes on, every future has its result |
| `WaitProofs.FalseMeansReset` | include/yaclib/async/detail/wait_impl.hpp:52-57 | after false there was a timeout and some callback was taken back before its result |
| `WaitProofs.NobodyTouches` | include/yaclib/async/detail/wait_impl.hpp:58-61 | after the return no core refers to the event and no producer is about to use it |
| `WaitProofs.SetOnce` | include/yaclib/util/detail/atomic_counter.hpp:23-46 | the event is set at most once |
| `WaitProofs.SomebodyWakes` | include/yaclib/async/detail/wait_impl.hpp:41-60 | a waiter that blocks, or a suspended coroutine, has a producer that knows the event and can take a step towards setting it |
| `WaitProofs.ProducersFinish` | include/yaclib/util/detail/atomic_counter.hpp:23-46 | the steps left to all producers that know the event are a sum that each of their steps makes smaller and nobody's makes larger, and it is not zero while the waiter cannot go on |
| `WaitProofs.WaitEnds` | include/yaclib/async/detail/wait_impl.hpp:41-60 | a waiter does not block for ever: over any stretch of a run in which it stays blocked or suspended, those producers take at most three steps for each future, and always have one left until the event is set |
| `WaitCode.WaitRange` | include/yaclib/async/detail/wait_impl.hpp:20-93 | the answer is true exactly when every input has its result in the end; an input without one is left as it was, without a callback |
| `WaitCode.SetCallbacks` | include/yaclib/algo/detail/shared_event.hpp:86-99 | registers with every empty input and counts the registrations |
| `WaitCode.ResetCallbacks` | include/yaclib/async/detail/wait_impl.hpp:52-54 | takes every callback back that has no result, and counts them |
| `WaitCode.MultiAwait` | include/yaclib/coro/detail/await_awaiter.hpp:171-198 | the coroutine goes on by itself only when every future has its result, and if it suspends it is resumed exactly when the last one has |
| `WaitAlone.WaitIsSteps` | include/yaclib/async/detail/wait_impl.hpp:20-62 | a wait with a timeout that no producer disturbs returns true if and only if every future has its result; otherwise it returns false, with every callback taken back and the event never set |
| `WaitGroupProofs.RunsAreSafe` | src/algo/one_shot_event.cpp:6-28 | in every run of operations and waiters, of a group made with any count including 0, the counter does not wrap around, the event is set once, and a job is called only while its waiter waits |
| `WaitGroupProofs.WaitMeansDone` | include/yaclib/algo/wait_group.hpp:23-42 | nobody who waits goes on, and nobody is told not to wait, before every operation is done |
| `WaitGroupProofs.CalledOnce` | src/algo/one_shot_event.cpp:6-14 | the jobs are called once each, the last added first, all of them when the caller is through |
| `WaitGroupProofs.NobodyForgotten` | src/algo/one_shot_event.cpp:18-48 | for an added job an operation can take a step that leads to its call, if and only if anything was ever added to the group; of a group of nothing the waiters are kept, as nobody counts down to zero |
| `WaitGroupCode.OneShotEvent.TryAdd` | src/algo/one_shot_event.cpp:18-28 | pushes the job unless the event is set |
| `WaitGroupCode.OneShotEvent.SetImpl` | src/algo/one_shot_event.cpp:6-14 | calls every job once, the last added first, though a job may overwrite its `next` |
| `WaitGroupCode.WaitGroup.InsertRange` | include/yaclib/algo/wait_group.hpp:247-289 | afterwards the group counts exactly the futures without a result, which all have the callback; a consumed future with a result is released; the event is set only if nothing is left |
| `WaitGroupAlone.TryAddIsSteps` | src/algo/one_shot_event.cpp:18-28 | in every reachable state a waiter that nobody disturbs is added behind the others unless the event is set, and is refused exactly then, which is what TryAdd does to the heap |
| `WaitGroupAlone.DoneIsSteps` | src/algo/one_shot_event.cpp:6-14 | in every reachable state an operation that finishes undisturbed takes one from the count; the last one sets the event and calls everybody who was ever added, the last one first |
| `MutexTheorems.RunsAreSafe` | include/yaclib/coro/mutex.hpp:17-126 | in every run a list that is popped has a suspended coroutine at its head, and nobody unlocks an unlocked mutex |
| `MutexTheorems.Exclusion` | include/yaclib/coro/mutex.hpp:17-105 | at most one coroutine owns the mutex, and none while a thread still has to hand it over |
| `MutexTheorems.NoBarging` | include/yaclib/coro/mutex.hpp:17-50 | an unlocked mutex has no waiters in either list |
| `MutexTheorems.Refines` | include/yaclib/coro/mutex.hpp:24-126 | every step of the mutex is a step, by the same coroutine, of an abstract lock with an owner, a batch that is being served and a queue behind it: it says who joins the queue, who leaves and who becomes the owner |
| `MutexTheorems.MovesExactly` | include/yaclib/coro/mutex.hpp:17-126 | the abstract lock moves at a named set of steps and at no other: a compare_exchange that succeeds, an exchange, a pop of `_receiver`, and the submission of an owner that leaves the mutex to its thread |
| `MutexAlone.LockIsSteps` | include/yaclib/coro/mutex.hpp:17-40 | in every reachable state a coroutine that locks undisturbed owns the mutex if it was unlocked, and otherwise is the last of the queue, on the executor that it had; nobody else notices |
| `MutexAlone.TryLockIsSteps` | include/yaclib/coro/mutex.hpp:17-22 | undisturbed, TryLock owns an unlocked mutex and does nothing to a locked one |
| `MutexAlone.UnlockIsSteps` | include/yaclib/coro/mutex.hpp:42-105 | in every reachable state an owner that unlocks undisturbed, by any of the four ways, is off the mutex; nobody waited and the mutex is free, or it is granted to the first of the queue, as on the heap; each of the two goes on with the executor that the way and batching say, and nobody else notices |
| `MutexAlone.SwitchThenUnlock` | include/yaclib/coro/guard_sticky.hpp:17-59 | an owner that switches executors while it holds a sticky guard runs on the new one and keeps the mutex; its sticky unlock brings it home if and only if it had to await the lock |
| `MutexTheorems.FirstComeFirstServed` | include/yaclib/coro/mutex.hpp:108-126 | with FIFO, coroutines that suspend get the mutex in the order of their successful compare_exchange |
| `MutexTheorems.BatchBeforeBatch` | include/yaclib/coro/mutex.hpp:56-95 | in both modes a batch taken from `_sender` is served completely before anybody of a later one |
| `MutexTheorems.NobodyForgotten` | include/yaclib/coro/mutex.hpp:56-105 | while a coroutine waits, an owner or a thread handing the mutex over can take a step |
| `MutexTheorems.RunsOnItsExecutor` | include/yaclib/coro/mutex.hpp:63-95 | a coroutine that is not suspended is on a thread of the executor that its promise names, however threads and executors are swapped, handed over and batched on the way |
| `MutexTheorems.StickyReturnsHome` | include/yaclib/coro/guard_sticky.hpp:17-59 | a coroutine that locked and unlocked with a sticky guard and did not switch executors itself is back on the executor it had before |
| `MutexTheorems.LeftOnlyItself` | include/yaclib/coro/guard_sticky.hpp:47-59 | no step of another coroutine makes a coroutine lose that promise |
| `MutexCode.MutexImpl.AwaitLock` | include/yaclib/coro/mutex.hpp:24-40 | takes the mutex or pushes the coroutine onto the intrusive stack |
| `MutexCode.MutexImpl.GetHead` | include/yaclib/coro/mutex.hpp:108-126 | the next owner; everybody behind `_sender` becomes the batch, in FIFO mode turned around in place |
| `MutexCode.MutexImpl.UnlockHereAwait` | include/yaclib/coro/mutex.hpp:56-61 | the first of the queue leaves it and goes on, on its own executor, and the heap lists are those of a grant |
| `MutexCode.MutexImpl.PoppedIsGranted` | include/yaclib/coro/mutex.hpp:56-126 | taking the first of the queue out of the heap lists is the step of the abstract lock that grants it to that coroutine, with FIFO and without |
| `MutexCode.MutexImpl.AwaitUnlockOn` | include/yaclib/coro/mutex.hpp:74-95 | who goes on, in which order and on which executor, and the queue that is left |
| `MutexCode.MutexImpl.CoUnlock` | include/yaclib/coro/mutex.hpp:136-156 | with batching the coroutine and the next owner swap executors, otherwise only the next owner is submitted |
| `MutexCode.StickyGuard.Lock` | include/yaclib/coro/guard_sticky.hpp:17-31 | remembers the executor exactly when the coroutine suspends |
| `MutexCode.StickyGuard.Unlock` | include/yaclib/coro/guard_sticky.hpp:47-59 | returns to the remembered executor and passes the mutex on |
| `IntrusiveLists.TurnAround` | src/exe/strand.cpp:36-43 | turns a non-empty intrusive stack around in place, into the list of the same nodes in the order of the pushes |
| `StrandProofs.RunsAreSafe` | src/exe/strand.cpp:24-65 | in every run the strand exists when it is touched, Call and Drop find a list that is neither empty nor Mark, and the strand is empty when its last reference goes |
| `StrandProofs.OneCallAtATime` | src/exe/strand.cpp:35-55 | at most one activation is in Call, and then no other is pending |
| `StrandProofs.CallOrder` | src/exe/strand.cpp:24-55 | jobs are called in the order of their successful pushes |
| `StrandProofs.ExactlyOnce` | src/exe/strand.cpp:24-65 | every push of a job is followed by one call or one drop, never both |
| `StrandProofs.SelfReferences` | src/exe/strand.cpp:29-32 | the strand owns one reference to itself per outstanding activation, and has a live one exactly when it is not marked |
| `StrandProofs.NobodyForgotten` | src/exe/strand.cpp:24-65 | while a job is on its way, an activation or a submitter can take a step |
| `StrandProofs.CallIsSteps` | src/exe/strand.cpp:35-55 | from every reachable state an activation that is called and runs without a pause calls the whole list in order, marks the strand and gives its reference up, which is what `Strand.Call` does to the heap |
| `StrandProofs.DropIsSteps` | src/exe/strand.cpp:57-65 | the same for an activation that is dropped: nothing is called, the list is gone, and the strand is as `Strand.Drop` leaves it |
| `StrandProofs.SubmitIsSteps` | src/exe/strand.cpp:24-33 | from every reachable state a submission that nobody disturbs pushes its job once, behind the others; over Mark it takes a reference and submits the strand, and only then; it is what `Strand.Submit` does to the heap |
| `StrandProofs.PushedWhenLeft` | src/exe/strand.cpp:24-33 | in every run a submission goes on from its loop only by its own successful compare_exchange, with its job on the stack |
| `StrandCode.Strand.Submit` | src/exe/strand.cpp:24-33 | pushes the job; over Mark it takes a reference and submits the strand |
| `StrandCode.Strand.Call` | src/exe/strand.cpp:35-55 | calls every job once in the order of the pushes, whatever is submitted meanwhile; then marks the strand and gives its reference up, or keeps it and submits the strand again exactly when something was |
| `StrandCode.Strand.Drop` | src/exe/strand.cpp:57-65 | drops every job once, the last pushed first, and marks the strand |
| `WhenTheorems.RunsAreSafe` | include/yaclib/async/when/when.hpp:138-200 | in every run the combinator exists when it is touched, is destroyed once after its last input, its promise is set at most once, and its destructor finds every slot registered and every core in it ready, and a value there where it takes one |
| `WhenTheorems.AliveWhileRegistering` | include/yaclib/async/when/when.hpp:151-167 | the combinator lives until the last input was registered, whatever is ready meanwhile |
| `WhenTheorems.Finished` | include/yaclib/async/when/when.hpp:193-197 | when the combinator is gone, every input core was released once, by its consumption or by the destructor's walk over the registered slots, and the promise was set once, to the strategy's answer; it is gone when all inputs are through |
| `WhenTheorems.NobodyForgotten` | include/yaclib/async/when/when.hpp:95-125 | until the combinator is destroyed somebody can take a step |
| `WhenProgress.RunsEnd` | include/yaclib/async/when/when.hpp:138-200 | no run of a combinator of n inputs has more than 9 n steps |
| `WhenProgress.EndsAnswered` | include/yaclib/async/when/when.hpp:138-200 | where a run ends that nobody can go on with, every input has its result and was released once, the combinator was destroyed and its promise set to the strategy's answer |
| `WhenTheorems.AnyNoneAnswer` | include/yaclib/async/when/any.hpp:26-35 | the result of the input that exchanged `_done` first |
| `WhenTheorems.AnyFirstFailAnswer` | include/yaclib/async/when/any.hpp:52-79 | the first value if any input has one, otherwise the first error |
| `WhenTheorems.AnyLastFailAnswer` | include/yaclib/async/when/any.hpp:111-122 | the first value if any input has one, otherwise the error of the last of all inputs to fail |
| `WhenTheorems.LastFailWord` | include/yaclib/async/when/any.hpp:101-131 | after a value the state stays odd through every later subtraction, even when it wraps around; before, it is twice the number of inputs that have not failed |
| `WhenTheorems.AllNoneAnswer` | include/yaclib/async/when/all.hpp:35-42 | what the destructor's walk over the slots that Register filled puts out is all results in the order of the inputs, in whatever order they completed |
| `WhenTheorems.AllFirstFailAnswer` | include/yaclib/async/when/all.hpp:64-86 | the error of the first failed input to exchange `_done` if any failed, otherwise what the walk over the slots puts out, which is all values in the order of the inputs |
| `WhenCode.When` | include/yaclib/async/when/when.hpp:349-367 | with inputs that are ready or complete later, in any order: the answer is the first value, the first or the last error of that order, or everything in the order of the inputs, as the strategy says, and every input core is released once; without inputs there is none |
| `WhenCode.Combinator.RetireAll` | include/yaclib/async/when/all.hpp:35-42 | walks the slots of the registered cores: all results in the order of the inputs, and one reference of each given up |
| `PipelineProofs.RunsAreSafe` | include/yaclib/algo/detail/core.hpp:127-232 | in every run a core that is read has its result and was not released, an executor that is inherited is there, and no core is given two callbacks or two results |
| `PipelineProofs.ChainIsFold` | include/yaclib/algo/detail/core.hpp:127-290 | eager or lazy, attached before or after completion, on any executor, with functions that return values, futures or tasks: the result of a stage is the left fold of the stages |
| `PipelineProofs.StageMeaning` | include/yaclib/algo/detail/core.hpp:235-264 | in every reachable state, in terms of the functions alone: a stage that was not dropped and has its result has what `f(v)` gives if its function takes values and the result before it is the value v, what `g(e)` gives if it takes errors and that is the error e, what `h(r)` gives if it takes results, and otherwise the result before it; the function was invoked once or not at all accordingly, and what it returned was unwrapped once; a dropped stage sees Stop |
| `PipelineProofs.ChainComposes` | include/yaclib/algo/detail/core.hpp:235-241 | behind a head that has a value, stages of value functions that were not dropped, each returning a result, a future or a task, give the composition of the functions up to the first that fails, however they were attached and run |
| `PipelineProofs.RunsAgree` | include/yaclib/algo/detail/core.hpp:375-419 | two runs of the same stages agree on every result they both have |
| `PipelineProofs.InvokedAndReleasedOnce` | include/yaclib/algo/detail/core.hpp:201-232 | a function is invoked once, on the input of the fold, or not at all when that input is not for it; every core is released once, by the stage behind it, and so is the core of a returned future or task, whether it was ready, became ready during SetInline or called back later |
| `PipelineProofs.ExecutorInherited` | include/yaclib/algo/detail/base_core.hpp:32-38 | a stage has the executor that the chain names for it, its own or the nearest one before, if and only if that is the inline one or no stage that it inherits through was invoked and returned a task headed by a coroutine; otherwise it has the inline one; and such a stage itself hands the inline one on |
| `PipelineProofs.ExecOfIs` | include/yaclib/algo/detail/core.hpp:281-287 | for every chain: the executor in the meaning of a stage is the one that the chain names, unless a stage that it inherits through starts a coroutine, whose initial executor it is then |
| `PipelineProofs.CoroutineTakesExecutor` | include/yaclib/coro/detail/promise_type.hpp:124-132 | the input that fails: the head names an executor and its function returns a coroutine's task, the second stage names none, the executor stops; in a reachable state the second stage was called on the value, on the inline executor, and was not given Stop |
| `PipelineProofs.NobodyForgotten` | include/yaclib/algo/detail/core.hpp:147-180 | until the last attached stage has its result some core can take a step |
| `PipelineProgress.RunsEnd` | include/yaclib/algo/detail/core.hpp:127-290 | no run of a chain of n stages has more than 10 n steps, whatever its functions return and whoever attaches what when |
| `PipelineProgress.EndsFolded` | include/yaclib/algo/detail/core.hpp:127-290 | where a run ends that nobody can go on with, every stage is attached and has published the left fold of the stages up to it |
| `PipelineProofs.ErrorsPassThrough` | include/yaclib/algo/detail/core.hpp:235-241 | a failure passes every stage that only takes values and is not dropped |
| `PipelineProofs.ValuesPassThrough` | include/yaclib/algo/detail/core.hpp:259-264 | a value passes every stage that only takes errors |
| `PipelineProofs.DroppedSeesStop` | include/yaclib/algo/detail/core.hpp:143-145 | in every reachable state: a stage whose named executor drops it, and was not taken away by a coroutine, was given Stop; a function of values was then not invoked and the stage's result is Stop, any other was invoked once, on Stop; every other stage was given the result before it |
| `PipelineCode.MoveToCaller` | include/yaclib/algo/detail/core.hpp:94-102 | finds the first core of a Task and cuts all links |
| `PipelineCode.Start` | src/lazy/task_impl.cpp:6-15 | submits the first core of a Task to its own executor or to the one given |
| `PipelineCode.StageCore.Here` | include/yaclib/algo/detail/core.hpp:147-180 | releases the caller; the stage has what `f(v)`, `g(e)` or `h(r)` returned, or the caller's result if the function is not for it, and goes on with its callback; for a future or task it has nothing yet and leaves the loop |
| `PipelineCode.Loop` | include/yaclib/algo/detail/inline_core.hpp:46-52 | on a heap chain every stage up to the first whose function returns a future or task runs, one after the other, leaves the left fold behind and releases the core before it; that one releases it too and leaves the loop |
| `FairPoolProofs.RunsAreSafe` | src/runtime/fair_thread_pool.cpp:28-107 | in every run the packed counter stays within 64 bits and above zero, and whoever calls or drops a job has it to itself |
| `FairPoolProofs.CounterMeaning` | src/runtime/fair_thread_pool.cpp:91-107 | the counter is queued and running jobs, and those HardStop took away, above two flags that additions and subtractions never disturb |
| `FairPoolProofs.SoftStopOnlyIdle` | src/runtime/fair_thread_pool.cpp:41-48 | SoftStop, at once or when the last job is done, stops the pool only with no job queued or running |
| `FairPoolProofs.NoLostWakeUp` | src/runtime/fair_thread_pool.cpp:71-89 | a queued job has an awake worker or a notification on its way; after a stop no worker waits without one |
| `FairPoolProofs.NobodyForgotten` | src/runtime/fair_thread_pool.cpp:71-89 | while a job is queued, or the pool is stopped and a worker has not exited, some thread can take a step that is not a new request |
| `FairPoolProofs.NothingLeftBehind` | src/runtime/fair_thread_pool.cpp:54-69 | when all workers (at least one) have exited, every submitted job was called or dropped exactly once, or is just being dropped |
| `FairPoolProofs.AtMostOnce` | src/runtime/fair_thread_pool.cpp:28-39 | no job is called or dropped twice |
| `FairPoolAlone.SubmitIsSteps` | src/runtime/fair_thread_pool.cpp:28-39 | in every reachable state a client alone that submits does what Submit does to the heap, and in a stopped pool the job is dropped once |
| `FairPoolAlone.HardStopIsSteps` | src/runtime/fair_thread_pool.cpp:54-62 | the same for HardStop: every queued job is dropped once and never called |
| `FairPoolAlone.StopIsSteps` | src/runtime/fair_thread_pool.cpp:50-52 | in every reachable state an undisturbed Stop leaves the pool stopped, its queue and jobs as they were, and every waiting worker awake |
| `FairPoolAlone.SoftStopIsSteps` | src/runtime/fair_thread_pool.cpp:41-48 | the same for SoftStop: a pool without jobs is stopped at once, another one is only told to stop later |
| `FairPoolAlone.WorkIsSteps` | src/runtime/fair_thread_pool.cpp:71-89 | the same for Loop of a worker alone: every queued job is called once, and then the worker waits, or leaves exactly when a stop was asked for |
| `IntrusiveLists.LinkedList.PushBack` | src/util/intrusive_list.cpp:24-29 | appends a node to the intrusive list |
| `IntrusiveLists.LinkedList.PushFront` | src/util/intrusive_list.cpp:16-22 | puts a node in front of the intrusive list, also of an empty one |
| `IntrusiveLists.LinkedList.PopFront` | src/util/intrusive_list.cpp:36-44 | takes the first node off the intrusive list |
| `IntrusiveLists.LinkedList.Moved` | src/util/intrusive_list.cpp:8-14 | takes all nodes over and leaves the other list empty and usable |
| `FairPoolCode.FairThreadPool.HardStop` | src/runtime/fair_thread_pool.cpp:54-62 | stops the pool and drops every queued job once, in the order of submission |
| `FairPoolCode.FairThreadPool.Loop` | src/runtime/fair_thread_pool.cpp:71-89 | one worker alone calls every queued job in order and exits exactly when a stop was asked for |
| `BiListCode.Node.Erase` | src/fault/fiber/bidirectional_intrusive_list.cpp:103-114 | unlinks the node and keeps the ring of the others; a node that is in no list, never linked or a ring of its own, stays out of every list |
| `BiListCode.BiList.PushBack` | src/fault/fiber/bidirectional_intrusive_list.cpp:7-13 | keeps the ring and appends the node |
| `BiListCode.BiList.PopBack` | src/fault/fiber/bidirectional_intrusive_list.cpp:26-30 | keeps the ring and takes the last node off |
| `BiListCode.BiList.GetElement` | src/fault/fiber/bidirectional_intrusive_list.cpp:32-75 | ends, finds the element with that index from either side, and some element of a non-empty list for an index out of range |
| `BiListCode.BiList.MoveFrom` | src/fault/fiber/bidirectional_intrusive_list.cpp:77-91 | takes the other ring over and leaves an empty one behind |
| `BiListCode.BiList.PushAll` | src/fault/fiber/bidirectional_intrusive_list.cpp:93-101 | joins two rings into one, in order, and leaves an empty one behind |

## Left out

- Memory orders, fences and data races: every atomic access is sequentially consistent, and the Set/Wait pair of MutexEvent is one step, as `YACLIB_FUTEX` is 0.
- Coroutine frames and symmetric transfer: a resumed coroutine is one that may take steps on its executor; only the `Here`/`Loop` variant of a callback is modelled.
- Template machinery, type traits, result adapters and exception_ptr: a result is a value or an error, with a distinguished Stop error.
- SharedMutexTheorems.RunsAreSafe: for fewer than 2^32 coroutines per mutex, which is what the two 32-bit halves of `_state` can count; the spinlock itself is one step.
- SharedMutexImpl.SharedMutex.AwaitLockShared: the queue of readers in the opposite order is the same list pushed at its front; the source has a stack without a tail for it.
- SharedMutexFairness.WriterAdvances: counts places in the queue, not time; nothing is assumed or proved about how fair the scheduler is.
- SharedCoreTheorems.ReceivedIsStored: for runs that avoid the case of `TrustingReady`, like every theorem here about reachable states; after an unsafe step nothing is said.
- SharedCoreTheorems.RunsAreSafe: each future is used by one thread at a time, and a future that called `Get() &&` is only dropped afterwards; a unique core has one callback at a time. A combinator's thread may go on before the dispatch has finished with its callback, so there are more interleavings than the code has.
- BaseCoreCode.BaseCore.SetResultShared: a callback is a reader or a submitted one here; forwarding cores and combinators are in `SharedCoreRuns`, and `SharedCoreAlone.DispatchIsSteps` has all kinds.
- ConnectProofs.RunsAreSafe: every contract has one owner, each connection is asked for by its own thread and nobody drops a promise unset; connections of shared contracts are callbacks of kind `Forwards` in `SharedCoreRuns`.
- WaitAlone.WaitIsSteps: for blocking waits with a timeout; a wait without one, or a coroutine, only goes on when the producers do, which `WaitProofs.WaitEnds` is about.
- WaitProofs.RunsAreSafe: the extra callback objects for several shared futures (`EventHelperCallback`) are one event here, because each only forwards to it.
- WaitCode.WaitRange: producers finish at three moments only; `WaitRuns` lets them finish at any moment.
- WaitGroupProofs.RunsAreSafe: the count comes down to zero once, as the class requires of its users; Reset, AtomicEvent and the timed waits of a group are left out.
- FairPoolProofs.NothingLeftBehind: a job that a client holds in the middle of Submit or HardStop is not dropped yet; HardStop does not count the jobs down that it takes away, and `CounterMeaning` says so.
- StrandProofs.OneCallAtATime: only Call phases exclude each other; Drop marks the strand first (src/exe/strand.cpp:58), so its loop may overlap a later activation.
- WhenCode.When: the inputs that complete later do so after all were registered; `WhenRuns` lets them complete at any moment.
- WhenTheorems.RunsAreSafe: the three combinator classes are one machine, as they differ in where the callback objects live; `Join` and user-defined strategies are left out, and so is an empty set of inputs, for which `When` makes no combinator (`WhenCode.When` has it).
- PipelineProofs.ChainIsFold: what a returned future or task computes is an abstract result that its core has or is going to have; tasks headed by a `Schedule` core are left out, and so are stages attached to a shared future, which are callbacks in `SharedCoreRuns`.
- PipelineCode.Loop: the stages behind the head run inline; submitted ones, and what happens after a future or task was returned, are in `PipelineRuns`.
- The rest of the fault backend (fiber scheduler, contexts, wrapped atomics, clocks, random numbers), logging, and iterator and range overloads.
