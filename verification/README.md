# Verified models of the concurrency packages

This project models seven packages of the Go module `digital.vasic.concurrency` in Dafny and proves
what they promise for every input, every run and every interleaving.

| file | package | what is modelled |
|---|---|---|
| `Pool.dfy`, `PoolSafety.dfy`, `PoolOrder.dfy`, `PoolShutdown.dfy`, `PoolPanic.dfy` | `pkg/pool` | the worker pool as a step system of submitters, workers, resizers and shutdown, and what its runs guarantee |
| `PoolMap.dfy` | `pkg/pool` | `Map` and `ParallelExecute` on top of it |
| `PoolObject.dfy` | `pkg/pool` | the struct updated in place: `Submit`, the worker loop and `Resize` as one goroutine runs them |
| `Semaphore.dfy` | `pkg/semaphore` | the weighted semaphore, its wake-up pass and its critical sections |
| `Queue.dfy` | `pkg/queue` | the abstract stable queue, and the heap with back-indices that implements it |
| `TokenBucket.dfy`, `SlidingWindow.dfy` | `pkg/limiter` | both rate limiters, with their waiting loops |
| `Breaker.dfy` | `pkg/breaker` | the circuit breaker with outcomes that arrive late |
| `LazyLoader.dfy` | `pkg/lazyloader` | line chunks and their cache |
| `Retry.dfy` | `pkg/retry` | the retry loop, its callbacks and its delays |

The pattern is the same everywhere. A `State` datatype and a `Step` (or `Next`) function say what
one mutex critical section, one channel operation or one choice of a `select` does. `Run` folds it
over an arbitrary sequence of events; an event that cannot happen in a state changes nothing. The
theorems speak about all reachable states, and where they speak about a history, it is kept from the
events and their answers alone: `Allowed` and `Count` for the limiters, `Books` for the semaphore, `Log`
for the breaker, `Sent`, `Put` and `Taken` for the pool, `Pushed` and `Popped` for the queue. A class
with the struct's fields carries the code that updates in place; each method's postcondition ties the
new fields to the step function. Clock
readings, random numbers, the outcome of user functions and the choices of the scheduler are
parameters.

Where the repository's documents and its code differ, the model follows the code:

- `Map` returns results in the order of completion (pkg/pool/pool.go:595-601), not in input order
  (docs/API_REFERENCE.md:206). What is proved is a permutation.
- `Release` of more than is held clamps at zero (pkg/semaphore/semaphore.go:112-115); it does not
  panic (README.md:203). `SemaphoreSpec.OverReleaseClamps` is an instance.
- A probe that fails after the breaker has closed does reopen it, and closing takes as many
  successful probes as `HalfOpenRequests` (pkg/breaker/breaker.go:105-112), against README.md:201.
  See `BreakerSpec.ProbeOutcome` and `BreakerSpec.LateProbeReopens`.
- `WaitForDrain` reads the queue length and then the counter of active workers
  (pkg/pool/pool.go:537). A task may be in the hands of a worker that has not counted itself yet
  (pkg/pool/pool.go:168-176), or be put back between the two reads.

Results that a reader may not expect. Each has an exact condition, and an instance where the
condition alone does not show one:

- `WaitForDrain` can return too early (`DrainMissesHolder`, `DrainMissesPutBack`; `DrainedExactly`).
- Two calls of `Resize(1)` in a row can stop all workers, because exits that are pending are still
  counted (`ResizeTwiceStopsAll`; `ResizeExactly`). `Shutdown` then leaves queued tasks unexecuted
  (`ShutdownLeavesTask`; `ShutdownDrainsExactly`).
- A `Submit` or `Resize` that has passed its check can crash the program after `Shutdown` has
  closed the channels (`OverlapCanPanic`, `StopCanPanic`; `PanicExactly`).
- Cancelling a waiter does not wake others, so a request that fits can stay queued
  (`CancelLeavesSleeper`; `HeadStaysBlocked`); and a cancellation that comes after the grant loses
  the weight for good (`LateCancelLoses`; `LossExactly`, `LostForever`).
- With overlapping calls the breaker can let calls through right after it opened
  (`LateProbeClosesEarly`; `EarlyAdmissionExactly`).
- `Map` without workers never returns (`MapReturnsExactly`).
- A jittered delay can exceed the configured maximum (`JitterExceedsMaximum`;
  `ExceedsMaximumExactly`).
- `onFinalError` reports the configured number of attempts, not the number made
  (`ReportsThreeForOne`; `ReportedAttempts`).

## Model

| member | source | states |
|---|---|---|
| `PoolSafety.TaskConservation` | pkg/pool/pool.go:155-287 | in every run an accepted task is queued, held by one worker, begun or abandoned, exactly one of these and once; so none is executed twice; every finished execution has exactly one result, in one place |
| `PoolSafety.AbandonedExactly` | pkg/pool/pool.go:177-185 | a step gives a task up if and only if it is the cancellation branch of a worker that holds one, or a put-back that finds the queue full |
| `PoolSafety.DroppedExactly` | pkg/pool/pool.go:195-200 | a step loses a result if and only if a worker about to send it takes the default branch, and then the open result channel is full |
| `PoolSafety.ConcurrencyBound` | pkg/pool/pool.go:121-193 | however the pool is resized, no more tasks execute at once than `Workers` at construction; the semaphore holds one slot per busy worker and `ActiveWorkers` counts those between the two updates of it |
| `PoolOrder.FullConcurrency` | pkg/pool/pool.go:139-193 | and as many tasks as there are workers can execute at once |
| `PoolOrder.CrewExactly` | pkg/pool/pool.go:139-152 | without `Resize` a started pool has exactly the configured workers, one not started has none |
| `PoolOrder.FirstInFirstOut` | pkg/pool/pool.go:168-183 | in every run workers take the tasks in the order in which they were put into the channel, put-backs and direct hand-overs included |
| `PoolOrder.ServedInOrder` | pkg/pool/pool.go:168-279 | without `Resize` that is the order of the accepted submissions |
| `PoolOrder.ResultsInOrder` | pkg/pool/pool.go:195-200 | in every run results are received in the order in which they were sent, and none that was sent is missing |
| `PoolSafety.NoPanicWithoutOverlap` | pkg/pool/pool.go:195-200 | if a run panics, a `Submit` or `Resize` was under way at the step that closed the task channel |
| `PoolSafety.OverlapCanPanic` | pkg/pool/pool.go:264-278 | in every pool a `Submit` past its check can panic after the close |
| `PoolPanic.PanicExactly` | pkg/pool/pool.go:431-519 | between the closing of the two channels some continuation panics if and only if a `Submit` is past its check, or a stop signal can still meet a worker with a task, or a `Resize` can still start a worker for a queued task |
| `PoolPanic.StopCanPanic` | pkg/pool/pool.go:179-185 | an instance for `Resize`: a worker stopped after the close panics when it puts its task back |
| `PoolSafety.ShutdownDrainsExactly` | pkg/pool/pool.go:482-519 | the channel is closed with no `Submit` or `Resize` under way and the shutdown finishes without cancellation: every accepted task is executed once, abandoned once or still queued, and the queue is empty if and only if at the close some worker had not been told to stop, or nothing was queued |
| `PoolSafety.ShutdownExecutesAll` | pkg/pool/pool.go:482-519 | with at least one worker, no `Resize`, no cancellation and no overlapping `Submit`, every accepted task has been executed exactly once and nothing has panicked |
| `PoolShutdown.ShutdownAlwaysEnds` | pkg/pool/pool.go:482-519 | from an orderly close every run is bounded and can go on until the result channel is closed; with a slot it can do so without the cancellation after the timeout |
| `PoolShutdown.ShutdownLeavesTask` | pkg/pool/pool.go:482-519 | an instance: an orderly shutdown without cancellation ends with a task still queued |
| `PoolSafety.DrainedExactly` | pkg/pool/pool.go:528-542 | `WaitForDrain` sees an empty queue and, at a later read, no active worker: then all tasks accepted by the first read are over if and only if none of them is in the hands of an uncounted worker or queued again; it is queued again only if a stopped worker put it back between the reads |
| `PoolSafety.DrainedAtOnceExactly` | pkg/pool/pool.go:528-542 | if nothing happens between the reads, all is over if and only if no worker has an uncounted task |
| `PoolSafety.DrainMissesHolder` | pkg/pool/pool.go:168-176 | the instances: a worker before the semaphore, and one between its slot and its count |
| `PoolSafety.DrainMissesPutBack` | pkg/pool/pool.go:179-185 | the instance of a put-back between the two reads |
| `PoolSafety.ResizeExactly` | pkg/pool/pool.go:431-472 | a successful `Resize(n)` leaves n workers, less those that had returned but were still counted when it read the count; exactly n if and only if there were none |
| `PoolSafety.ResizeTwiceStopsAll` | pkg/pool/pool.go:446-466 | two successful `Resize(1)` calls on two workers can leave no worker |
| `PoolMap.MapAlwaysReturns` | pkg/pool/pool.go:317-380 | with a worker, or no items, every interleaving of `Map`, the deferred `Stop` included, has at most 11n + 2 workers + 5 steps and is stuck only when the call has returned |
| `PoolMap.MapReturnsExactly` | pkg/pool/pool.go:567-593 | `Map` can return, its deferred `Stop` having waited for all workers, if and only if there is a worker or there are no items |
| `PoolMap.NothingLost` | pkg/pool/pool.go:573-590 | in no reachable state of `Map` is a submission refused or a result dropped, because the queue is as long as the item list |
| `PoolMap.ResultsArePermutation` | pkg/pool/pool.go:317-380 | when the range loop is over, and when the call returns, each task was executed exactly once and the results were received in the order of completion, each once |
| `PoolMap.OneWorkerKeepsOrder` | pkg/pool/pool.go:567-601 | with one worker the results arrive in the order of the items, on every schedule |
| `PoolMap.ParallelExecuteComplete` | pkg/pool/pool.go:547-563 | `ParallelExecute` returns in every interleaving, after a bounded number of steps, with exactly one result per function |
| `PoolMap.BuildOutput` | pkg/pool/pool.go:595-603 | the output loop returns all values in arrival order if there is no error, else the first error in arrival order |
| `PoolMap.FinishMap` | pkg/pool/pool.go:567-604 | `Map` succeeds if and only if all items do, then returns a permutation of the values of all items; otherwise the error of some failing item; with one worker the values in the order of the items, or the error of the first item that failed |
| `PoolObject.WorkerPool.StartLocked` | pkg/pool/pool.go:139-152 | the starting loop adds exactly the configured workers, once |
| `PoolObject.WorkerPool.Reached` | pkg/pool/pool.go:91-107 | the fields are what the steps taken so far make of a new pool, so all results about runs hold of the object |
| `PoolObject.WorkerPool.BeginSubmit` | pkg/pool/pool.go:265-273 | refused exactly if closed, else the pool is started and a submission under way |
| `PoolObject.WorkerPool.EndSubmit` | pkg/pool/pool.go:277-286 | which outcome of the select comes about, the direct hand-over to a waiting worker included, and the step it takes |
| `PoolObject.WorkerPool.Worker` | pkg/pool/pool.go:155-211 | the worker loop, for every choice of its selects: it takes steps of the system only, leaves nothing half done, and stops only when it has returned, no step of it is possible, or the program has crashed |
| `PoolObject.WorkerPool.RunTask` | pkg/pool/pool.go:173-193 | from the slot to the result: the task is begun once, slot and count are given back |
| `PoolObject.WorkerPool.PutBack` | pkg/pool/pool.go:179-185 | the put-back of a stopped worker: queued, handed over, lost if there is no room, or a panic |
| `PoolObject.WorkerPool.Report` | pkg/pool/pool.go:195-200 | the non-blocking send: into the channel, to a waiting consumer, dropped if there is no room, or a panic |
| `PoolObject.WorkerPool.Resize` | pkg/pool/pool.go:431-472 | when each error comes about; a success leaves as many workers not told to stop as were asked for, less the exits pending |
| `PoolObject.WorkerPool.ScaleUp` | pkg/pool/pool.go:448-454 | the growing loop starts exactly the missing workers |
| `PoolObject.WorkerPool.ScaleDown` | pkg/pool/pool.go:455-466 | the shrinking loop hands out one signal per worker in excess, each to a worker at a select, else it waits or is cancelled |
| `SemaphoreSpec.GreedySplits` | pkg/semaphore/semaphore.go:137-151 | the wake-up pass splits the queue into woken and kept, and charges exactly the woken weight |
| `SemaphoreSpec.GreedyKeepsOrder` | pkg/semaphore/semaphore.go:137-151 | both parts keep arrival order |
| `SemaphoreSpec.GreedyExhausts` | pkg/semaphore/semaphore.go:137-151 | nothing that fits is left behind, and the maximum is respected |
| `SemaphoreSpec.GreedyNoOvertaking` | pkg/semaphore/semaphore.go:137-151 | what is passed over is heavier than anything woken behind it |
| `SemaphoreSpec.CapacityRespected` | pkg/semaphore/semaphore.go:37-119 | 0 <= current <= maxWeight in every run, over-releases included |
| `SemaphoreSpec.NoStrandedWaiter` | pkg/semaphore/semaphore.go:48-119 | somebody waits only while some weight is charged |
| `SemaphoreSpec.NoOvertaking` | pkg/semaphore/semaphore.go:49-98 | once a later request at least as heavy has been granted on any path, an earlier queued one no longer waits, and has been granted unless it was cancelled |
| `SemaphoreSpec.NoDoubleGrant` | pkg/semaphore/semaphore.go:143 | no ready channel is closed twice or while its waiter is queued |
| `SemaphoreSpec.Accounting` | pkg/semaphore/semaphore.go:37-119 | current is what callers own by the books of calls and answers, plus granted and unseen, plus lost, plus what over-releases were cut short by |
| `SemaphoreSpec.OwnedWithinMaximum` | pkg/semaphore/semaphore.go:37-119 | as long as nobody gives back more than it owns, all weight taken and not given back never exceeds the maximum |
| `SemaphoreSpec.RequestsConserved` | pkg/semaphore/semaphore.go:55-79 | every request that had to wait is waiting, withdrawn, or granted with the weight it asked for; every grant is unseen or has returned; each once |
| `SemaphoreSpec.DisciplinedAccounting` | pkg/semaphore/semaphore.go:37-119 | without over-release the last term is zero, and what stays charged when all is returned is the lost weight |
| `SemaphoreSpec.LossExactly` | pkg/semaphore/semaphore.go:63-79 | a step loses weight if and only if it is a cancellation that no longer finds its waiter and whose grant was not yet seen |
| `SemaphoreSpec.LateCancelLoses` | pkg/semaphore/semaphore.go:63-79 | the instance: one unit stays charged that nobody owns |
| `SemaphoreSpec.LostForever` | pkg/semaphore/semaphore.go:63-79 | with disciplined callers weight once lost stays charged in every continuation |
| `SemaphoreSpec.CancelForgets` | pkg/semaphore/semaphore.go:65-76 | cancelling removes the request, changes no charge and leaves all others in place |
| `SemaphoreSpec.OverReleaseClamps` | pkg/semaphore/semaphore.go:112-115 | returning three after taking one leaves the charge at zero |
| `SemaphoreSpec.ReleaseServesAllThatFit` | pkg/semaphore/semaphore.go:104-119 | after any release no queued request fits |
| `SemaphoreSpec.HeadStaysBlocked` | pkg/semaphore/semaphore.go:48-119 | a step puts a waiter that fits at the head if and only if it cancels the first waiter and the one behind it fits |
| `SemaphoreSpec.CancelLeavesSleeper` | pkg/semaphore/semaphore.go:65-76 | the instance: after such a cancellation a request that fits stays queued |
| `SemaphoreSpec.Semaphore.BeginAcquire` | pkg/semaphore/semaphore.go:37-61 | the first critical section of `Acquire` refines its step and says how the caller goes on |
| `SemaphoreSpec.Semaphore.CancelWait` | pkg/semaphore/semaphore.go:64-76 | the search-and-cut loop removes exactly the caller's waiter, else loses the grant |
| `SemaphoreSpec.Semaphore.TryAcquire` | pkg/semaphore/semaphore.go:84-100 | succeeds exactly when the weight is not positive, or fits with nobody waiting |
| `SemaphoreSpec.Semaphore.Release` | pkg/semaphore/semaphore.go:104-119 | lowers with the clamp and then runs the pass |
| `SemaphoreSpec.Semaphore.NotifyWaiters` | pkg/semaphore/semaphore.go:137-151 | the in-place removal loop terminates and equals the greedy pass |
| `QueueSpec.FifoPerPriority` | pkg/queue/queue.go:106-131 | for every interleaving, inside each priority what came out followed by what is queued is what went in; nothing is lost |
| `QueueSpec.HighestFirst` | pkg/queue/queue.go:120-131 | a pop never returns less than the highest queued priority |
| `QueueSpec.DrainSortsStably` | pkg/queue/queue.go:106-131 | pushing a batch and draining is the one stable sort by falling priority |
| `QueueSpec.OrderedUnique` | pkg/queue/queue.go:51-57 | an ordered sequence is determined by its priority classes |
| `HeapQueue.UpStep` | pkg/queue/queue.go:59-63 | one exchange on the way up keeps heap order everywhere but at the new place |
| `HeapQueue.DownStep` | pkg/queue/queue.go:59-63 | one exchange on the way down does so too |
| `HeapQueue.PlaceIsInsert` | pkg/queue/queue.go:51-57 | placing an item by priority and sequence number is stable insertion |
| `HeapQueue.RootIsHead` | pkg/queue/queue.go:135-145 | the root of the heap is the head of the abstract queue |
| `HeapQueue.InnerHeap.Swap` | pkg/queue/queue.go:59-63 | exchanges two slots and keeps every back-index equal to its slot |
| `HeapQueue.InnerHeap.Push` | pkg/queue/queue.go:65-69 | appends with the right back-index |
| `HeapQueue.InnerHeap.Pop` | pkg/queue/queue.go:71-79 | removes the last item and marks its back-index |
| `HeapQueue.InnerHeap.Up` | pkg/queue/queue.go:106-117 | sifting up restores heap order and permutes |
| `HeapQueue.InnerHeap.Down` | pkg/queue/queue.go:120-131 | sifting down restores heap order on a prefix, permutes and leaves the rest alone |
| `HeapQueue.PriorityQueue.Push` | pkg/queue/queue.go:106-117 | refines stable insertion into the abstract queue |
| `HeapQueue.PriorityQueue.Pop` | pkg/queue/queue.go:120-131 | returns and removes the abstract head, or reports empty |
| `HeapQueue.PriorityQueue.Peek` | pkg/queue/queue.go:135-145 | returns the abstract head and changes nothing |
| `HeapQueue.PriorityQueue.Len` | pkg/queue/queue.go:148-152 | the number of queued entries |
| `TokenBucketSpec.AllowsExactly` | pkg/limiter/limiter.go:58-79 | for every rate, capacity and run: a call is allowed if and only if, for every instant since the start, one call more than were allowed from there on fits into a full bucket and what the rate has yielded since |
| `TokenBucketSpec.BurstBound` | pkg/limiter/limiter.go:58-79 | for every rate, capacity, run and interval: allowed calls <= capacity + rate * length (negative settings count as zero) |
| `TokenBucketSpec.FullBurst` | pkg/limiter/limiter.go:68-79 | the bound is met: a burst at one instant is served up to the tokens there and no further |
| `TokenBucketSpec.RefusedCallsInvisible` | pkg/limiter/limiter.go:58-79 | deleting all refused calls from a run changes no other decision and no token level |
| `TokenBucketSpec.ThirdCallServes` | pkg/limiter/limiter.go:83-121 | a lone waiter with positive rate and capacity at least one that sleeps as computed is served within three calls |
| `TokenBucketSpec.NoSoonerServed` | pkg/limiter/limiter.go:98-108 | a computed sleep above the minimum is not too long: a call any earlier is refused |
| `TokenBucketSpec.SecondCallCanFail` | pkg/limiter/limiter.go:103-105 | three are needed: at three tokens a second the truncated sleep is too short |
| `TokenBucketSpec.ServesSomeDay` | pkg/limiter/limiter.go:58-79 | some later call is allowed if and only if the capacity is at least one and a token is there or the rate is positive |
| `TokenBucketSpec.TokenBucket.RefillNow` | pkg/limiter/limiter.go:58-66 | the refill with its cap |
| `TokenBucketSpec.TokenBucket.Allow` | pkg/limiter/limiter.go:69-79 | the decision and the new bucket |
| `TokenBucketSpec.TokenBucket.Wait` | pkg/limiter/limiter.go:83-121 | refused calls come first, each followed by the sleep computed from the bucket it left; success takes a token; if the sleeps asked for are honoured at most two calls are refused |
| `SlidingWindowSpec.WindowBound` | pkg/limiter/limiter.go:156-178 | in every run with a monotone clock every closed interval of the window's length holds at most `MaxRequests` recorded instants of allowed calls |
| `SlidingWindowSpec.WindowBoundTight` | pkg/limiter/limiter.go:159 | one nanosecond more and it can hold one more |
| `SlidingWindowSpec.AllowsExactly` | pkg/limiter/limiter.go:168-178 | a call is allowed if and only if fewer than `MaxRequests` of the calls allowed before were recorded in the window that ends now |
| `SlidingWindowSpec.StampsAreSuffix` | pkg/limiter/limiter.go:156-178 | after every call the slice is exactly the part of all allowed instants at or after its cutoff |
| `SlidingWindowSpec.TwelfthCallServes` | pkg/limiter/limiter.go:182-201 | after any run a lone waiter that sleeps as computed is refused at most eleven times |
| `SlidingWindowSpec.SlidingWindow.Cleanup` | pkg/limiter/limiter.go:156-165 | the scan drops exactly the stamps before the cutoff |
| `SlidingWindowSpec.SlidingWindow.Allow` | pkg/limiter/limiter.go:168-178 | the decision, also in terms of all calls so far, and the record with a later reading |
| `SlidingWindowSpec.SlidingWindow.Wait` | pkg/limiter/limiter.go:182-201 | refused calls come first, then one success; at most eleven refusals with honoured sleeps |
| `BreakerSpec.AdmitsExactly` | pkg/breaker/breaker.go:84-116 | the answer to every call of every run: let in while closed; a probe on an open breaker if and only if the timeout has passed since the last failing outcome; a probe on a half-open one if and only if fewer than max(1, HalfOpenRequests) have been let in; else rejected |
| `BreakerSpec.ModeExactly` | pkg/breaker/breaker.go:84-176 | the mode after every event of every run, in terms of the failing calls in a row, the successful probes and the last failing outcome |
| `BreakerSpec.NeverWedged` | pkg/breaker/breaker.go:84-113 | for every overlap of calls, late outcomes and resets every probe of a half-open period has succeeded or is outstanding, so there is a free slot or an outstanding probe |
| `BreakerSpec.ProbesLimited` | pkg/breaker/breaker.go:93-99 | a half-open period lets in at most the quota; there are no slots in other modes |
| `BreakerSpec.FailuresCounted` | pkg/breaker/breaker.go:115-131 | the counter is the number of failing normal calls since the last success or closing; closed means below max(1, MaxFailures) |
| `BreakerSpec.TripsExactly` | pkg/breaker/breaker.go:115-131 | a new breaker opens at failing call number max(1, MaxFailures), not before |
| `BreakerSpec.LeavesOpenExactly` | pkg/breaker/breaker.go:84-163 | in every run an event moves an open breaker to half-open if and only if it looks at the clock a timeout after the last failing outcome, and closes it if and only if it is a `Reset` or a late success that completes the quota |
| `BreakerSpec.RestAfterOpening` | pkg/breaker/breaker.go:151-163 | without overlap and resets fn is never invoked within the timeout of any earlier opening |
| `BreakerSpec.EarlyAdmissionExactly` | pkg/breaker/breaker.go:84-140 | for every overlap of calls with a monotone clock: within the timeout of the last opening a call is let in if and only if a `Reset` or a probe success completing the quota has closed the breaker since |
| `BreakerSpec.LateProbeClosesEarly` | pkg/breaker/breaker.go:101-112 | the instance, at any time: fn is invoked one tick after an opening |
| `BreakerSpec.ProbeOutcome` | pkg/breaker/breaker.go:103-113 | what a probe's outcome does after any run, in each mode; a failure always opens |
| `BreakerSpec.LateProbeReopens` | pkg/breaker/breaker.go:105-108 | the instance: a probe that fails after a `Reset` opens the breaker |
| `BreakerSpec.FewerProbesDoNotClose` | pkg/breaker/breaker.go:109-112 | from half-open, successful calls are all let in as probes and close the breaker if and only if they complete max(1, HalfOpenRequests) |
| `BreakerSpec.Recovers` | pkg/breaker/breaker.go:84-113 | from every reachable open state with no probe outstanding, a timeout after the last failing outcome, as many successful calls as the quota are all let in and close it |
| `BreakerSpec.CircuitBreaker.BeginExecute` | pkg/breaker/breaker.go:85-116 | the first critical section of `Execute`: rejected, probe or normal |
| `BreakerSpec.CircuitBreaker.EndProbe` | pkg/breaker/breaker.go:103-113 | the second one for a probe |
| `BreakerSpec.CircuitBreaker.EndNormal` | pkg/breaker/breaker.go:120-131 | the second one for a normal call |
| `BreakerSpec.CircuitBreaker.State` | pkg/breaker/breaker.go:74-79 | reading the state may move it to half-open |
| `BreakerSpec.CircuitBreaker.Reset` | pkg/breaker/breaker.go:136-140 | closes and clears |
| `LazyLoaderSpec.RoundTripExactly` | pkg/lazyloader/lazyloader.go:19-88 | for every content: all chunks load and joining them gives the content back if and only if the chunk size is positive |
| `LazyLoaderSpec.ChunkIsLines` | pkg/lazyloader/lazyloader.go:91-104 | a chunk is the join of what `GetLines` returns for its range; a chunk is missing exactly if that range is empty |
| `LazyLoaderSpec.SplitExactly` | pkg/lazyloader/lazyloader.go:72-73 | the lines of a content are the one list of strings without newlines that joins to it |
| `LazyLoaderSpec.JoinSplit` | pkg/lazyloader/lazyloader.go:72-84 | splitting into lines and joining is the identity |
| `LazyLoaderSpec.GetLinesAdjoin` | pkg/lazyloader/lazyloader.go:96-104 | adjoining ranges make up their union, and the whole range is all lines |
| `LazyLoaderSpec.CacheTransparent` | pkg/lazyloader/lazyloader.go:29-55 | in every run of reads and clears every answer is the one without a cache |
| `LazyLoaderSpec.CachedExactly` | pkg/lazyloader/lazyloader.go:29-55 | in every run exactly the chunks read since the last `Clear` are cached, so none is loaded twice |
| `LazyLoaderSpec.LazyLoader.GetChunk` | pkg/lazyloader/lazyloader.go:29-48 | the answer does not depend on the cache, and only loaded texts are cached |
| `LazyLoaderSpec.LazyLoader.Clear` | pkg/lazyloader/lazyloader.go:51-55 | empties the cache |
| `LazyLoaderSpec.StringLoader.GetChunk` | pkg/lazyloader/lazyloader.go:91-93 | the same for a string loader, agreeing with `GetLines` |
| `RetrySpec.DefaultsExactly` | pkg/retry/retry.go:88-99 | a configuration is used as it is if and only if all four values are positive; otherwise just the others are replaced by the defaults |
| `RetrySpec.LastIsFirstStop` | pkg/retry/retry.go:103-146 | the loop stops at the first attempt that succeeds, is not retryable, is the last or is cancelled |
| `RetrySpec.CallsConsecutive` | pkg/retry/retry.go:103-146 | fn runs on attempts 0, 1, 2, ... up to that one, without gaps |
| `RetrySpec.RetriesMatch` | pkg/retry/retry.go:130-134 | `onRetry` fires once per backoff with the attempt, error and delay of it |
| `RetrySpec.ResultMatches` | pkg/retry/retry.go:109-157 | nil exactly if the last call succeeded; `onFinalError` fires once, exactly when the last error is returned, and not on cancellation |
| `RetrySpec.ReportedAttempts` | pkg/retry/retry.go:148-150 | the number it reports is the number of calls if and only if no attempt before the limit answered with an error that must not be retried |
| `RetrySpec.ReportsThreeForOne` | pkg/retry/retry.go:148-150 | the instance: one call, three reported |
| `RetrySpec.SleepsMatch` | pkg/retry/retry.go:130-145 | every attempt but the last is followed by one full sleep of its delay |
| `RetrySpec.TurnsInOrder` | pkg/retry/retry.go:103-146 | call, callback, sleep and next call come in this order in every turn |
| `RetrySpec.CappedSeries` | pkg/retry/retry.go:160-164 | the delays before jitter start at the initial delay and multiply by the factor, cut off at the maximum |
| `RetrySpec.DelaysGrow` | pkg/retry/retry.go:160-171 | without jitter and with factor at least one the delays never shrink |
| `RetrySpec.DelayRange` | pkg/retry/retry.go:160-171 | jitter only adds, and at most a tenth |
| `RetrySpec.ExceedsMaximumExactly` | pkg/retry/retry.go:160-171 | some random number makes a delay exceed the maximum if and only if there is jitter and 1.1 times the capped delay comes to more than the next nanosecond |
| `RetrySpec.JitterExceedsMaximum` | pkg/retry/retry.go:162-169 | the instance |
| `RetrySpec.SleepBound` | pkg/retry/retry.go:130-146 | all completed sleeps together take at most 1.1 times the capped geometric series |
| `RetrySpec.DoWithCallbacks` | pkg/retry/retry.go:81-158 | the loop produces exactly the specified trace and result of the normalized configuration |

## Left out

- Integer width: `int64` weights, `uint64` sequence numbers and `time.Duration` are unbounded integers. No sum in the semaphore wraps as long as the maximum is at most 2^62.
- Floating point: tokens, delays and backoff factors are real numbers, without rounding.
- Clocks: readings never decrease within a run; sleeps may take longer than asked for.
- Negative `Workers` or `QueueSize` panic in `make` at construction and are not modelled.
- `SubmitWait`, and `SubmitBatch` beside other consumers: results of other tasks are put back or lost by design, and collectors may read after the result channel is closed.
- The atomic metrics of the pool, `AverageLatency` and task timeouts; `ActiveWorkers` is read as the number of occupied slots.
- Callbacks of the pool (`OnError`, `OnComplete`) and panics in them; a panicking task is an error result.
- The pool's protocol is a step system on values, since its steps belong to many goroutines. `PoolObject` runs the code of one goroutine at a time on the struct; what others do in between is in the step system only.
- A reuse of the wait group while `Shutdown` waits on it, which a late `Resize` can cause, is not modelled as a panic of its own.
- `Map` with a result type that is an interface and a nil value (the type assertion panics), and cancellation of the context passed to `Map`.
- A breaker whose configuration is changed by its owner after construction, and a panicking fn, which loses its probe slot.
- The mutable aliasing of the slice that `GetLines` returns, and load functions that answer differently from call to call.
- `container/heap` and `strings` are not part of the repository; their operations are written out as they are documented.
- `HeapQueue.InnerHeap.Down` and `HeapQueue.InnerHeap.Up` cite the queue operations that call them, as the sift loops live in `container/heap`.
- Loggers, error texts, `String` methods, default configurations and thin wrappers (`Do`, `ExponentialBackoff`, `IsEmpty`, `Available`).
- The packages `bulkhead`, `gin`, `monitor` and `safe`: a counting channel, HTTP glue, operating-system readings and one-lock wrappers.
