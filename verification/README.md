# Verified model of the asynchronous block pipeline

The repository reads a file block by block, runs user stages over each block and writes the result
to a new file. Three worker threads share a fixed pool of leased buffers and two bounded queues; a read
goes through a coroutine and a thread pool; the output is published by fsync, rename and directory fsync.
This project models that program and proves what its design promises, for every interleaving, every
schedule of short reads and writes, every failing call and every crash.

`dafny verify dfyconfig.toml` checks everything.

## What is modelled

**The executor** (`executor*.dfy`, specification in `run_spec.dfy`). `PipelineExecutor::run` is a transition
system: the pool, the contents of the buffers, the two queues with their lifecycle and their mutexes, the
program counters of the four threads, the output file, the counters and `first_failure`. Each
lock-protected section, each read, each stage pass, each single `pwrite`, each release of a lease during
unwinding and each part of `fail_all` is one step. `fail_all` fails the first queue and then the second,
keeps a queue's mutex while it returns the leases of the discarded items one at a time, and the other
threads run in between. Threads are spawned consumers first and every spawn may throw. The invariant has
four parts: where each lease is, who holds which mutex and which exception, what the program counters say
about the queues, and which bytes every buffer, queue item and file prefix holds.

**The program it must refine** (`serial_reference.dfy`): `run_serial_pipeline_reference` as a loop over the
same reads, the same stages (`pipeline.dfy`) and a scripted output file (`file_io.dfy`).

**The components**: the ring buffer and its history as a FIFO (`spsc_queue.dfy`), the pool, its move-only
handles and the work items (`buffer_pool.dfy`), both condition-variable layers with sleepers, woken threads
and notifications that come after unlock (`pool_wakeups.dfy`, `queue_wakeups.dfy`), the gauge and its
compare-and-exchange loop (`gauge.dfy`), the retry loops over system calls (`file_io.dfy`).

**Waiting and locking in a run** (`executor_sleepers.dfy`, `lock_order.dfy`): the executor composed with its five
condition variables, and the order of the queue mutexes and the pool's.

**The asynchronous read**: `Task` and `CompletionRequest` (`coroutine.dfy`), the thread-pool backend with any
number of workers, the callers' buffers, both condition variables and shutdown (`thread_pool*.dfy`), the
synchronous backend it must agree with (`sync_backend.dfy`), and what follows for the executor
(`pool_reads.dfy`).

**Publication** (`file_system.dfy`, `publication*.dfy`, `atomic_output_file.dfy`): `run_file` with the executor's
own steps writing the temporary file, and `AtomicJsonFile::publish`, over a file system in which unsynced
bytes come back as garbage and unsynced directory changes may or may not survive a crash.

**The stages and the JSON printer**: `builtin_stages.dfy`, `builtin_runs.dfy`, `json_string.dfy` with a decoder
written from section 7 of RFC 8259.

## Assumptions

- The configuration passed `PipelineConfig::validate`: block size, buffer count and queue depth are positive,
  and at least one stage is registered.
- A backend read returns at most the requested length and returns 0 exactly at end of file; it may be short
  anywhere. The input does not change during a run.
- A stage terminates and keeps the length of its span. It may throw and may keep state, which is read as one
  number per stage; a stage is a function of that number and its block.
- A system call is interrupted finitely often; errno is positive; the kernel never writes more bytes than
  asked for, nor past the largest file offset.
- A caller hands `read_at` a buffer of the length it asks for, and lends no buffer to two requests at a time;
  buffers it has not lent it may overwrite.
- A read that fails leaves the buffer as it was.
- `wait_one` has a single caller, and a pool is destroyed by that caller.
- `fsync` makes the file's present bytes durable, `rename` is atomic, and a directory fsync makes all earlier
  changes of the directory durable.

## Findings

- *The pool does not quite bound the run-ahead until a queue fails.* A processor whose stage threw returns
  its lease while unwinding, before it reaches `fail_all`; until it does, both queues are open and the reader
  can read one block more. `RunAheadExceedsBuffers` is such a run, `RunAheadExactly` says in which states the
  bound holds, and `RunAheadIsBounded` that it holds until something throws.
- *The high watermark misses a wrap-around.* A decrement at the smallest 64-bit value makes the gauge hold the
  largest one without offering it. `QuiescentWatermark` gives the exact condition, `WrappedDecrementIsMissed`
  the run.
- *Several guards are dead code.* The "queue closed before" errors, the block-index overflow and both counter
  overflows of the executor cannot occur (`FailuresAgree`); in the serial reference no overflow check fires.
- *Removal of the temporary file is best effort.* `docs/stage_summaries/stage10_summary.md` says that before
  the rename RAII unlinks the temporary file; the code ignores a failing unlink, and so does the model.
  `TempCanStay` is a run that leaves the file behind, and `ThrowKeepsOld` says that over all runs the name
  stays exactly when that unlink failed.
- *A normalized block is only brought to 0..255 at both ends when two of its bytes differ*; a constant block
  becomes zeros.

## Model

| member | source | states |
|---|---|---|
| ExecutorTheorems.ReturnedRunIsSerial | src/pipeline/pipeline_executor.cpp:255-411 | refinement: every interleaving in which `run` returns leaves the output, the counts and the memory of every stage that processing the blocks one after the other gives, and has covered the whole input |
| ExecutorTheorems.ReturnedRunsAgree | src/pipeline/pipeline_executor.cpp:506-648 | two returned runs agree in everything a caller sees, whatever their interleavings, queue depths and buffer counts |
| ExecutorTheorems.SerialSuccessMeansReturn | src/pipeline/pipeline_executor.cpp:559-648 | when the serial program would succeed and no spawn or write fails, every completed interleaving returns its result |
| ExecutorTheorems.ReturningRunExists | src/pipeline/pipeline_executor.cpp:506-648 | wherever the serial program succeeds there is an interleaving that returns, with the serial result |
| ExecutorTheorems.OutputIsPrefix | src/pipeline/pipeline_executor.cpp:354-411 | in every reachable state, failed or not, the file is the transform of the counted blocks plus at most a part of the next one, and only complete blocks are counted |
| ExecutorTheorems.RunAheadIsBounded | src/pipeline/pipeline_executor.cpp:267-316 | until some operation throws, the reader is ahead of the writer by at most the number of buffers |
| ExecutorRunAhead.RunAheadExactly | src/pipeline/pipeline_executor.cpp:267-410 | while both queues are alive, the exact distance between reader and writer, and the exact condition under which it stays within the number of buffers |
| ExecutorRunAhead.RunAheadExceedsBuffers | src/pipeline/pipeline_executor.cpp:335-350 | a concrete run with open queues in which two blocks are under way with one buffer |
| ExecutorTheorems.LeasesComeBack | src/pipeline/pipeline_executor.cpp:524-554 | on every run, failed or not, all buffer indices are free again and both queues empty when `run` leaves, so the pool's destructor assertion holds |
| ExecutorTheorems.LeasesArePartitioned | src/buffer/aligned_buffer_pool.cpp:40-114 | in every reachable state each buffer index is in exactly one of the free list, the three workers' hands and the two queues, and `in_use_` is the complement of the free list |
| ExecutorCounting.LeaseCount | src/buffer/aligned_buffer_pool.cpp:57-114 | the free list, the three workers and the two queues account for every buffer exactly once |
| ExecutorInvariant.NextInv | src/pipeline/pipeline_executor.cpp:506-648 | every step of every thread keeps the partition of the leases, the holders of the mutexes, the agreement on failures, the lifecycles and the bytes in flight |
| ExecutorTheorems.FailuresAgree | src/pipeline/pipeline_executor.cpp:556-648 | `run` rethrows exactly when an operation or a spawn threw, it rethrows one of those exceptions, a failed queue holds exactly it, and the secondary errors never arise |
| ExecutorTheorems.FirstFailureIsFinal | src/pipeline/pipeline_executor.cpp:556-571 | `first_failure` is written at most once |
| ExecutorCauses.FailuresHaveCauses | src/pipeline/pipeline_executor.cpp:556-579 | every exception raised in a run, the recorded first failure and the one that `run` rethrows are the outcome of one of its operations with that operation's own error: the errno of a read, the code of a stage's exception on a block that was reached, the errno of a write or EIO for one that wrote nothing, the error of a spawn |
| ExecutorCauses.StagesSeeEachBlockOnce | src/pipeline/pipeline_executor.cpp:319-352 | in every reachable state, failed or not, the stages' memory is the one that the serial program leaves after the processed blocks, and after the next one too when a stage threw on it |
| ExecutorTheorems.NoDeadlock | src/pipeline/pipeline_executor.cpp:559-646 | a reachable state has no step exactly when `run` has left; in particular a reader waiting for a buffer gets out although the pool cannot fail |
| ExecutorProgress.ReaderMustAdvance | src/buffer/aligned_buffer_pool.cpp:57-64 | the ownership argument: when neither writer nor processor can step, a reader in `acquire` finds a free buffer |
| ExecutorProgress.FailAllAdvances | src/pipeline/pipeline_executor.cpp:559-571 | a thread in `fail_all` can step, or waits for a thread in `fail_all` that can |
| LockOrder.LocksNeverCycle | include/pipeline/spsc_queue.h:150-169 | with the pool's mutex taken under a queue's mutex for each discarded lease, no chain of blocked threads closes into a cycle or is longer than three, for any number of threads and calls |
| LockOrder.LongestChain | include/pipeline/spsc_queue.h:150-169 | a run in which a chain of three blocked threads stands: `fail` waits for the pool's mutex with its queue's mutex held |
| LockOrder.SomebodyGoesOn | src/buffer/aligned_buffer_pool.cpp:57-114 | while any thread is in a call on a queue or on the pool, some thread in a call can go on |
| ExecutorSleepers.NobodySleepsForGood | src/pipeline/pipeline_executor.cpp:506-648 | with every wait of the run allowed to sleep and every notification sent after unlock: until `run` has left, a thread that is awake can step or notify, at the end nobody sleeps, and apart from spurious wakeups every interleaving ends within a bound linear in the input |
| ExecutorSleepers.StepOrSleep | src/buffer/aligned_buffer_pool.cpp:57-64 | a thread in a wait that gets the mutex can either step or go to sleep, and never both |
| ExecutorSleepers.SleepersStayAsleep | include/pipeline/spsc_queue.h:73-169 | a sleeper takes no step, and leaves its sleep only by a notification of the condition variable that it waits on, or spuriously |
| ExecutorTheorems.RunsAreFinite | src/pipeline/pipeline_executor.cpp:506-648 | every interleaving has at most 25 steps per input byte plus 90 |
| ExecutorTheorems.RunsComplete | src/pipeline/pipeline_executor.cpp:506-648 | from every reachable state the run can be continued until `run` returns or rethrows |
| SerialReference.RunSerial | src/benchmark/end_to_end_baseline.cpp:134-222 | the serial program either reaches a clean end with the specified output, counts and stage memory, or stops at the first block whose read, stage or write fails, with exactly the earlier blocks and a proper part of that one written; a write error is the one that the last system call came to on the rest of the block, and on a script that never fails and never writes nothing the program succeeds wherever a clean end exists below the largest file offset |
| SerialReference.ReferenceAgrees | src/benchmark/end_to_end_baseline.cpp:134-222 | run beside a returned run of the executor, the serial program can fail only in a write that a system call stopped, and otherwise leaves the same file, counts and stage memory |
| RunSpec.BlocksCoverInput | src/pipeline/pipeline_executor.cpp:283-316 | the blocks that any schedule of short reads cuts cover the input exactly once |
| Stages.ProcessAllKeepsLength | src/pipeline/pipeline.cpp:73-83 | the stages in order, stopped by the first exception, keep the block's length |
| Pipelines.Pipeline.Process | src/pipeline/pipeline.cpp:73-83 | the loop over the stages rewrites the block in place as the stages in order would, stops at the first exception, and leaves the rest of the buffer and the later stages alone |
| Pipelines.Pipeline.AddStage | src/pipeline/pipeline.cpp:45-71 | a null stage and a stage whose histogram cannot be registered leave the pipeline unchanged |
| SpscQueues.SpscQueue.Create | include/pipeline/spsc_queue.h:34-53 | a zero capacity or a used gauge is refused, and otherwise the queue is empty and open |
| SpscQueues.SpscQueue.Push | include/pipeline/spsc_queue.h:73-99 | the ring with wraparound appends to the bounded FIFO, or rejects, or rethrows the stored failure; the depth gauge equals the length |
| SpscQueues.SpscQueue.Pop | include/pipeline/spsc_queue.h:103-132 | the ring yields the oldest value, the end of the stream, or the stored failure; the depth gauge equals the length |
| SpscQueues.SpscQueue.Close | include/pipeline/spsc_queue.h:136-145 | an open queue becomes closed and keeps its values; any other stays as it is |
| SpscQueues.SpscQueue.Fail | include/pipeline/spsc_queue.h:150-169 | the queue is emptied and keeps the first failure; a second failure changes nothing |
| SpscQueues.RingPush | include/pipeline/spsc_queue.h:88-91 | filling the tail slot of a ring adds exactly one value at the end, whatever the wraparound |
| SpscQueues.RingPop | include/pipeline/spsc_queue.h:119-124 | emptying the head slot of a ring removes exactly the first value, whatever the wraparound |
| QueueHistory.Fifo | include/pipeline/spsc_queue.h:73-132 | over any history without failure nothing is lost, duplicated or reordered, and the capacity is never exceeded |
| QueueHistory.DeliversPrefix | include/pipeline/spsc_queue.h:73-169 | over any history, failure included, what came out is a prefix of what went in |
| QueueHistory.ClosedDrains | include/pipeline/spsc_queue.h:101-145 | after `close` exactly the queued values come out in order, and then the end of the stream |
| QueueHistory.FailedDeliversNothing | include/pipeline/spsc_queue.h:147-169 | after `fail` nothing goes in or out and both sides see the first exception |
| QueueHistory.FailTakesHold | include/pipeline/spsc_queue.h:150-169 | after the first `fail`, on an open or a closed queue, whatever is called later: nothing is queued, accepted or delivered, nobody waits, and every push and pop rethrows that exception |
| QueueHistory.CloseTakesHold | include/pipeline/spsc_queue.h:136-145 | after `close` on an open queue no push is accepted, and the pops deliver the queued values in order and then the end of the stream |
| QueueWakeups.NoLostWakeup | include/pipeline/spsc_queue.h:73-169 | with one producer, one consumer and any number of closers, a side that sleeps on a true predicate is woken by a notification that some thread owes it and can deliver |
| QueueWakeups.OwedStepsSettle | include/pipeline/spsc_queue.h:96-168 | delivering the owed notifications takes boundedly many steps, after which nobody sleeps on a true predicate |
| QueueWakeups.QueueSeesItsCalls | include/pipeline/spsc_queue.h:73-169 | below its waits and wakeups, the queue goes through a history of calls, so that everything stated over histories holds of it |
| PoolWakeups.NoLostWakeup | src/buffer/aligned_buffer_pool.cpp:57-114 | with any number of threads, barging and spurious wakeups, while a thread sleeps the free buffers are at most the woken threads and pending notifications |
| PoolWakeups.OwedStepsSettle | src/buffer/aligned_buffer_pool.cpp:57-114 | once the owed notifications have been delivered and the woken threads have looked, nobody sleeps beside a free buffer |
| LeaseSpec.InitialBookkeeping | src/buffer/aligned_buffer_pool.cpp:10-24 | initially every index is free, flagged unused and listed once |
| LeaseSpec.TakeBookkeeping | src/buffer/aligned_buffer_pool.cpp:66-78 | taking an index that nobody holds keeps free list, flags and leases a partition |
| LeaseSpec.GiveBookkeeping | src/buffer/aligned_buffer_pool.cpp:101-114 | giving back a leased index keeps free list, flags and leases a partition |
| BufferPools.AlignedBufferPool.Acquire | src/buffer/aligned_buffer_pool.cpp:57-78 | a new handle becomes the only owner of an index that was free; flags, free list and gauge agree |
| BufferPools.AlignedBufferPool.TryAcquire | src/buffer/aligned_buffer_pool.cpp:48-55 | fails exactly when no index is free, and then changes nothing |
| BufferPools.AlignedBufferPool.Release | src/buffer/aligned_buffer_pool.cpp:101-114 | the index is free again and the leases, flags and gauge agree |
| BufferPools.AlignedBufferPool.AllReturned | src/buffer/aligned_buffer_pool.cpp:40-46 | the destructor's assertion holds exactly when no handle owns a lease |
| BufferPools.BufferHandle.Release | src/buffer/buffer_handle.cpp:69-75 | returns the lease once; an empty handle stays empty |
| BufferPools.BufferHandle.Move | src/buffer/buffer_handle.cpp:19-21 | the lease changes owner and the pool does not change |
| BufferPools.BufferHandle.Assign | src/buffer/buffer_handle.cpp:23-30 | the old lease goes back to its pool before the other's is taken over, also within one pool; self-assignment does nothing |
| BufferPools.BlockWorkItem.Create | src/pipeline/block_work_item.cpp:8-33 | an item is made exactly from a leased buffer and a positive count within its size; otherwise the lease returns to the pool and the first failed check names the error |
| BufferPools.BlockWorkItem.Move | src/pipeline/block_work_item.cpp:35-39 | metadata and lease change hands and the source is left empty |
| BufferPools.BlockWorkItem.Assign | src/pipeline/block_work_item.cpp:41-49 | metadata and lease change hands and the lease held before is returned |
| BufferPools.BlockWorkItem.ValidData | src/pipeline/block_work_item.cpp:71-77 | what an item shows is the prefix of its buffer that was read |
| Metrics.Gauge.Set | src/metrics/gauge.cpp:8-11 | the value is stored and the watermark is raised to it, never lowered |
| Metrics.Gauge.Increment | src/metrics/gauge.cpp:13-21 | the value wraps as a 64-bit integer does, and the watermark is raised to the value or kept at the largest one |
| Metrics.Gauge.UpdateHighWatermark | src/metrics/gauge.cpp:35-45 | the loop ends for any finite number of spurious failures with the larger of watermark and candidate |
| GaugeProtocol.WatermarkIsMonotone | src/metrics/gauge.cpp:8-45 | under any interleaving of concurrent updates the watermark never decreases |
| GaugeProtocol.QuiescentWatermark | src/metrics/gauge.cpp:8-45 | with no update under way the watermark is the largest value offered, and it is the largest value ever held exactly when no decrement wrapped or the largest integer was offered |
| GaugeProtocol.WrappedDecrementIsMissed | src/metrics/gauge.cpp:23-25 | a run in which the gauge holds the largest integer and the watermark stays 0 |
| FileIo.WriteAllAt | src/util/file_io.cpp:88-130 | success means the window is the buffer, an error with count k that exactly its first k bytes landed, nothing outside the window changes, and the error is the last call's or EIO for a call that wrote nothing |
| FileIo.PwriteRetrying | src/util/file_io.cpp:102-116 | the inner loop repeats exactly the interrupted calls and ends when interruptions do |
| FileIo.ReadAt | src/util/file_io.cpp:64-86 | returns bytes of the file at the offset, none exactly at or past its end, or the error of the first call that was not interrupted |
| FileIo.FsyncFd | src/util/file_io.cpp:132-146 | reports the first outcome that is not an interruption |
| FileSpec.OverlayAdjacent | src/util/file_io.cpp:98-127 | two adjacent positional writes are one |
| FileSpec.OverlayWindow | src/util/file_io.cpp:98-127 | a positional write changes no byte outside its window, fills a gap with zeros, and extends the file as far as needed |
| Coroutines.Task.Start | include/coroutine/task.h:78-88 | starts a valid coroutine once and reports a second start or an empty `Task` |
| Coroutines.Task.Result | include/coroutine/task.h:90-112 | the value is moved out once, an exception is rethrown every time, and each misuse has its own error |
| Coroutines.Task.Assign | include/coroutine/task.h:51-62 | the coroutine changes hands and the one held before is destroyed; self-assignment does nothing |
| Coroutines.ResultIsTakenOnce | include/coroutine/task.h:78-112 | over any history of starts, resumptions and results, at most one value is produced and at most that one is handed out, once |
| Coroutines.ResultIsHandedOut | include/coroutine/task.h:78-112 | over any history: `result` called after the end hands out exactly the value that the coroutine returned, once, and rethrows exactly the exception that it threw, every time; before the end it says so |
| Coroutines.CompletionRequest.Attach | include/coroutine/completion_request.h:18-30 | a continuation is stored only if present, the first and before completion |
| Coroutines.CompletionRequest.CompleteWith | include/coroutine/completion_request.h:48-66 | the stored coroutine is resumed exactly once, and only with the request already completed and its continuation cleared; each misuse changes nothing |
| Coroutines.RequestResumesOnce | include/coroutine/completion_request.h:18-66 | over any history of calls a request resumes at most once, exactly when it is completed, and with the stored result |
| ThreadPoolTheorems.InflightIsExact | src/backend/thread_pool_backend.cpp:157-199 | `inflight_count_` is the number of queued, executing and completed requests, at most the limit, and every accepted request is in exactly one place, from the work queue to its resumption |
| ThreadPoolTheorems.EachRequestIsServedOnce | src/backend/thread_pool_backend.cpp:157-237 | despite both queues being LIFO, each accepted request is read at most once with its own parameters, resumed at most once and only after that, and finds the result and the contents of its buffer that the synchronous backend would leave |
| ThreadPoolTheorems.OtherBuffersAreUntouched | src/backend/thread_pool_backend.cpp:219-228 | a step of the backend changes no memory but the buffer of the request it reads, and no other request that is not resumed reads into that buffer |
| ThreadPoolTheorems.NoUseAfterResumption | src/backend/thread_pool_backend.cpp:173-180 | nobody reaches for a request after its resumption, and `complete` always finds a continuation that was not resumed |
| ThreadPoolTheorems.WaitOneReturns | src/backend/thread_pool_backend.cpp:157-237 | what workers and a waiting caller do on their own is bounded, and when nothing is left to do the waiting call has resumed exactly one coroutine, all requests are read, and a shutdown has ended its workers |
| ThreadPoolTheorems.WaitOneResumesOne | src/backend/thread_pool_backend.cpp:157-181 | a call of `wait_one` with requests in flight comes back only after it has resumed exactly one coroutine, and with none in flight it changes nothing |
| ThreadPoolTheorems.SubmissionsAreBounded | src/backend/thread_pool_backend.cpp:183-199 | a stopping pool refuses with ECANCELED, a pool with the maximum of requests queued, with workers or completed refuses with EAGAIN, both without a trace, and any other accepts |
| ThreadPoolTheorems.StopEndsWorkers | src/backend/thread_pool_backend.cpp:136-143 | once the destructor has begun the pool stays stopping, and when the backend has nothing left to do every worker has exited and every accepted request was read |
| ThreadPoolTheorems.ShutdownDrains | src/backend/thread_pool_backend.cpp:136-143 | workers exit only after the stop and with an empty work queue, and all have exited only when every accepted request was read |
| ThreadPoolInvariant.NextInv | src/backend/thread_pool_backend.cpp:157-237 | every step keeps each request in one place, its result its own, the counts exact and no wakeup lost |
| ThreadPoolTheorems.BackendsAgree | src/backend/thread_pool_backend.cpp:37-92 | the thread pool comes to the same result and the same buffer as the synchronous backend for every outcome of the read exactly when the length fits a completion and the pool accepts the request |
| ThreadPoolTheorems.CastIsFaithful | src/backend/thread_pool_backend.cpp:226-228 | a result survives its trip through a signed 32-bit integer exactly when its byte count fits |
| ThreadPoolTheorems.CompleteReadIsSynchronous | src/pipeline/pipeline_executor.cpp:241-253 | for every worker schedule, the first coroutine resumed is the caller's own, it finds its buffer as the synchronous backend leaves it, its `Task` ends in the very state in which the synchronous backend leaves it, and `result` hands out the byte count of the read performed or throws its errno |
| ThreadPoolTheorems.CompleteReadCanReturn | src/pipeline/pipeline_executor.cpp:241-253 | for every outcome that its read can have there is a run in which `complete_read` on a quiet pool calls `wait_one` once and its own coroutine is resumed after a read with that outcome |
| PoolReads.ServedReadMeetsContract | src/pipeline/pipeline_executor.cpp:275-286 | a block that `complete_read` fetched through the pool meets the read contract of the executor's results, and the leased buffer then holds what the executor's model puts there |
| PoolReads.PoolMeetsReadContract | src/pipeline/pipeline_executor.cpp:241-286 | a run all of whose blocks are fetched through the pool satisfies the read contract |
| PoolReads.ReadCanBeServed | src/pipeline/pipeline_executor.cpp:241-286 | the other direction: every read that meets the contract is the outcome of some call on a pool |
| SyncBackends.ReadAt | src/backend/sync_backend.cpp:14-35 | the caller gets the result and the buffer of the one read that was performed |
| SyncBackends.WorkerReadAt | src/backend/thread_pool_backend.cpp:219-228 | a worker's read leaves the same buffer, and its outcome as the integer that the request carries |
| ThreadPoolBackends.ThreadPoolBackend.TrySubmit | src/backend/thread_pool_backend.cpp:183-199 | refuses with ECANCELED or EAGAIN without a trace, or queues the request and counts it |
| ThreadPoolBackends.ThreadPoolBackend.TakeWork | src/backend/thread_pool_backend.cpp:205-217 | a worker takes the newest request, exits when stopping with nothing queued, or waits |
| ThreadPoolBackends.ThreadPoolBackend.StoreCompletion | src/backend/thread_pool_backend.cpp:230-234 | the request's result is stored and the request joins the completion queue |
| ThreadPoolBackends.ThreadPoolBackend.PopCompletion | src/backend/thread_pool_backend.cpp:161-177 | refuses with nothing in flight, waits with nothing completed, or hands over the newest completion with its result |
| PublicationTheorems.OldOrComplete | src/pipeline/pipeline_executor.cpp:126-174 | at every moment, and after a crash at any moment, the final name shows what it could show at the start or the complete new file |
| PublicationTheorems.ReturnIsDurable | src/pipeline/pipeline_executor.cpp:650-680 | after a normal return every crash leaves the complete new file, no temporary name remains, and the result counts the whole input |
| PublicationReturns.BenignRunReturns | src/pipeline/pipeline_executor.cpp:654-680 | when no system call, spawn or write fails, the output does not name the input and the serial program comes to a clean end, a publication that cannot go on has returned |
| PublicationReturns.PublishingRunExists | src/pipeline/pipeline_executor.cpp:654-680 | a run that returns exists if and only if the output does not name the input and the serial program comes to a clean end (for the JSON writer: always) |
| PublicationReturns.PublishingIsFinite | src/pipeline/pipeline_executor.cpp:654-680 | every run of either publisher is finite, with a bound linear in what it publishes, whatever fails |
| PublicationReturns.BodyRuns | src/pipeline/pipeline_executor.cpp:677 | the steps between the creation of the temporary file and its sync are a run of the executor |
| PublicationReturns.ErrorsHaveCauses | src/pipeline/pipeline_executor.cpp:126-215 | every exception of either publisher was thrown by a step of its run: with the errno of the call that failed there, because the output names the input, or as the executor's exception, which has its cause in the executor's run |
| PublicationTheorems.ThrowKeepsOld | src/pipeline/pipeline_executor.cpp:126-174 | an exception before the rename leaves the directory as it was, with the temporary name beside it exactly when the last call of the run, the destructor's unlink, failed; only a failed directory sync leaves the new file in place |
| PublicationTheorems.UnwindRemovesTemp | src/pipeline/pipeline_executor.cpp:126-130 | the destructor removes the temporary name exactly when its unlink succeeds |
| PublicationTheorems.TempCanStay | src/pipeline/pipeline_executor.cpp:126-130 | a concrete run that throws and leaves its temporary name in the directory |
| PublicationTheorems.InputIsPreserved | src/pipeline/pipeline_executor.cpp:184-215 | no file that existed before is written, and nothing at all is created when the output names the input |
| PublicationTheorems.NextInv | src/reporting/pipeline_reporter.cpp:121-238 | every step of either publisher keeps the temporary file's bytes equal to what was produced and the history of the directory as stated |
| AtomicOutputFiles.AtomicOutputFile.Commit | src/pipeline/pipeline_executor.cpp:141-174 | the first of fsync, rename and directory fsync that fails ends the commit in the state after the calls before it; a second commit is refused |
| AtomicOutputFiles.AtomicOutputFile.Destroy | src/pipeline/pipeline_executor.cpp:126-130 | an output that was not renamed takes its temporary name away, and ignores a failing unlink |
| BuiltinStages.NormalizeInPlace | src/pipeline/builtin_stages.cpp:28-62 | both loops together scale every byte between the extremes of the block, a constant block to zeros, an empty one to nothing |
| BuiltinStages.NormalizationIsUnique | src/pipeline/builtin_stages.cpp:28-62 | that property determines the output |
| BuiltinStages.NormalizationRoundsDown | src/pipeline/builtin_stages.cpp:54-61 | each byte of a block that is not constant becomes its distance from the smallest, scaled to 255 and rounded down |
| BuiltinStages.NormalizationKeepsOrder | src/pipeline/builtin_stages.cpp:56-61 | larger bytes stay at least as large through the integer division |
| BuiltinStages.NormalizationFillsRange | src/pipeline/builtin_stages.cpp:54-61 | a block with two different bytes attains both 0 and 255 |
| BuiltinStages.NormalizationIsIdempotent | src/pipeline/builtin_stages.cpp:28-62 | normalizing a second time changes nothing |
| BuiltinStages.IncrementInPlace | src/pipeline/builtin_stages.cpp:17-22 | every byte is incremented modulo 256 in place |
| BuiltinStages.IncrementsEachByte | src/pipeline/builtin_stages.cpp:17-22 | at every index the byte is one larger, or 0 after 255 |
| BuiltinStages.IncrementIsInjective | src/pipeline/builtin_stages.cpp:17-22 | incrementing loses nothing |
| BuiltinStages.ChecksumStage.Process | src/pipeline/builtin_stages.cpp:68-77 | the stage keeps the checksum of this block alone and does not write the block |
| BuiltinStages.PublishedChecksums | src/pipeline/builtin_stages.cpp:68-77 | the checksums of no bytes, of "a" and of "ab" are the published values of 64-bit FNV-1a |
| BuiltinStages.XorLowBits | src/pipeline/builtin_stages.cpp:71-73 | mixing in a byte is the exclusive or on the low eight bits and leaves the others |
| BuiltinStages.ChecksumSeesEveryByte | src/pipeline/builtin_stages.cpp:68-77 | changing any one byte of a block changes its 64-bit checksum |
| BuiltinRuns.IncrementedFile | src/benchmark/end_to_end_baseline.cpp:258-300 | with the increment and checksum stages, a returned run leaves the whole input incremented, however the reads cut it, and the checksum of the last block |
| JsonString.WriteJsonString | src/reporting/pipeline_reporter.cpp:307-344 | the loop writes the quoted, escaped text |
| JsonString.RoundTrip | src/reporting/pipeline_reporter.cpp:307-344 | decoding the printed string as section 7 of RFC 8259 says returns the original bytes, for every byte sequence |
| JsonString.PrintedIsShortest | src/reporting/pipeline_reporter.cpp:310-342 | no text of one character that the standard reads as this byte is shorter than what is printed |
| JsonString.PrintedBodyIsClosed | src/reporting/pipeline_reporter.cpp:310-342 | the printed body holds no raw control character, and every quotation mark in it is escaped |

## Left out

- The transition systems (`Executor`, `ThreadPool`, `Publication`) are on values and not on objects: the interleaving of threads, and a crash between two calls, are what they are about. The objects whose critical sections they take as steps are modelled as classes beside them; for the executor's own loop variables there is no class.
- io_uring (`src/coroutine/uring_read_awaiter.cpp`, `src/backend/uring_backend.cpp`): kernel and library behaviour is not shown; it would be one more backend that meets the read contract.
- Real system calls, path validation, `fstat` identity across devices, the naming of `mkstemp`, descriptor guards: replaced by the small file system and by scripted outcomes.
- C++ memory orders: mutexes give interleaving, and the gauge needs only atomicity of each location.
- LockOrder.LocksNeverCycle: its threads make any calls in any order, with the nesting of locks that the code has; in `Executor` itself a call on the pool is one step, because the pool's mutex is never kept across anything that waits.
- In `ExecutorSleepers` every condition variable has the one waiter that the run gives it; the general case of the pool, with any number of waiters, is `PoolWakeups`.
- Allocation failures inside queue operations, except for the one after `mkstemp`.
- Joining three threads is one step of the calling thread, taken when all have ended; the order of the joins makes no difference to anything stated here.
- The read, process and write counters and latency histograms of the executor, the metrics registry, configuration validation, the backend factory: easy members.
- Reporting apart from the JSON string printer and its publication, command-line parsing, benchmarks, plots.
- Fairness of the thread pool's LIFO queues: not promised by the code. Liveness is stated as bounded progress of the steps that are owed.
- Several concurrent callers of `wait_one`: outside the caller-driven contract.
- ThreadPoolTheorems.BackendsAgree: a null buffer with a positive length, which the thread pool rejects and the synchronous backend passes on to the kernel, is not modelled.
- SerialReference.RunSerial: the output file is empty at the start, as the callers open it; the reference's guard against a short count without an error is dead, because the write loop never reports one.
- ExecutorTheorems.ReturnedRunIsSerial: the output file is empty at the start, as `run_file` creates it.
