# Verification of the concurrent core of the renderer

This project models the parts of the repository whose correctness rests on state that several operations share, and
proves what they keep over every run.

* `UpgradableLock` is the one-byte upgradable reader/writer lock. Its atomics are methods of a class over the byte, and
  also the steps of a state machine with one program counter a thread, so that operations made of two atomics interleave
  with anything. `DescriptorCache` runs the descriptor binding protocol (upgrade, refresh, downgrade, bind) and the data
  writers on top of it.
* `MemoryPool` is the handle pool, a binary heap in an array. `TaskExecutor` is the scheduler: tasks in reused pool
  slots, latches, ready and deletion queues, any number of threads. Its guards are what the source asks of its callers:
  an edge into a task is added, both halves of it, before the task is submitted and before any predecessor of it
  finishes; a task is submitted by a client once, when it waits for nothing. `TaskRuns` states what holds over whole
  runs, `ReadyCounter` the size counter, `ExecutorLoops` the loops of one thread as methods made of the same steps.
  `ClientChain` puts the self-continuing Tick and Draw tasks on top, with all other use of the executor going on in
  between, and `ChainProgress` shows that they are never stuck.
* `RangeSet`, `Bindings`, `DescriptorData` and `DescriptorRuns` are the packed descriptor data: the interval set, the flat buffer with
  prefix-sum offsets, the three overloads that change it, and the update template, against a plain map from binding and
  array element to value; `DescriptorRuns` takes whole sequences of calls. A template's meaning is that of chapter 14, "Descriptor Update Templates", of the Vulkan 1.2
  specification.
* `CommandPool`, `DeviceQueue` and `TimelineCallbacks` are command buffer recycling, submission, fences and the
  callbacks deferred to a timeline value. `DeviceQueue.RunFrames` drives them through any sequence of frames.
* `Crc32` is the table-driven CRC-32 against the bit-by-bit one of section 8 of RFC 1952.

Some promises hold only under a condition, and the condition is proved exact. A bound descriptor set is current exactly
when the weak exchange did not fail spuriously (`DescriptorCache.BoundSetIsCurrentExactly`, with a failing run in
`SpuriousFailureBindsStale`). The lock keeps readers and writers apart in all runs exactly for up to 64 threads
(`UpgradableLock.ExclusionExactly`, with a failing run in `WriterBesideReaders`). Setting an array element in packed data
is an update of the map exactly when the element has a value already or everything above it holds the new one
(`DescriptorData.DescriptorSetData.SetIndexed`), and the scalar and vector overloads have conditions of their own
(`SetScalar`, `SetVector`); `DescendingSwaps`, `ScalarMisses` and `VectorMisses` make the failing calls, and
`DescriptorRuns.FamiliesDisciplined` shows that calls of one overload family a binding never fail. Callbacks given to a
submission are kept exactly when commands are pending (`DeviceQueue.Queue.EnqueueSubmit`). The header says that callbacks
are called after the device has finished; since the test is strict, those of the last submission stay queued when the
application shuts down exactly if its batch reaches the queue's largest value (`DeviceQueue.Queue.SubmitAndShutDown`), as
it does when timeline values ascend. The code is followed in each case.

## Model

| member | source | states |
|---|---|---|
| `UpgradableLock.UpgradableSharedMutex.InternalTryLock` | src/core/upgradablesharedmutex.inl:14-23 | The weak compare-exchange makes a writer exactly when the byte is the expected one (empty, or Upgraded alone) and it does not fail spuriously; otherwise the byte is unchanged |
| `UpgradableLock.UpgradableSharedMutex.FetchAddReader` | src/core/upgradablesharedmutex.cpp:78-92 | Adds a reader unit with 8-bit wrap-around; the reader is admitted exactly when neither flag was set before |
| `UpgradableLock.UpgradableSharedMutex.FetchSubReader` | src/core/upgradablesharedmutex.cpp:23-29 | Takes a reader unit back: the same step for a release and for a failed attempt |
| `UpgradableLock.UpgradableSharedMutex.FetchOrUpgrade` | src/core/upgradablesharedmutex.cpp:94-104 | Sets the Upgraded bit whether or not the upgrader is admitted; admission exactly when no flag was set |
| `UpgradableLock.UpgradableSharedMutex.FetchAndClearFlags` | src/core/upgradablesharedmutex.cpp:8-16 | Clears both flags and keeps the units |
| `UpgradableLock.UpgradableSharedMutex.FetchSubUpgrade` | src/core/upgradablesharedmutex.cpp:45-51 | Subtracts the Upgraded unit, as arithmetic on the byte |
| `UpgradableLock.UpgradableSharedMutex.FetchAddReaderSubUpgrade` | src/core/upgradablesharedmutex.cpp:59-65 | Exchanges the Upgraded bit for a reader unit in one step |
| `UpgradableLock.UpgradableSharedMutex.FetchSubWriter` | src/core/upgradablesharedmutex.cpp:67-76 | Subtracts the Writer bit, the second half of the downgrade to upgrader |
| `UpgradableLock.UpgradableSharedMutex.InternalTryLockShared` | src/core/upgradablesharedmutex.cpp:78-92 | Without interference a failed attempt leaves the byte as it was, even where the count wraps; admission exactly when no flag is set |
| `UpgradableLock.UpgradableSharedMutex.UnlockAndLockShared` | src/core/upgradablesharedmutex.cpp:31-38 | The two atomics together leave one more unit and no flag |
| `UpgradableLock.UpgradableSharedMutex.UnlockAndLockUpgrade` | src/core/upgradablesharedmutex.cpp:67-76 | The two atomics together leave Upgraded without Writer, also when a failed upgrader set the bit before |
| `UpgradableLock.NewWordFields` | src/core/upgradablesharedmutex.h:10-19 | Each atomic acts on the three packed fields (units, Upgraded, Writer) separately, for any number of units |
| `UpgradableLock.StepKeeps` | src/core/upgradablesharedmutex.cpp:8-104 | Every atomic step of any thread keeps the byte equal to 4 units + 2 Upgraded + Writer and keeps at most one writer or upgrader; the Upgraded bit is never set without a thread that will clear it |
| `UpgradableLock.RunKeeps` | src/core/upgradablesharedmutex.h:10-19 | The same over every run of any number of threads, past the bound too (units modulo 64) |
| `UpgradableLock.QuiescentWordIsZero` | src/core/upgradablesharedmutex.cpp:78-104 | When all threads are idle again the byte is 0: neither a unit nor an Upgraded bit is left behind |
| `UpgradableLock.OwnersAlwaysExclusive` | src/core/upgradablesharedmutex.cpp:94-104 | In every run, with no bound on readers, at most one thread is writer or upgrader |
| `UpgradableLock.StepKeepsReadersExcluded` | src/core/upgradablesharedmutex.cpp:78-92 | With at most 63 units, or at most 64 threads, no step lets a reader and a writer coexist: the issuer of an exchange counts no unit itself |
| `UpgradableLock.MutualExclusion` | src/core/upgradablesharedmutex.cpp:8-104 | In every interleaving of at most 64 threads, and in every one with at most 63 units held or in flight, a writer has the lock to itself and there is one upgrader at most |
| `UpgradableLock.ExclusionExactly` | src/core/upgradablesharedmutex.h:10-19 | A fresh lock keeps readers and writers apart in every run if and only if it has at most 64 threads |
| `UpgradableLock.WriterBesideReaders` | src/core/upgradablesharedmutex.cpp:83-86 | With more than 64 threads, a run that ends with a writer beside 64 readers |
| `UpgradableLock.GrantedExactly` | src/core/upgradablesharedmutex.inl:14-23 | In every state that any run reaches, an idle thread is granted the lock if and only if the number of reader units is a multiple of 64 and nobody is writer or upgrader |
| `UpgradableLock.ReadersAdmitWriterExactly` | src/core/upgradablesharedmutex.h:10-19 | Any set of threads of a fresh lock can hold shared locks together, and then another thread is granted the lock if and only if 64 divides their number |
| `UpgradableLock.DowngradeHasNoGap` | src/core/upgradablesharedmutex.cpp:31-76 | From the first atomic of a downgrade until the thread releases, no thread becomes writer and the guarded data does not change, over every run |
| `DescriptorCache.StepKeeps` | src/rhi/vulkan/pipeline.cpp:813-860 | Every step of binding threads and data writers keeps the agreement of lock, dirty flag, template and current set |
| `DescriptorCache.BoundSetIsCurrentExactly` | src/rhi/vulkan/pipeline.cpp:813-860 | In every interleaving the set about to be bound holds the current data, copied by the current template, if and only if the exchange of the dirty flag did not fail spuriously |
| `DescriptorCache.BoundSetIsCurrent` | src/rhi/vulkan/pipeline.cpp:817-835 | If the exchange fails only on a flag that is not dirty, every bind is of the current data |
| `DescriptorCache.SpuriousFailureBindsStale` | src/rhi/vulkan/pipeline.cpp:818 | A concrete run: one thread alone changes the data, its exchange fails spuriously, and it binds a stale set |
| `DescriptorCache.RefreshWritesNewSlot` | src/rhi/vulkan/pipeline.cpp:702-727 | Each refresh writes a slot never written nor bound before, at an index below 16, with the data and template of that moment |
| `DescriptorCache.AdvanceMoves` | src/rhi/vulkan/pipeline.cpp:702-719 | The next slot is beyond all earlier ones, through the wrap of ~0 in eight bits |
| `DescriptorCache.BoundNeverRewritten` | src/rhi/vulkan/pipeline.cpp:832-843 | What a bound set holds is the same for ever after |
| `DescriptorCache.DescriptorSetArrayList.InternalUpdateDescriptorSet` | src/rhi/vulkan/pipeline.cpp:694-728 | The index update on uint8_t is the step of the state machine, and the written slot is the one at the new index |
| `MemoryPool.MemoryPool.constructor` | src/core/memorypool.inl:5-16 | All indices are free, in heap order |
| `MemoryPool.MemoryPool.Allocate` | src/core/memorypool.inl:18-38 | Hands out the smallest free index, never the invalid handle; that one exactly when nothing is free. Free and live indices stay a partition of 0..N-1 |
| `MemoryPool.MemoryPool.Free` | src/core/memorypool.inl:40-55 | A live index becomes free again; heap, distinctness and partition are kept |
| `MemoryPool.MemoryPool.PopHeap` | src/core/memorypool.inl:31 | Pops the root and restores the heap of the remaining distinct indices, in place |
| `MemoryPool.MemoryPool.PushHeap` | src/core/memorypool.inl:52 | Restores the heap after an append, in place, with the same contents |
| `MemoryPool.RootIsLeast` | src/core/memorypool.h:40-41 | Under the >= comparator a heap has its least index on top, and no second copy of it |
| `MemoryPool.RootLeastOfAll` | src/core/memorypool.h:40-41 | The root is the least of all free indices |
| `MemoryPool.InvalidIsNoIndex` | src/core/utils.h:30-38 | The invalid handle of the handle type is no index of the pool, for every N below 2^31 |
| `TaskExecutor.CreateKeeps` | src/core/task.inl:82-108 | A new task has its slot to itself, although slots are reused |
| `TaskExecutor.AddAdjacencyKeeps` | src/core/task.cpp:67-79 | The first atomic of AddDependency, the stored adjacency, keeps all invariants |
| `TaskExecutor.AddLatchKeeps` | src/core/task.cpp:67-79 | The second atomic, the raised latch, keeps latch = 1 + outstanding counted edges |
| `TaskExecutor.SubmitKeeps` | src/core/taskexecutor.cpp:216-220 | Submission of a task that waits for nothing keeps all invariants |
| `TaskExecutor.CalledTask` | src/core/taskexecutor.inl:33-42 | InternalCall and InternalInvoke find the task the handle was stored for, with latch 1 |
| `TaskExecutor.BeginKeeps` | src/core/taskexecutor.inl:33-42 | Invoking a callable keeps all invariants |
| `TaskExecutor.ReturnKeeps` | src/core/task.inl:31-35 | The latch falls from 1 to 0 when the callable returns, and all invariants are kept |
| `TaskExecutor.NotifiedTask` | src/core/taskexecutor.cpp:143-153 | The notification loop finds at its index the task the edge was added for, still waiting, with a latch of at least 2 |
| `TaskExecutor.NotifyKeeps` | src/core/taskexecutor.cpp:137-155 | Lowering an adjacent latch, and releasing the task when that makes it 1, keeps all invariants |
| `TaskExecutor.EnqueueKeeps` | src/core/taskexecutor.cpp:152-153 | A released task is enqueued once |
| `TaskExecutor.PurgedTask` | src/core/taskexecutor.cpp:119-135 | A handle taken for deletion leads to the task it was stored for, whose latch is 0 |
| `TaskExecutor.TryDeleteKeeps` | src/core/taskexecutor.cpp:119-135 | Deleting gives the slot back once |
| `TaskRuns.StepKeeps` | src/core/taskexecutor.cpp:119-220 | Every step of clients and executor threads keeps the invariants |
| `TaskRuns.NeverTraps` | src/core/taskexecutor.inl:40-42 | No ENSURE on the way of a task (latch 1 before the call, 0 after it, a live adjacent task) fails in any run |
| `TaskRuns.HandlesNeverStale` | src/core/taskexecutor.cpp:119-155 | Every handle in a queue, a call or a pending adjacency still leads to the task it was stored for, in every run |
| `TaskRuns.RunsAtMostOnce` | src/core/taskexecutor.inl:32-45 | A callable is invoked at most once; exactly once, with all successors notified, when the slot is given back |
| `TaskRuns.PredecessorsFirst` | src/core/taskexecutor.cpp:137-155 | A task is invoked only after the callables of all its predecessors have returned, in every run |
| `TaskRuns.DeletionNeverRetries` | src/core/taskexecutor.cpp:170-184 | Nothing is ever put into nextDeletionQueue |
| `TaskRuns.StepWorks` | src/core/taskexecutor.cpp:157-184 | Every executor step decreases what is left to do |
| `TaskRuns.ExecutorRunsEnd` | src/core/taskexecutor.cpp:157-184 | With idle clients no run of the executor is longer than what was left to do at its start |
| `TaskRuns.QuiescentFreed` | src/core/taskexecutor.cpp:137-155 | In a quiescent state of an acyclic graph whose roots were submitted, every task is freed |
| `TaskRuns.AllTasksRunOnce` | src/core/taskexecutor.cpp:137-184 | At the end of every run of such a graph every task has run exactly once and given its slot back |
| `ReadyCounter.StepAgrees` | src/core/taskexecutor.cpp:216-220 | Modulo 2^64 the size counter is the queue length corrected by uncounted enqueues and dequeues, after every step |
| `ReadyCounter.CounterSettles` | src/core/taskexecutor.cpp:157-165 | In every run from an empty queue and a counter of 0, once all changes are counted the counter is the queue length although it may have wrapped |
| `ExecutorLoops.Executor.InternalScheduleAdjacent` | src/core/taskexecutor.cpp:137-155 | The loop, made of the state machine's steps, notifies every adjacency and ends |
| `ExecutorLoops.Executor.CreateTask` | src/core/task.inl:82-108 | A task is created in the least free slot, or none when the pool is full |
| `ExecutorLoops.Executor.AddDependency` | src/core/task.cpp:67-79 | Both halves together add the edge and leave none under way; the second is possible whenever the latch has room |
| `ExecutorLoops.Executor.InternalCall` | src/core/taskexecutor.inl:32-45 | One call invokes its task, whose callable may create, link and submit tasks, then notifies its successors and retires it |
| `ExecutorLoops.Executor.InternalPurgeDeletionQueue` | src/core/taskexecutor.cpp:170-184 | The purge empties the deletion queue and ends |
| `ExecutorLoops.Executor.InternalProcessReadyQueue` | src/core/taskexecutor.cpp:157-168 | The drain ends, although callables of finitely many tasks extend the graph while they run, in a state where nothing is enabled; if the graph has ended up acyclic with its roots submitted, every task has run exactly once and is freed |
| `ClientChain.ChainStep` | src/client/client.cpp:102-136 | Every step of an instance, of the executor and of the rest of the application keeps the chain's invariant |
| `ClientChain.EnteredAlone` | src/client/client.cpp:102-118 | An instance is invoked only when no other one is in its body and the chain is not done, and then it is the newest |
| `ClientChain.NeverOverlap` | src/client/client.cpp:115-117 | When an instance has been invoked, the bodies of all earlier ones have returned, in every run |
| `ClientChain.HandleNames` | src/client/client.cpp:115-117 | Until the chain is done the global handle names the running instance or, once assigned, the next one |
| `ClientChain.DoneForever` | src/client/client.cpp:106-111 | Once the state is Done no instance is queued or waiting and the application's Tick or Draw is never called again |
| `ChainProgress.NeverStuck` | src/client/client.cpp:115-117 | In every run an instance in its body can take its next step, to the latch raise and the return, whatever the application has done with the executor in between; only CreateTask takes a free slot |
| `ChainProgress.RaiseAllowed` | src/core/task.cpp:76-78 | The new task is live and its latch has room when its predecessor raises it |
| `ChainProgress.LeaveAllowed` | src/core/task.inl:31-33 | The call is in its callable and no edge of its task is under way when the body returns |
| `ClientChain.LinkAllowed` | src/core/task.cpp:67-79 | The adjacency an instance stores always meets what the executor asks of AddDependency's callers |
| `RangeSet.RangeSet.Insert` | src/core/utils.h:286-321 | Keeps the ranges sorted, disjoint and non-touching; covers exactly old plus [low, high); leads to a range that contains it; says false exactly when all of it was covered, and then changes nothing |
| `RangeSet.RangeSet.Merge` | src/core/utils.h:313-317 | The merge loop swallows exactly the ranges that touch |
| `RangeSet.Absorb` | src/core/utils.h:315-316 | One round of the merge keeps what the grown range stands for |
| `RangeSet.Glue` | src/core/utils.h:301-320 | Putting the grown range in place of those it stands for gives the union in normal form |
| `Bindings.ElementsCovered` | src/rhi/vulkan/pipeline.inl:212-225 | The elements listed by the ranges are the covered ones |
| `Bindings.ElementsIncreasing` | src/rhi/vulkan/pipeline.inl:212-225 | They are listed in ascending order, each once |
| `Bindings.AppendOutOfOrder` | src/rhi/vulkan/pipeline.inl:229-241 | Appending a value whose element belongs in the middle is an update only if everything above already holds that value |
| `Bindings.SplicedOthers` | src/rhi/vulkan/pipeline.inl:122-141 | Replacing the stretch of one binding leaves every (binding, element) of the others as it was, although all later offsets move |
| `Bindings.SplicedOwn` | src/rhi/vulkan/pipeline.inl:122-141 | The binding itself shows exactly the new stretch |
| `Bindings.RangeCopies` | src/rhi/vulkan/pipeline.cpp:752-772 | The entries of one binding copy its elements in order from consecutive slots, at offset + j * stride |
| `Bindings.BytesIsProduct` | src/rhi/vulkan/pipeline.cpp:767 | Byte addresses are slot numbers times the size of a slot |
| `Bindings.TemplateReadsEverySlot` | src/rhi/vulkan/pipeline.cpp:744-775 | The template reads each slot of bindingsData exactly once, in order, and copies it to the (binding, element) whose value it is |
| `Bindings.TemplateWritesEveryValue` | src/rhi/vulkan/pipeline.cpp:744-775 | Every (binding, element) with a value is written |
| `Bindings.TemplateWritesOnce` | src/rhi/vulkan/pipeline.cpp:744-775 | No (binding, element) is written twice |
| `DescriptorData.AppendExactly` | src/rhi/vulkan/pipeline.inl:229-241 | Setting a new element is an update of the map if and only if every element above it already holds the value |
| `DescriptorData.PlacedExactly` | src/rhi/vulkan/pipeline.inl:210-241 | What the indexed overload leaves in its binding is an update if and only if the element has a value or everything above it holds the new one |
| `DescriptorData.ScalarSets` | src/rhi/vulkan/pipeline.inl:43-48 | What the scalar overload leaves is an update of element 0 if and only if the binding is new or element 0 has a value |
| `DescriptorData.DescendingSwaps` | src/rhi/vulkan/pipeline.inl:229-241 | Two calls, element 1 with a and then element 0 with b, leave a in element 0 and b in element 1, which is no update |
| `DescriptorData.ScalarMisses` | src/rhi/vulkan/pipeline.inl:43-48 | Element 1 with a and then the scalar overload with b leave b in element 1 and nothing in element 0 |
| `DescriptorData.VectorMisses` | src/rhi/vulkan/pipeline.inl:116-119 | Element 1 with a and then the vector overload with b alone leave b in element 1 and nothing in element 0 |
| `DescriptorData.VectorFamily` | src/rhi/vulkan/pipeline.inl:112-143 | A binding written by the vector overload stays one for which that overload means what it says |
| `DescriptorData.DescriptorSetData.Emplace` | src/rhi/vulkan/pipeline.inl:15-34 | A new binding enters in key order, empty, at the offset where the one before it ends; no value changes |
| `DescriptorData.DescriptorSetData.UpdateOffsets` | src/rhi/vulkan/pipeline.inl:38-41 | The loop makes all offsets prefix sums of the counts |
| `DescriptorData.DescriptorSetData.FindOffset` | src/rhi/vulkan/pipeline.inl:210-223 | The search ends at the packed place of a covered element, or at the end of the stretch |
| `DescriptorData.DescriptorSetData.UpdateTemplate` | src/rhi/vulkan/pipeline.cpp:744-775 | The nested loops build the entries of the specification |
| `DescriptorData.DescriptorSetData.SetScalar` | src/rhi/vulkan/pipeline.inl:5-53 | Other bindings keep their values; the value goes to the one element that has one, or to element 0; element 0 is set if and only if the binding is new or element 0 has a value |
| `DescriptorData.DescriptorSetData.SetVector` | src/rhi/vulkan/pipeline.inl:70-148 | Other bindings keep their values; the given ones go to the elements that have values if there are as many, else to 0, 1, 2, ...; the binding consists of them if and only if it is new, changes length, or has the ranges [0, count) |
| `DescriptorData.DescriptorSetData.SetIndexed` | src/rhi/vulkan/pipeline.inl:165-247 | Other bindings keep their values; the value takes the place of the element's or goes to the end of the packed values; the element is set and its binding otherwise unchanged if and only if it has a value or every element above it already holds the new one |
| `DescriptorData.SetAscending` | src/rhi/vulkan/pipeline.inl:165-247 | A new binding filled by any sequence of indexed calls in ascending order holds exactly the values given, and no other binding changes |
| `DescriptorRuns.MakeCalls` | src/rhi/vulkan/pipeline.inl:5-247 | After any sequence of calls on any bindings in any order, each of which may follow those before it, the packed data holds the last write to every element of every binding |
| `DescriptorRuns.FamiliesDisciplined` | src/rhi/vulkan/pipeline.inl:5-247 | Calls of one overload family a binding, with new indices ascending, are such a sequence, however the bindings are interleaved |
| `DescriptorRuns.TemplateCopiesLast` | src/rhi/vulkan/pipeline.cpp:744-775 | Then the template copies, slot by slot, the last write to the element it writes |
| `DescriptorRuns.TemplateCopiesAll` | src/rhi/vulkan/pipeline.cpp:744-775 | And it copies the last write to every element |
| `CommandPool.CommandPool.InternalEnqueueOnePending` | src/rhi/vulkan/command.cpp:272-303 | A blank array, the oldest free one or a new one, goes to the end of the pending list; each array stays in exactly one list |
| `CommandPool.CommandPool.BeginBuffer` | src/rhi/vulkan/command.cpp:123-135 | The begun buffer is new since the last submission, is not referred to by any scope and is not one the device may execute; the 2-bit head does not wrap |
| `CommandPool.CommandPool.InternalBeginScope` | src/rhi/vulkan/command.cpp:305-315 | A buffer is begun in an array with room and the pool's former scope is dropped |
| `CommandPool.CommandPool.Commands` | src/rhi/command.inl:1-11 | The pool's scope is reused exactly when the description is the same; else exactly one more buffer is begun, in order. The buffer handed out is being recorded if and only if it is new or the former scope's was |
| `CommandPool.CommandPool.Drop` | src/rhi/command.inl:47-53 | The last scope of a buffer ends it if it is still recorded |
| `CommandPool.CommandPool.End` | src/rhi/vulkan/command.cpp:138-147 | Ends one buffer and leaves what is gathered as it is |
| `CommandPool.CommandPool.InternalEndCommands` | src/rhi/command.inl:13-18 | The pool gives up its scope, and its buffer is ended if that was the last one |
| `CommandPool.CommandPool.TakePending` | src/rhi/vulkan/queue.cpp:328-357 | A submission gathers exactly the buffers begun since the last one, in begin order, none of them being recorded |
| `CommandPool.CommandPool.Reset` | src/rhi/vulkan/command.cpp:242-270 | Submitted arrays become blank free ones; asked for only when the device executes none of them |
| `CommandPool.BeginLastFills` | src/rhi/vulkan/command.cpp:123-135 | Beginning a buffer keeps every pending array but the last full, and the head below 4 |
| `CommandPool.NothingPending` | src/rhi/vulkan/queue.cpp:334-337 | The pending list is empty exactly when nothing was begun since the last submission |
| `TimelineCallbacks.StepConserves` | src/rhi/vulkan/queue.cpp:10-29 | Every step of submitting and draining threads keeps each callback exactly as often as it was accepted |
| `TimelineCallbacks.NeitherLostNorDoubled` | src/rhi/vulkan/queue.cpp:10-29 | In every interleaving a callback has been handed over as often as it was accepted less what is still pending, queued or held by a draining thread |
| `TimelineCallbacks.HandedAfterSignal` | src/rhi/vulkan/queue.cpp:213-229 | In every interleaving a callback is handed over only when the reported value is beyond the one its own submission signals |
| `DeviceQueue.KeptOrPassed` | src/rhi/vulkan/queue.cpp:15-26 | An entry stays exactly when the reported value is not beyond its own |
| `DeviceQueue.LastOfBatchStays` | src/rhi/vulkan/queue.cpp:213-229 | The last entry of a batch waits for a value beyond the batch's largest |
| `DeviceQueue.Queue.SubmitAndShutDown` | src/rhi/vulkan/rhiapplication.cpp:1153-1175 | After a submission and the destructor's drain at the queue's own maximum, the entry of the last submission stays queued if and only if its batch reaches that maximum, and is handed over otherwise |
| `DeviceQueue.Queue.EnqueueSubmit` | src/rhi/vulkan/queue.cpp:328-357 | The buffers begun go with the callbacks and the largest signal value; the callbacks are dropped exactly when nothing was begun |
| `DeviceQueue.Queue.Submit` | src/rhi/vulkan/queue.cpp:198-263 | Every entry's callbacks are queued with the running maximum, and the new fence answers for all collected buffers |
| `DeviceQueue.Queue.SwapAndResetPool` | src/rhi/queue.inl:52-63 | Swaps and resets with no buffer of either pool in execution |
| `DeviceQueue.Queue.BeginFrame` | src/rhi/vulkan/rhiapplication.cpp:739-751 | Waiting for the fences of the sync info leaves nothing in flight before the swap and reset |
| `DeviceQueue.Queue.SubmitCallbacks` | src/rhi/vulkan/queue.cpp:10-29 | Exactly the entries whose value has been passed are handed over, in order; exactly the others are put back |
| `DeviceQueue.Operate` | src/rhi/vulkan/rhiapplication.cpp:739-911 | Every operation on a queue, with any scopes held, keeps the queue sound; it is refused exactly when the code's demands on the application are not met |
| `DeviceQueue.RunFrames` | src/rhi/vulkan/rhiapplication.cpp:739-911 | Every sequence of frames, with scopes held, ended and released, submissions, drains and device completions in any order, meets every demand on the way, up to the first operation the application may not do |
| `DeviceQueue.DrawFrame` | src/rhi/vulkan/rhiapplication.cpp:739-911 | Draw's own frame, with its scope ended by hand and alive while its buffer is submitted, always completes |
| `DeviceQueue.DrawFrames` | src/rhi/vulkan/rhiapplication.cpp:739-911 | So does any number of such frames |
| `Crc32.TableIsByte` | src/core/crc32.h:7-39 | Each of the 256 constants is the remainder of its index after eight bit steps of section 8 of RFC 1952 |
| `Crc32.TableStep` | src/core/crc32.h:50 | The table step is eight bit steps |
| `Crc32.CrcIsBitwise` | src/core/crc32.h:41-58 | For every byte string the recursion is the bit-by-bit CRC-32 |
| `Crc32.FourInjective` | src/core/crc32.h:41-58 | Four bytes after equal states are determined by the state they lead to |
| `Crc32.BurstDetected` | src/core/crc32.h:63 | Two strings of equal length that differ only within four consecutive bytes get different values |

## Left out

- Liveness of the lock and of the executor: atomic wait and notify, condition variables, and the wake-up flag of continuations. Retry loops appear as repeated attempts; what is proved is safety, termination of the executor's own steps, and quiescence.
- Weak memory orders: every atomic access is one sequentially consistent step.
- The foreign concurrent queues: bags with atomic enqueue and dequeue.
- Vulkan calls: ghost effects (set written, buffer begun or reset, submission complete). Which command buffers a device call touches is taken from its arguments.
- The executor of many threads is modelled on values, as a state machine; the class in ExecutorLoops runs one thread and does not capture aliasing of TaskState.
- ExecutorLoops.Executor.InternalCall: a callable creates, links and submits tasks; one that calls or joins others from inside itself is modelled by independent calls of the state machine, without the order of nested calls on one stack.
- ExecutorLoops.Executor.InternalProcessReadyQueue: callables of finitely many tasks extend the graph, so that the drain ends; the chains that extend it for ever are in ClientChain.
- A full task pool: CreateTask stops the program there; the model has no such step.
- MemoryPool.MemoryPool.Allocate: on an exhausted pool the ENSURE at memorypool.inl:23 stops the program first; the model shows the branch after it.
- MemoryPool.MemoryPool.constructor: std::make_heap finds an ascending array, which is a heap already, and is left out; pop and push are the textbook sifts.
- TaskExecutor.NotifyKeeps: a failed ENSURE is a trapped state, which no run reaches; what the program does after one is not modelled.
- DescriptorCache.BoundSetIsCurrentExactly: binding data is represented by a version number; push descriptors (pipeline.cpp:845-854) only read under the shared lock and are left out.
- DescriptorData.DescriptorSetData.SetIndexed: the index stays below 2^32 - 1, where RangeSet::insert stops the program; totals beyond 32 bits and the variant's type tag (std::get throws when a binding changes type) are not modelled.
- DescriptorData.DescriptorSetData.SetVector: the check of the vector's size against the layout is not needed for what is proved and is left out.
- CommandPool.CommandPool.Commands: one level of a pool (levels are independent lists), scoped begin and end; arrays are values in their lists, so the scope's pointer to an array is its id. The timeline value stored with a submitted array is never read and is left out.
- CommandPool.CommandPool.Reset: no scope of a submitted buffer may be alive, which the frame loop keeps; one that is would end another's recording.
- DeviceQueue.Queue.EnqueueSubmit: asks for a signal value when commands are pending, since the code takes the largest of them.
- DeviceQueue.RunFrames: stops at an operation the application may not do (ending a buffer that is not recorded, submitting one that is, signalling nothing) and at a frame that ends with scopes held.
- DeviceQueue.Queue.Submit: its result is joined to the queue's sync info at once, as every caller does. Presents add fences of their own and are left out.
- TimelineCallbacks.HandedAfterSignal: a callback is tagged with the largest value its submission signals, so that the claim can be stated; the code does not use the tag.
- Rpc, the third chain of the client, has early returns (client.cpp:77, client.cpp:85) that end it without the Done state; nothing is claimed about it, nor that ClientDestroy returns.
- ClientChain.ChainStep: the rest of the application uses the executor in any way but does not submit, extend or invoke the chain's own tasks, whose handles are static to the file.
- Crc32.CrcIsBitwise: the source's char may be signed; only its low eight bits reach the table index, so bytes are modelled.
- Queue::Execute hands the buffers of a secondary level on with the same pool operations as a submission and is not modelled apart.
- Window, image, model, file, user interface and network code; event handlers, camera and other small members.
