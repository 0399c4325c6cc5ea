# A verified model of the EMB² task runtime

EMB² runs tasks on a pool of worker threads behind the MTAPI interface. This project
models the parts of it whose correctness spans several functions and several threads,
and proves in Dafny 4.11 what they are for. `dafny verify dfyconfig.toml` checks it.

Concurrent code is modelled as transition systems: a state, one predicate per atomic
operation (a compare-and-swap, a fetch-and-add, a section under a lock, a field write),
and runs as sequences of states. Every theorem about a run holds in every state of every
run, for any number of threads and objects. Atomic operations are sequentially
consistent, as in base_cpp/include/embb/base/atomic.h:53. Code that one thread executes
at a time is modelled as classes with arrays, positions and loops, each method proved
against a specification. Fields marked "history" only record what happened.

| file | what it models |
|---|---|
| Runtime | starting, scheduling, executing, completing and collecting tasks, one atomic operation at a time |
| RuntimeInvariants, RuntimePlacement, RuntimeGroups, RuntimePhases, RuntimeSlots, RuntimeSafety | what every step of the task runtime keeps |
| RuntimeTheorems, RuntimeStates, RuntimeOrder, RuntimeSpread, RuntimeProgress | what follows for whole runs: completion, instance numbers, task states, counters, affinity, order, distribution over the workers, progress |
| RuntimeStuck, RuntimeWaiting, RuntimeDrain | tasks that keep their group waiting for ever, and when a wait for a group can end |
| RuntimeHandout | which finished tasks a group hands out, in which order, and to which calls |
| RuntimeCallbacks | whose callback a worker finds after it has executed a task |
| RuntimeScenes, RuntimeLoss | runs that end badly: a group that waits for ever, a callback that comes too early, a call that waits for no task |
| StartLoop | the start of a task with several instances when not all of them find room |
| Affinity, NextTask | where a task is pushed, and which one a worker takes next |
| Rings, TaskQueue, ConcurrentQueue | the bounded ring queue, and its spinlock field access by field access |
| IdPool, Handles, Generations | the pool of ids, and handles with tags under concurrent reuse |
| ThreadIndex, ThreadIndexRuns | lazily initialised thread indices and thread-specific storage |
| NetworkBuffer, Wire, Correlation | serialisation, framing over a byte stream, and requests and replies of two nodes |
| JobList | the actions of a job and the choice among them |
| AlignedAlloc | the allocator of debug builds |
| Common | shared types and facts about sequences and sets |

Some properties hold only under a condition. Each comes with the exact condition and a
case that violates it:

- A wait_all call can still return, and the counter of its group reach zero, if and only
  if no task of the group is stuck (`RuntimeDrain.WaitAllReturnsIff`,
  `RuntimeDrain.DrainsIff`). No task is stuck if and only if every task that the group has
  counted has at least one instance, a valid action and priority, a worker in its mask and
  queues that can hold a task, no single-instance task has found its queue full, and no
  finished task has found the group's queue full (`RuntimeWaiting.NoneStuckIff`); the
  result of that last push is ignored (mtapi_c/src/embb_mtapi_task_t.c:148). A stuck task
  stays stuck (`RuntimeWaiting.StuckStays`, `RuntimeWaiting.WaitAllHangs`). Both a queue
  with one task too many and a task without instances bring it about
  (`RuntimeLoss.OneTooMany`, `RuntimeLoss.EmptyTask`).
- The main loop of a worker looks for the callback of the task it has executed in that
  task's slot, and finds that task there if and only if no call has collected it by then
  (`RuntimeCallbacks.CallbackIff`). Otherwise it finds nothing, or another task, whose
  callback is then called before it has even been started (`RuntimeLoss.EarlyCallback`).
- A wait_any call that has seen the group's counter above zero never looks at it again
  (mtapi_c/src/embb_mtapi_group_t.c:294-334). It returns with exactly one task
  (`RuntimeHandout.AnyEndsWithOne`), and without a further task joining the group it can do
  so if and only if some task is left for it: one that waits in the group's queue, is
  unfinished and not stuck, or has been taken by this call (`RuntimeDrain.WaitAnyReturnsIff`).
  Otherwise it goes on waiting although the counter may be zero (`RuntimeHandout.AnyStarves`,
  `RuntimeLoss.StarvedCall`).
- A start with several instances leaves entries of the task it has deleted in the queues if
  and only if these had room for some of the instances and not for all of them
  (`StartLoop.DebrisIff`, `StartLoop.Debris`).
- In a build without assertions, one turn of the receive loop delivers the message the
  stream holds, whatever uninitialised memory holds, if and only if both header and
  payload were received; otherwise it delivers fields or bytes nobody has sent
  (`Wire.DeliveredIff`). Release builds define NDEBUG
  (CMakeCommon/SetCompilerFlags.cmake:42); a build with assertions stops instead
  (`Wire.AssertionsStop`).
- The list of a job holds each of its actions exactly once if and only if there have
  never been more of them than it can hold. `mtapi_action_create` ignores that the list
  is full (mtapi_c/src/embb_mtapi_action_t.c:163), and the later removal of an action
  that is not listed takes another one off (`JobList.ListExactIff`,
  `JobList.OverfullLosesActions`).
- A handle, and with it a reply from another node, passes the validity check exactly
  when its slot has been deallocated a multiple of 2^32 times since
  (`Generations.ValidIff`, `Correlation.ReplyChecked`, `Correlation.WrapMisdirects`).
- A result reaches the task that asked for it if and only if the slot of that task has not
  been deallocated between the request and the write; a cancelled task can be retired
  between the check and the write (`Correlation.ReplyExact`, `Correlation.RaceMisdirects`).
- The search for a worker ends if and only if the mask has a bit below the worker
  count (`Affinity.SearchEndsIff`, `Affinity.EndlessSearch`).
- As many successive choices of a worker for tasks of one mask as there are workers serve
  every worker in the mask if they are the first ones of all or come when there have been
  at least as many; for all masks at once only then (`RuntimeSpread.ChoicesServe`,
  `Affinity.RoundServesIff`). In between the counter's own value is tested before it is
  brought into the range of the workers, and a worker is passed over
  (mtapi_c/src/embb_mtapi_scheduler_t.c:589-594).
- Deallocation keeps the ids partitioned if and only if the id had been handed out or
  none had (`Pools.ReturnIff`, `Pools.ForeignId`).
- A block requested for an aligned payload can hold it if and only if the computation of
  its size does not wrap around; no other block can, at any address
  (`AlignedAlloc.FitsIff`, `AlignedAlloc.SumNeverFits`).

Where the code and its documentation disagree the code is followed: in debug builds
`embb_alloc` adds two words to a block (base_c/src/memory_allocation.c:46), not the three
its documentation mentions (base_c/include/embb/base/c/memory_allocation.h).

## Model

| member | source | states |
|---|---|---|
| `RuntimeSafety.NextKept` | mtapi_c/src/embb_mtapi_task_t.c:98-320 | every atomic operation of producers, executors and collectors keeps the conjunction of the task, placement, affinity and group invariants |
| `RuntimeSafety.RunSafe` | mtapi_c/src/embb_mtapi_task_t.c:98-320 | those invariants hold in every state of every run |
| `RuntimeInvariants.CountdownLocal` | mtapi_c/src/embb_mtapi_task_t.c:127-133 | a countdown keeps the counter equal to the number of instances before it, and leaves none exactly if it read 1 |
| `RuntimeInvariants.LiveState` | mtapi_c/src/embb_mtapi_scheduler_t.c:305-319 | an instance that was pushed and has not counted down belongs to a scheduled or running task |
| `RuntimeTheorems.CompletionOnce` | mtapi_c/src/embb_mtapi_task_t.c:127-133 | instances_todo is the number of instances not past their countdown; exactly one countdown reads 1, when none is left; a completed task has no instance before its countdown |
| `RuntimeTheorems.CompletedStays` | mtapi_c/src/embb_mtapi_task_t.c:98-165 | a completed task stays completed until a collector deletes it: no write of the running state overtakes the completion |
| `RuntimeStates.StateExact` | mtapi_c/src/embb_mtapi_task_t.c:98-165 | the state of a task is prenatal until it is published, error exactly if its start failed or it was deleted, otherwise completed exactly if every instance is past its countdown and the last one has written that, running exactly from the first call of the action until then, and scheduled before |
| `RuntimeTheorems.NeverDropped` | mtapi_c/src/embb_mtapi_scheduler_t.c:305-355 | a worker never takes the branch that drops a task |
| `RuntimeTheorems.InstanceNumbers` | mtapi_c/src/embb_mtapi_task_context_t.c:43-56 | the instance that is handed a number first, second and so on has number 0, 1 and so on, so running instances of a task have distinct numbers below the instance count, and at completion the numbers 0 to n-1 have been handed out, each to one instance |
| `RuntimeTheorems.ActionCount` | mtapi_c/src/embb_mtapi_scheduler_t.c:577-610 | an action's num_tasks is the number of its queued entries, plus executions before their decrement, plus producers between increment and push or rollback |
| `RuntimeTheorems.ActionIdle` | mtapi_c/src/embb_mtapi_action_t.c:308-324 | while num_tasks is 0, no queue holds an entry of the action, no worker is inside it, and none has still to decrement it; instances that have not been counted may raise it again |
| `RuntimeTheorems.QueueAffinity` | mtapi_c/src/embb_mtapi_scheduler_t.c:559-599 | every queued entry lies at its task's priority, in a private queue of a worker of its effective affinity, or in a public queue if it may run anywhere |
| `RuntimeTheorems.ExecutionAffinity` | mtapi_c/src/embb_mtapi_scheduler_t.c:47-113 | only workers of a task's effective affinity ever execute it |
| `RuntimeOrder.OrderedSuits` | mtapi_c/src/embb_mtapi_queue_t.c:190-199 | all tasks of an ordered queue suit one and the same worker queue, also with a single worker, where it is the public one |
| `RuntimeOrder.OrderedSpread` | mtapi_c/src/embb_mtapi_queue_t.c:190-199 | the worker of an ordered queue is its slot modulo the number of workers, so that queues in as many successive slots as there are workers go to different ones |
| `RuntimeOrder.OrderedFifo` | mtapi_c/src/embb_mtapi_task_t.c:372-392 | the dequeued tasks of an ordered queue are a prefix of the pushed ones, for every number of workers |
| `RuntimeOrder.OrderedCalls` | mtapi_c/src/embb_mtapi_task_t.c:352-405 | if one task has been started before another is created, both through one ordered queue, all instances of the first are dequeued before any of the second, and have left the queue by then |
| `RuntimeWaiting.GroupConservation` | mtapi_c/src/embb_mtapi_group_t.c:228-252 | a group's num_tasks is the number of its unfinished tasks, plus those in its queue, plus those popped and not discounted, plus those lost to a failed start or a full queue |
| `RuntimeWaiting.GroupLossless` | mtapi_c/src/embb_mtapi_task_t.c:98-320 | as long as the tasks of a group have instances, a valid action and priority, a worker in their mask and starts that found room, and the group never counts more of them than the queue limit, none gets stuck and none is lost: a condition callers can rely on beside the exact one |
| `RuntimePhases.PhaseAdvances` | mtapi_c/src/embb_mtapi_task_t.c:141-228 | every step moves every task along one path in its group: joined, waiting in the queue, taken, deleted, no longer counted, or lost; and only a failed start or a full queue loses it |
| `RuntimeWaiting.NoneStuckIff` | mtapi_c/src/embb_mtapi_task_t.c:98-320 | no task of a group is stuck if and only if no step of the run has got one stuck: the joining of a task without instances, without a valid action or priority, without a worker in its mask or with queues that hold nothing; a single instance that found its queue full; a finished task that found the group's queue full |
| `RuntimeWaiting.StuckStays` | mtapi_c/src/embb_mtapi_group_t.c:227-263 | a stuck task stays stuck and is never collected, and the group's counter stays above zero |
| `RuntimeWaiting.WaitAllHangs` | mtapi_c/src/embb_mtapi_group_t.c:227-263 | once a task is stuck, no wait_all call for its group returns |
| `RuntimeDrain.DrainsIff` | mtapi_c/src/embb_mtapi_group_t.c:227-263 | from every state of every run, some continuation brings the group's counter to zero if and only if no task of the group is stuck |
| `RuntimeDrain.WaitAllReturnsIff` | mtapi_c/src/embb_mtapi_group_t.c:227-263 | an open wait_all call returns in some continuation of the run if and only if no task of its group is stuck |
| `RuntimeLoss.OneTooMany` | mtapi_c/src/embb_mtapi_task_t.c:141-149 | for every limit there is a run with one task more, all of them completed, in which the last one is stuck |
| `RuntimeLoss.EmptyTask` | mtapi_c/src/mtapi_task_attributes_t.c:80-83 | for every limit there is a run that ends with one successfully started task without instances, which is not lost and yet stuck |
| `RuntimeWaiting.RoomToNotify` | mtapi_c/src/embb_mtapi_task_t.c:141-149 | within that limit the push at the end of a task finds room |
| `RuntimeWaiting.GroupComplete` | mtapi_c/src/embb_mtapi_group_t.c:228-263 | while the counter is zero, every task that joined the group has run all instances and was collected and deleted, once |
| `RuntimeWaiting.WaitAllComplete` | mtapi_c/src/embb_mtapi_group_t.c:227-263 | when a wait_all call has returned, every task that had joined the group at any moment before, since or before the call was opened, has been collected and deleted |
| `RuntimeWaiting.WaitAnyCount` | mtapi_c/src/embb_mtapi_group_t.c:292-349 | when only wait_any calls wait for a group, as many of them have succeeded as tasks have been collected |
| `RuntimeWaiting.CollectedOnce` | mtapi_c/src/embb_mtapi_group_t.c:292-349 | no two waiting calls collect the same task, and a wait_any call collects at most one |
| `RuntimeHandout.FirstFinishedFirst` | mtapi_c/src/embb_mtapi_task_t.c:141-149 | a group hands out its tasks in the order in which they finished |
| `RuntimeHandout.WaitingDone` | mtapi_c/src/embb_mtapi_task_t.c:127-149 | a task in its group's queue has completed, and the instance that completed it has already told the action |
| `RuntimeHandout.AnyEndsWithOne` | mtapi_c/src/embb_mtapi_group_t.c:292-349 | a wait_any call that was past its look at the counter returns with exactly one task |
| `RuntimeHandout.AnyStarves` | mtapi_c/src/embb_mtapi_group_t.c:314-334 | such a call for which no task is left, because all are collected, taken by other calls or stuck, does not return as long as no further task joins the group |
| `RuntimeDrain.WaitAnyReturnsIff` | mtapi_c/src/embb_mtapi_group_t.c:292-349 | a wait_any call past its look at the counter returns in some continuation of the run without a further task joining if and only if some task is left for it |
| `RuntimeLoss.StarvedCall` | mtapi_c/src/embb_mtapi_group_t.c:292-349 | for every limit there is a run that ends with such a call while the counter is zero |
| `RuntimeTheorems.DeletedIsQuiet` | mtapi_c/src/embb_mtapi_group_t.c:243-252 | no queue and no group queue holds a deleted task, and no worker executes it; a worker that has executed it may still have to tell the action, or to look for the task's callback |
| `RuntimeCallbacks.CallbackIff` | mtapi_c/src/embb_mtapi_scheduler_t.c:354-357 | looking for a callback after an execution, the main loop finds the executed task in its slot if and only if no call has collected that task before |
| `RuntimeCallbacks.NestedNeverReports` | mtapi_c/src/embb_mtapi_scheduler_t.c:215-237 | for an instance that a waiting call has taken no callback is ever looked up |
| `RuntimeCallbacks.PopNested` | mtapi_c/src/embb_mtapi_scheduler_t.c:215-237 | an instance that a waiting call takes is such an instance |
| `RuntimeLoss.EarlyCallback` | mtapi_c/src/embb_mtapi_scheduler_t.c:354-357 | for every limit there is a run in which the main loop that has executed one task finds another one in its slot, which has not been started |
| `StartLoop.Node.Schedule` | mtapi_c/src/embb_mtapi_scheduler_t.c:577-615 | an instance is counted and pushed if its queue has room, otherwise nothing changes |
| `StartLoop.Node.Start` | mtapi_c/src/embb_mtapi_task_t.c:282-309 | the loop goes on after failed pushes: every queue receives as many entries as are aimed at it or as it has room for, the action counts just those, and the start succeeds exactly if all found room |
| `StartLoop.FailsIff` | mtapi_c/src/embb_mtapi_task_t.c:282-309 | a start fails if and only if more instances are aimed at some queue than it has room for |
| `StartLoop.LeftIff` | mtapi_c/src/embb_mtapi_task_t.c:282-309 | entries of the task are in the queues afterwards if and only if some instance was aimed at a queue with room |
| `StartLoop.DebrisIff` | mtapi_c/src/embb_mtapi_task_t.c:282-309 | a failed start leaves entries of the deleted task if and only if there was room for some instances and not for all; never with a single instance |
| `StartLoop.Debris` | mtapi_c/src/embb_mtapi_task_t.c:282-309 | two instances aimed at a queue with room for one leave one entry |
| `RuntimeWaiting.CollectedByOne` | mtapi_c/src/embb_mtapi_group_t.c:242-252 | the tasks collected from a group are exactly those its wait_all and wait_any calls got, each of them one call |
| `RuntimeProgress.NeverStuck` | mtapi_c/src/embb_mtapi_scheduler_t.c:252-378 | in every state of every run, each instance that is neither done nor abandoned nor of a failed start has an enabled step that takes it, its producer or the queue in its way further, given a worker in its affinity and queues that can hold a task |
| `RuntimePlacement.AimSuits` | mtapi_c/src/embb_mtapi_scheduler_t.c:580-599 | the queue a push aims at suits the task's priority and affinity |
| `RuntimeSpread.RoundRobin` | mtapi_c/src/embb_mtapi_scheduler_t.c:539-570 | in every run the instances of a task are pushed in order, each once, and all of them if the start succeeds; those of a task that may run anywhere go to public queues of its priority, the first to the worker with the number of the slot modulo the workers and each further one to the next worker around |
| `RuntimeSpread.DifferentWorkers` | mtapi_c/src/embb_mtapi_scheduler_t.c:539-570 | as many successive instances as there are workers go to different workers |
| `RuntimeSpread.CounterCounts` | mtapi_c/src/embb_mtapi_scheduler_t.c:589-590 | the shared counter is the number of choices for affine tasks so far, modulo 2^32 |
| `RuntimeSpread.ChoiceExact` | mtapi_c/src/embb_mtapi_scheduler_t.c:587-599 | the queue chosen for an affine task is a private one of its priority, of the worker whose number is the count of choices so far if that is in the mask, otherwise of the first worker in the mask from the next number on, going around |
| `RuntimeSpread.ChoicesServe` | mtapi_c/src/embb_mtapi_scheduler_t.c:587-599 | in a run, as many successive choices for one mask as there are workers serve every worker in it, if they are the first ones or come after at least as many |
| `RuntimePlacement.PopAdmits` | mtapi_c/src/embb_mtapi_scheduler_t.c:47-74 | whoever may take from a suitable queue is admitted by the task's affinity |
| `Affinity.Effective` | mtapi_c/src/embb_mtapi_scheduler_t.c:559-575 | the mask a task is scheduled with is the ordered queue's, else what action and task have in common, else all workers; it is never empty |
| `Affinity.SearchEndsIff` | mtapi_c/src/embb_mtapi_scheduler_t.c:589-594 | from any 32-bit counter value the search finds a worker if and only if the mask has a bit below the worker count |
| `Affinity.EndlessSearch` | mtapi_c/src/embb_mtapi_scheduler_t.c:589-594 | a mask with only the bit of a third worker keeps a search among two workers going for ever |
| `Affinity.TargetClosed` | mtapi_c/src/embb_mtapi_scheduler_t.c:589-594 | a worker is the outcome of the search if and only if it is the counter's value, where that is a worker in the mask, and otherwise the first one in the mask going around from the next 32-bit value modulo the workers |
| `Affinity.RoundServesIff` | mtapi_c/src/embb_mtapi_scheduler_t.c:589-594 | as many successive counter values as there are workers reach every worker of every mask if and only if they start at zero or at the worker count or above |
| `Affinity.FindTarget` | mtapi_c/src/embb_mtapi_scheduler_t.c:589-594 | the loop terminates with a worker of the mask: the first hit in probing order, which is the counter's value itself or the first worker in the mask going around from the next value |
| `Affinity.TargetExists` | mtapi_c/src/embb_mtapi_scheduler_t.c:589-594 | with a bit below the worker count there is a worker the search ends at |
| `Affinity.TargetUnique` | mtapi_c/src/embb_mtapi_scheduler_t.c:589-594 | counter and mask determine the worker |
| `NextTask.RoundVisitsAll` | mtapi_c/src/embb_mtapi_scheduler_t.c:103-113 | one round of stealing visits every other worker exactly once, nearest first |
| `NextTask.RankInjective` | mtapi_c/src/embb_mtapi_scheduler_t.c:76-166 | no two eligible queues have the same rank, in either order |
| `NextTask.BestUnique` | mtapi_c/src/embb_mtapi_scheduler_t.c:76-166 | there is at most one best queue |
| `NextTask.Scheduler.Steal` | mtapi_c/src/embb_mtapi_scheduler_t.c:103-113 | while other threads push and pop, a round probes the other workers' public queues of one priority, nearest first, up to the first that yields a task |
| `NextTask.Scheduler.NextVhpf` | mtapi_c/src/embb_mtapi_scheduler_t.c:76-117 | whatever other threads do between the probes, queues are probed once each by priority, within one the own private, then the own public, then the other workers' public queues going around from the own worker; none is passed over, only the last probe may take a task, the head of its queue, and without a task all eligible queues were probed |
| `NextTask.Scheduler.NextLf` | mtapi_c/src/embb_mtapi_scheduler_t.c:119-166 | the same with all own private queues first, then all own public ones, then the other workers' queues by priority and going around |
| `NextTask.BetterMissed` | mtapi_c/src/embb_mtapi_scheduler_t.c:76-166 | in a search that yields a task, every eligible queue of better rank was empty or its lock could not be taken at a moment during the search; in one that yields none, every eligible queue was |
| `NextTask.BestTaken` | mtapi_c/src/embb_mtapi_scheduler_t.c:76-166 | a search that no other thread interferes with takes the head of the best queue, and none exactly if no eligible queue offers a task |
| `Rings.PutAppends` | mtapi_c/src/embb_mtapi_task_queue_t.c:105-133 | storing at the put position with wrap-around appends to the contents |
| `Rings.GotRemoves` | mtapi_c/src/embb_mtapi_task_queue_t.c:76-103 | clearing the slot at the get position with wrap-around removes the oldest element |
| `TaskQueues.TaskQueue.constructor` | mtapi_c/src/embb_mtapi_task_queue_t.c:52-65 | a new queue of any capacity is empty |
| `TaskQueues.TaskQueue.Pop` | mtapi_c/src/embb_mtapi_task_queue_t.c:76-103 | the oldest task is removed and returned; none, and no change, if the queue is empty |
| `TaskQueues.TaskQueue.Push` | mtapi_c/src/embb_mtapi_task_queue_t.c:105-133 | the task is appended unless the queue is full, in which case nothing changes |
| `ConcurrentQueue.RunSafe` | mtapi_c/src/embb_mtapi_task_queue_t.c:76-133 | in every run of any number of pushers and poppers the lock is held by at most the thread in its critical section, and the fields are as far from their last unlocked values as that thread's progress says |
| `ConcurrentQueue.MutualExclusion` | mtapi_c/src/embb_mtapi_spinlock_t.c:39-70 | at most one thread is between acquisition and release |
| `ConcurrentQueue.BoundedFifo` | mtapi_c/src/embb_mtapi_task_queue_t.c:76-133 | the popped tasks are a prefix of the pushed ones, at most `limit` tasks are in between, and whenever the lock is free the ring holds just those |
| `ConcurrentQueue.Refines` | mtapi_c/src/embb_mtapi_task_queue_t.c:76-133 | every access to a field by any thread leaves the abstract queue alone, or appends to it within the limit, or takes its head, together with the log of pushes and pops |
| `RuntimeSafety.QueueSteps` | mtapi_c/src/embb_mtapi_scheduler_t.c:580-599 | every step of the task runtime does one of the same three things to each of its queues |
| `ConcurrentQueue.FailureLeavesNoTrace` | mtapi_c/src/embb_mtapi_task_queue_t.c:76-133 | a failed push found the queue full, a failed pop found it empty or exhausted its tries while the lock was held, and neither changes anything |
| `Pools.PartitionCount` | mtapi_c/src/embb_mtapi_id_pool_t.c:61-115 | free ids and ids handed out together are as many as the capacity |
| `Pools.IdTaken` | mtapi_c/src/embb_mtapi_id_pool_t.c:61-88 | handing out the first free id keeps free and handed out ids a partition of 1 to capacity, and the id was not handed out before |
| `Pools.IdReturned` | mtapi_c/src/embb_mtapi_id_pool_t.c:90-115 | putting back an id that was handed out finds room and keeps the partition |
| `Pools.ForeignId` | mtapi_c/src/embb_mtapi_id_pool_t.c:90-115 | putting back any other id spoils the partition |
| `Pools.ReturnIff` | mtapi_c/src/embb_mtapi_id_pool_t.c:90-115 | deallocation keeps the partition exactly if the id was handed out or none was |
| `Pools.IdPool.constructor` | mtapi_c/src/embb_mtapi_id_pool_t.c:33-49 | all ids from 1 to the capacity are free, in ascending order, and none is handed out |
| `Pools.IdPool.Allocate` | mtapi_c/src/embb_mtapi_id_pool_t.c:61-88 | the id that has been free for longest is handed out, never one that is out already, and 0 exactly if all are |
| `Pools.IdPool.Deallocate` | mtapi_c/src/embb_mtapi_id_pool_t.c:90-115 | the id joins the end of the free ones unless all are free; the partition survives exactly if it was handed out or none was |
| `Generations.RunSafe` | mtapi_c/src/embb_mtapi_pool_template-inl.h:79-98 | in every concurrent history each slot is free, reserved, live or leaving, and issues, owners and tags agree with that |
| `Generations.ValidIff` | mtapi_c/src/embb_mtapi_pool_template-inl.h:100-108 | an issued handle passes the check exactly when its slot has been deallocated a multiple of 2^32 times since |
| `Generations.ValidWhileLive` | mtapi_c/src/embb_mtapi_pool_template-inl.h:79-108 | with fewer deallocations a handle is valid exactly from its allocation to its deallocation |
| `Generations.SlotsExclusive` | mtapi_c/src/embb_mtapi_pool_template-inl.h:79-98 | two live handles never share a slot, and no other thread writes a live slot |
| `Generations.OldestFirst` | mtapi_c/src/embb_mtapi_id_pool_t.c:57-115 | in every concurrent history the ids taken and then the free ones are the initial ids and then the returned ones, in this order |
| `Generations.ReusedLast` | mtapi_c/src/embb_mtapi_id_pool_t.c:57-115 | an id that is returned is not handed out again before every id that was free at that moment, and these are handed out in their order |
| `ThreadIndexRuns.RunSafe` | base_c/src/internal/thread_index.c:45-121 | the invariants of initialisation, counting and storage hold in every state of every run |
| `ThreadIndexRuns.InitialisedOnce` | base_c/src/internal/thread_index.c:45-86 | each lazy initialisation runs at most once, and before anyone uses the variable |
| `ThreadIndexRuns.IndicesDistinct` | base_c/src/internal/thread_index.c:88-121 | threads hold different indices below the maximum |
| `ThreadIndexRuns.IndicesDense` | base_c/src/internal/thread_index.c:88-121 | while no request is under way the indices held are exactly 0 to S-1, and the counter is S, whatever was incremented and undone |
| `ThreadIndexRuns.RefusedWhenFull` | base_c/src/internal/thread_index.c:88-108 | a request is refused only when all indices have been drawn |
| `ThreadIndexRuns.OwnValue` | base_c/src/thread_specific_storage.c:34-67 | a thread reads the value it set last, or nothing |
| `ThreadIndexRuns.CurrentContext` | mtapi_c/src/embb_mtapi_scheduler_t.c:196-213 | the search, whose reads may happen at any moments of a run, yields a worker's own context if it was stored when read, and nothing for any other thread |
| `ThreadIndexRuns.OwnContext` | mtapi_c/src/embb_mtapi_scheduler_t.c:196-213 | a worker that has stored its context before the search finds it, whatever other threads do during the search |
| `NetworkBuffer.Int32RoundTrip` | mtapi_network_c/src/embb_mtapi_network_buffer.c:83-137 | writing and reading a 32-bit integer are inverse to each other |
| `NetworkBuffer.LittleEndian` | mtapi_network_c/src/embb_mtapi_network_buffer.c:83-137 | the four bytes are the integer in two's complement, the least significant byte first |
| `NetworkBuffer.Copy` | mtapi_network_c/src/embb_mtapi_network_buffer.c:94-104 | a chunk is copied behind what is there |
| `NetworkBuffer.Buffer.PushRaw` | mtapi_network_c/src/embb_mtapi_network_buffer.c:94-104 | the bytes are appended if all fit, otherwise nothing changes |
| `NetworkBuffer.Buffer.PushInt8` | mtapi_network_c/src/embb_mtapi_network_buffer.c:61-70 | one byte is appended if it fits |
| `NetworkBuffer.Buffer.PushInt32` | mtapi_network_c/src/embb_mtapi_network_buffer.c:83-92 | four bytes are appended if they fit |
| `NetworkBuffer.Buffer.PopRaw` | mtapi_network_c/src/embb_mtapi_network_buffer.c:139-149 | the bytes are taken off the front if there are that many |
| `NetworkBuffer.Buffer.PopInt8` | mtapi_network_c/src/embb_mtapi_network_buffer.c:106-115 | one byte is taken off the front if there is one |
| `NetworkBuffer.Buffer.PopInt32` | mtapi_network_c/src/embb_mtapi_network_buffer.c:128-137 | an integer is taken off the front if four bytes are left |
| `NetworkBuffer.Buffer.Clear` | mtapi_network_c/src/embb_mtapi_network_buffer.c:55-59 | the buffer is empty |
| `Wire.SendBuffer` | mtapi_network_c/src/embb_mtapi_network_socket.c:185-203 | whatever the chunks, a prefix of the buffer is sent; all of it exactly if its size is returned, and always on a reliable connection |
| `Wire.ReceiveSized` | mtapi_network_c/src/embb_mtapi_network_socket.c:205-246 | whatever the chunks, exactly the requested bytes are taken off the stream, in order, or zero is returned |
| `Wire.ComposeStart` | mtapi_network_c/src/embb_mtapi_network.c:493-525 | the header of a start message |
| `Wire.ComposeReturn` | mtapi_network_c/src/embb_mtapi_network.c:145-165 | the header of a result message |
| `Wire.Compose` | mtapi_network_c/src/embb_mtapi_network.c:145-170 | the send buffer holds the encoding of the message |
| `Wire.StartLayout` | mtapi_network_c/src/embb_mtapi_network.c:493-527 | byte 0 of a start message is 0; domain, job, priority, id, tag, size of the result and length of the arguments are at bytes 1, 5, 9, 13, 17, 21 and 25, and the arguments from byte 29 on |
| `Wire.ResultLayout` | mtapi_network_c/src/embb_mtapi_network.c:145-167 | byte 0 of a result message is 1; id, tag, status and length of the result are at bytes 1, 5, 9 and 13, and the result from byte 17 on |
| `Wire.HeaderRoundTrip` | mtapi_network_c/src/embb_mtapi_network.c:245-273 | the receiver reads from 28 or 16 header bytes exactly the fields that were sent |
| `Wire.ReadHeader` | mtapi_network_c/src/embb_mtapi_network.c:245-273 | the fields taken off the buffer are those the header encodes |
| `Wire.DecodeEncode` | mtapi_network_c/src/embb_mtapi_network.c:219-287 | decoding undoes encoding, whatever follows in the stream, for empty payloads too |
| `Wire.ReceiveMessage` | mtapi_network_c/src/embb_mtapi_network.c:217-355 | one turn of the receive loop, with or without assertions: nothing is delivered without an operation byte or for an unknown one; after that, what is delivered depends on header and payload as they came off the stream or were missed, and is what the stream encodes if both were received |
| `Wire.DeliveredIff` | mtapi_network_c/src/embb_mtapi_network.c:245-355 | from a stream that starts with a message, a turn without assertions delivers that message for every content of uninitialised memory if and only if header and payload were received |
| `Wire.AssertionsStop` | mtapi_network_c/src/embb_mtapi_network.c:245-355 | a turn with assertions delivers that message if both were received, and stops otherwise |
| `Wire.SendAll` | mtapi_network_c/src/embb_mtapi_network.c:485-530 | the stream is the concatenation of the encodings |
| `Wire.ReceiveAll` | mtapi_network_c/src/embb_mtapi_network.c:187-400 | from the encodings of a list of messages the receiver gets that list and consumes the stream |
| `Wire.Converse` | mtapi_network_c/src/embb_mtapi_network.c:187-400 | any list of messages that fit the buffers arrives complete, unchanged and in order, for any chunks of send and receive |
| `Wire.AnyMoment` | mtapi_network_c/src/embb_mtapi_network.c:187-400 | whenever some of the bytes have arrived, what can be decoded is a prefix of the messages sent, the remaining bytes belong to the next one, and with all bytes all messages are decoded |
| `Correlation.HandleRoundTrip` | mtapi_network_c/src/embb_mtapi_network.c:357-358 | a handle survives the conversions between unsigned and signed fields, which keep it modulo 2^32 |
| `Correlation.NextKept` | mtapi_network_c/src/embb_mtapi_network.c:115-381 | every allocation, retirement, request, acceptance, completion, check and write keeps requests, remote tasks, replies and writes matched one to one with started tasks, with what these were started for and with how their actions ended |
| `Correlation.RunSafe` | mtapi_network_c/src/embb_mtapi_network.c:115-381 | that matching holds in every run |
| `Correlation.ReplyChecked` | mtapi_network_c/src/embb_mtapi_network.c:357-369 | a reply belongs to a started task and passes the check exactly when its action is valid and the slot has been deallocated a multiple of 2^32 times since the request |
| `Correlation.RetiredDropped` | mtapi_network_c/src/embb_mtapi_network.c:357-369 | with fewer deallocations the reply to a retired task is dropped |
| `Correlation.ReplyTarget` | mtapi_network_c/src/embb_mtapi_network.c:375-377 | what is written after the check is the status and the bytes the action ended with, has the size the task asked for and goes to the task's slot |
| `Correlation.CurrentIff` | mtapi_network_c/src/embb_mtapi_network.c:357-377 | in every state of every run, a started task lives in its slot if and only if that slot has not been deallocated since the task was started |
| `Correlation.ReplyExact` | mtapi_network_c/src/embb_mtapi_network.c:357-377 | a result reaches the task that asked if and only if the slot of that task has not been deallocated between request and write; then the task is live and expects that many bytes; status and bytes are in any case those its action ended with |
| `Correlation.WritesCorrelated` | mtapi_network_c/src/embb_mtapi_network.c:357-377 | over a whole run every write belongs to a started task, has its length, hits its slot, and the task found at the check is the one that asked unless the slot was deallocated 2^32 times; no task is answered twice |
| `Correlation.JobExact` | mtapi_network_c/src/embb_mtapi_network.c:232-315 | every task on the executing node has domain, job, priority, arguments and result size with which one task of the other node was started before |
| `Correlation.RemoteCall` | mtapi_network_c/src/embb_mtapi_network.c:115-381 | whatever status and bytes are written for a task, an action ended with exactly these before, executed for exactly the domain, job, priority and arguments with which that task was started before that |
| `Correlation.CallReturns` | mtapi_network_c/src/embb_mtapi_network.c:115-381 | for every request, status and result there is a run in which the action is given just that request, and one in which just that status and result are written to the task that asked |
| `Correlation.WrapMisdirects` | mtapi_c/src/embb_mtapi_pool_template-inl.h:100-108 | a run in which a later task that never asked passes for the one that did, after exactly 2^32 deallocations |
| `Correlation.RaceMisdirects` | mtapi_network_c/src/embb_mtapi_network.c:360-377 | a run in which a result is written to a later task because its task was retired between check and write |
| `JobList.RemovedMembers` | mtapi_c/src/embb_mtapi_job_t.c:157-172 | swap-removal of a listed action removes just that one; removal of any other removes the last |
| `JobList.RemovedPlaces` | mtapi_c/src/embb_mtapi_job_t.c:157-172 | the former last entry takes the place of the removed one and all other entries keep theirs; if the removed one is the last or not listed, the last entry is cut off |
| `JobList.Job.constructor` | mtapi_c/src/embb_mtapi_job_t.c:103-121 | a new list is empty |
| `JobList.Job.AddAction` | mtapi_c/src/embb_mtapi_job_t.c:136-155 | the action is appended behind the listed ones, which keep their places, unless the list is full |
| `JobList.Job.RemoveAction` | mtapi_c/src/embb_mtapi_job_t.c:157-172 | the loop computes the swap-removal: the last entry takes the place of the removed one, all others keep theirs, and nothing behind the list changes; the count of an empty list wraps around |
| `JobList.Job.ChooseAction` | mtapi_c/src/embb_mtapi_task_t.c:230-255 | of the listed valid actions, and slot 0 in any case, the one of least index with the fewest tasks; none if that one is not valid; a list without slots is read outside |
| `JobList.LeastUnique` | mtapi_c/src/embb_mtapi_task_t.c:230-255 | list, validity and counters determine the choice |
| `JobList.ListExactIff` | mtapi_c/src/embb_mtapi_action_t.c:161-166 | after any history of creations and deletions the list holds each existing action exactly once if and only if there were never more than it can hold |
| `JobList.OverfullLosesActions` | mtapi_c/src/embb_mtapi_action_t.c:161-166 | one action too many and its deletion take an existing action off the list, and the next deletion wraps the count around |
| `JobList.SlotsCreated` | mtapi_c/src/embb_mtapi_job_t.c:136-172 | entries beyond the count are invalid or belong to actions that once existed |
| `JobList.PoolChecks` | mtapi_c/src/embb_mtapi_pool_template-inl.h:100-108 | with fewer than 2^32 deallocations per slot, the pool's check tells existing actions from deleted ones |
| `JobList.ChooseForTask` | mtapi_c/src/embb_mtapi_task_t.c:230-255 | on a list that was never overfull all listed handles are valid, an existing action with the fewest tasks is chosen, and none exactly if none exists |
| `AlignedAlloc.MaskClears` | base_c/src/memory_allocation.c:106-107 | masking with the complement of a power of two less one rounds down to a multiple of it |
| `AlignedAlloc.AlignedAddress` | base_c/src/memory_allocation.c:106-121 | for every start address masking and stepping terminate at an aligned address with room for three words before it, less than one alignment beyond the minimum |
| `AlignedAlloc.FirstIsLeast` | base_c/src/memory_allocation.c:106-111 | no earlier aligned address has room for the header |
| `AlignedAlloc.PayloadFits` | base_c/src/memory_allocation.c:93-115 | the requested size always suffices for all cells of the payload |
| `AlignedAlloc.BlockSizeTight` | base_c/src/memory_allocation.c:88-99 | for every number of cells some start address needs the last byte |
| `AlignedAlloc.FitsIff` | base_c/src/memory_allocation.c:93-115 | for an alignment of at most half the range, the requested block can hold header and payload if and only if the computation of its size does not wrap around |
| `AlignedAlloc.SumNeverFits` | base_c/src/memory_allocation.c:93-115 | if the sum of size and alignment wraps around, the payload fits at no address |
| `AlignedAlloc.PlainFitsIff` | base_c/src/memory_allocation.c:45-62 | an unaligned block can hold its payload if and only if the computation of its size does not wrap around |
| `AlignedAlloc.TotalBound` | base_c/src/memory_allocation.c:130-131 | blocks that do not overlap never add up to more than the addresses |
| `AlignedAlloc.PlusWraps` | base_c/src/memory_allocation.c:130-131 | sizes are added to the counter, and their complements when they are discounted, modulo the range of its type |
| `AlignedAlloc.Added` | base_c/src/memory_allocation.c:123-133 | entering a block keeps all headers and the counter, which does not wrap around |
| `AlignedAlloc.Removed` | base_c/src/memory_allocation.c:144-149 | striking a block off keeps the other headers and the counter |
| `AlignedAlloc.LeakFree` | base_c/src/memory_allocation.c:152-154 | no bytes are counted exactly when no block is in use |
| `AlignedAlloc.Allocator.AllocAligned` | base_c/src/memory_allocation.c:81-134 | for every size: nothing changes if malloc fails; if the first aligned payload fits the requested block, it is returned, the marker, the start and the size of the block are in the three words before it, and nothing else is written; otherwise the block is too small for it |
| `AlignedAlloc.Allocator.FreeAligned` | base_c/src/memory_allocation.c:136-150 | the start of the block is recovered from the header, and only the marker is written; a block of the other kind is recognised and left alone |
| `AlignedAlloc.Allocator.Alloc` | base_c/src/memory_allocation.c:45-62 | the same for unaligned blocks, with size and marker in their first two words |
| `AlignedAlloc.Allocator.Free` | base_c/src/memory_allocation.c:64-79 | the same for unaligned blocks |
| `AlignedAlloc.Allocator.Write` | base_c/src/memory_allocation.c:81-150 | writes inside a payload damage no header |

## Left out

- Cancelled and retained tasks, the disabling of queues and actions, and the visitors behind them; runs of the task runtime contain no such state.
- Starts of tasks with several instances that find a queue full while other threads run: in the task runtime such a producer waits, and `StartLoop` covers the loop of one start alone. What workers do with the entries left behind is not modelled. Starts refused for an invalid action or priority, and single instances that find a queue full, are part of the runs.
- Deletion of tasks outside groups by `mtapi_task_wait` or on detachment; only failed starts and collectors of a group delete tasks.
- Deletion of actions and groups while the task runtime runs; `RuntimeTheorems.ActionIdle` and `RuntimeWaiting.GroupComplete` state what their guards guarantee.
- The task counters of MTAPI queues; nested execution does not maintain them.
- Fairness and termination: `RuntimeProgress.NeverStuck` shows that a step is enabled and `RuntimeDrain.DrainsIff` that a way to zero exists, not that the scheduler takes them.
- Task ids in the task runtime are never reused, slots are; `Generations` covers the tags of reused slots.
- Which activity runs on which thread: the task runtime admits every interleaving of starts, executions and waits, including those a call stack would exclude.
- Timeouts, sleeping and waking of workers, condition variables, clocks and logging.
- Execution of actions: an action function takes some time and changes nothing that is modelled; error codes of tasks are modelled only as the status of a remote call.
- Plugin tasks other than the network plugin's, and the OpenCL plugin.
- The counters num_tasks and the sum of task id and instance number are unbounded integers.
- Concurrent creation and deletion of actions of one job, and changes of the counters while an action is chosen: the list is not locked in the code, and `JobList` covers one caller at a time.
- What follows when the choice among the actions of a job reads a list without slots; the assertions of debug builds about it are not modelled.
- Resetting the thread indices or changing their maximum while threads use them; their documentation reserves both for the beginning of a program or for tests.
- Sockets beyond the bytes that send and receive transfer; connections are set up and select has chosen one.
- The byte order on the wire: integers are little-endian, both nodes agree.
- Wire.Converse: sends all messages before it receives any, over a connection without errors; `Wire.AnyMoment` covers bytes that have arrived at any moment, and `Wire.DeliveredIff` failed receives.
- Wire.ReceiveMessage: after an announced or uninitialised payload length below zero a build without assertions copies outside its buffer; the outcome is `Undefined` then, and the loop is not followed further.
- Correlation.ReplyTarget: the final state of the task, its action counter and its group are not modelled, because the sender writes them after sending and races with the reply.
- AlignedAlloc.Allocator.AllocAligned: what is written when the block is too small is not modelled, the result is `Overrun` then; the counter is as wide as size_t, and concurrent calls are not modelled.
- AlignedAlloc.Allocator.Alloc: the same.
- The release build's allocator, which passes requests on to the system.
- Lock-free stacks, queues and value pools, hazard pointers, the parallel algorithms, dataflow networks and the C++ wrappers.
- Attribute getters and setters, status mapping, durations and time.
