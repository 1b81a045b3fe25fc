# disastrOS, modelled

disastrOS is a teaching kernel: one CPU, processes with a round-robin scheduler, sleep, wait, exit, spawn, resources
opened through descriptors, and message queues. This project models the kernel of `disastrOS_MessageQueues` and proves
what its routines keep and what its runs do. Nothing here runs the kernel.

## Layers

* **Heap.** `LinkedLists.dfy` is the intrusive doubly linked list and `Pools.dfy` the block pool threaded
  through an int array, both with their pointers and indices. `ProcessTables.dfy` threads the ready, waiting and zombie
  lists through the one link of each PCB. `BlockStores.dfy` recycles the blocks of a pool through linked lists; it is
  what messages, the timer list (`TimerLists.dfy`) and the lists of children (`ChildLists.dfy`) are made of.
  `ProcessStores.dfy` puts the heap of the process half together, `BlockPools.dfy` the pools of the resource half.
* **Values.** `Processes.dfy` and `Resources.dfy` say what every routine does to the two halves of the kernel state;
  `KernelSteps.dfy` joins them into one step per system call or timer interrupt, since traps run with the alarm signal
  masked. `Enabled` says when the C code is defined: it follows no null or dangling pointer and needs no block from an
  empty pool it does not check.
* **Program.** `ProcessKernels.dfy` and `ResourceKernels.dfy` are the routines as they run, loops and assignments
  included, each proved to do what its specification says. Both run on the heap layer: the lists of processes,
  timers, children and messages are linked, and timers, PCB pointers, descriptors, entries, resources, queues and
  messages are blocks of their pools. `KernelMachines.dfy` puts the halves together: `Syscall` and `TimerInterrupt` are
  proved to be exactly one `Step`.
* **Invariant.** `ProcessInvariant.dfy`, `ResourceInvariant.dfy` and the `*Keeps.dfy` files prove one invariant for
  all steps; `KernelInvariant.dfy` carries it over runs.
* **Calls.** `ExitCalls.dfy`, `WaitCalls.dfy`, `QueueCalls.dfy`, `OpenCalls.dfy` and `PlainCalls.dfy` say of each call,
  in terms of the fields of the state only, what it leaves, answers and does not touch; together they describe every
  step. `DefinedCalls.dfy` says when a call is defined.
* **Runs.** `BoundedWaiting`, `SleepExactness`, `Wakeups`, `WakeupRuns`, `Deliveries`, `QueueHistory`, `QueueCounts`,
  `LostBlocks`, `BlockedCalls`, `Descriptors`, `FdTables` and `NoIdle` hold the theorems about runs and calls;
  `LostWakeup`, `StaleRun`, `LossRun`, `LeakRun` and `OrphanRun` are runs from boot, call by call, that break what the
  code promises.

## Where the code differs from what it says

* `pcb->timer` is cleared but never set, so the guards "process has already a timer" never fire. That a process has
  at most one timer follows from the invariant instead (`BlockKeeps.TimerAvailable`).
* A process picked by sleep, send, receive or wait runs with status Ready; the invariant allows both.
* The code of a send to a full queue, or a receive from an empty one, is written after the CPU has changed hands, and
  the operation is not repeated (`BlockedCalls.FullSend`, `BlockedCalls.EmptyReceive`).
* `internal_wait` announces an error for a pid that is no child, and gives it only to the childless
  (`Wakeups.WaitForStranger`).
* Exit moves children to init without looking whether init is waiting for one of them, and leaves their parent field.
  Wakeups can be lost that way; `Wakeups.ExitNoLost` and `WakeupRuns.LostOnlyByExit` say exactly when, and
  `LostWakeup.WakeupLost` gives a run from boot.
* A parent field is never updated, so it may point to a freed PCB, or to a new one in the same block. Exit follows it
  all the same: it signals whoever is there, and tests whether that process waits. `DefinedCalls.EnabledWhen`
  and `NoIdle.OthersCanBlock` say exactly when this goes wrong, and `OrphanRun.OrphanCannotExit` gives a run from boot.
* Wait frees a zombie that may still hold descriptors; `Descriptors.RunNoLeak` says exactly when that leaks,
  `Descriptors.LeakIsForever` what follows, and `LeakRun.DescriptorLeaks` gives a run from boot.
* `MessageQueue_alloc` does not reset `num_msg`: `QueueCounts.RunLiveExact` says exactly when the counts of queues are
  right, `QueueCounts.RunExact` which unlinks make a wrong one possible, and `StaleRun.ReceiveCrashes` gives a run from
  boot after which a receive follows a null pointer.
* `internal_mqOpen` with another type calls `internal_openResource` and then goes on (`FdTables.MqOpenOtherType`).
* `internal_destroyResource` accepts the id of a queue and leaves its block and messages allocated for good:
  `LostBlocks.RunKeepsMessages` and `LostBlocks.RunKeepsQueues` say exactly when blocks get lost,
  `LostBlocks.StrandedForever` that they stay lost, and `LossRun.QueueLeaks` gives a run from boot.
* `MessageQueue_alloc` copies a Resource block and never frees it, and `MessageQueue_free` hands its pools addresses
  they do not own; those releases are refused (`Pools.PoolAllocator.ForeignRefused`). So no run creates more than 1024
  queues (`QueueCounts.CreationsBounded`).
* `internal_openResource` tests DSOS_CREATE as a bit, `internal_mqOpen` tests for equality; both are kept.
* The descriptor pools have room for 32768 blocks but are initialised for 1024, which is what the model uses.
* Comments call init process 1; it is process 0.

## Model

| member | source | states |
|---|---|---|
| LinkedLists.ListHead.Find | disastrOS_MessageQueues/linked_list.c:10-19 | the linear scan returns the item exactly when the list holds it, else null |
| LinkedLists.ListHead.Insert | disastrOS_MessageQueues/linked_list.c:21-54 | null and nothing touched when the item has a link; otherwise the list is the old one with the item right after `prev` (in front for null) and prev, next, first, last and size agree with that sequence; no item outside this list is written |
| LinkedLists.ListHead.Detach | disastrOS_MessageQueues/linked_list.c:56-79 | the list is the old one without the item, all links agree with that sequence, and the item comes back with null links |
| LinkedLists.InsertThenDetach | disastrOS_MessageQueues/linked_list.c:39-79 | detaching what was just inserted gives back the list, wherever it was inserted |
| LinkedLists.ItemsDetermineLinks | disastrOS_MessageQueues/linked_list.c:39-78 | two well-formed heaps with the same sequence have the same prev, next, first, last and size, so restoring the sequence restores every pointer |
| Pools.PoolAllocator.Init | disastrOS_MessageQueues/pool_allocator.c:19-47 | NotEnoughMemory and nothing changed when block plus index memory does not fit; otherwise the stack of free indices is 0, 1, 2, ... |
| Pools.PoolAllocator.GetBlock | disastrOS_MessageQueues/pool_allocator.c:49-65 | null exactly on an empty pool; otherwise pops the stack of free indices and returns the address of that block |
| Pools.PoolAllocator.ReleaseBlock | disastrOS_MessageQueues/pool_allocator.c:67-91 | answers UnalignedFree, OutOfRange, DoubleFree or Success by where the address lies and whether its block is free, changes nothing unless it is Success, and then pushes the index |
| Pools.PoolAllocator.AddressDecodes | disastrOS_MessageQueues/pool_allocator.c:69-80 | C's truncating remainder of the offset is 0 exactly on block boundaries, also below the buffer, and the truncating quotient is then the index |
| Pools.PoolAllocator.ForeignRefused | disastrOS_MessageQueues/pool_allocator.c:72-85 | an address outside the memory of the pool is refused, aligned or not |
| Pools.PoolAllocator.ChainIsStack | disastrOS_MessageQueues/pool_allocator.c:35-43 | following free_list from first_idx visits the free indices top first and reaches the end mark after exactly `size` of them: the chain has no cycle |
| Pools.PoolAllocator.LiveAndFree | disastrOS_MessageQueues/pool_allocator.c:57-90 | the number of indices marked as detached plus `size` is always the size of the pool |
| Pools.PoolAllocator.StackDeterminesLinks | disastrOS_MessageQueues/pool_allocator.c:52-90 | two well-formed pools with the same stack have the same free_list and first_idx, so a get undone by a release restores the array |
| Pools.BlocksDisjoint | disastrOS_MessageQueues/pool_allocator.c:63-64 | blocks of different indices share no byte |
| ProcessTables.ProcessTable.Insert | disastrOS_MessageQueues/linked_list.c:21-54 | a PCB in none of the ready, waiting and zombie lists, which all use its one link, is never refused by an insertion, and the other two lists stay as they are |
| ProcessTables.ProcessTable.Alloc | disastrOS_MessageQueues/disastrOS_pcb.c:42-58 | the new PCB gets the block on top of the pool of PCBs, in which it is the last tenant; no other PCB that is there has it |
| ProcessTables.ProcessTable.Release | disastrOS_MessageQueues/disastrOS_pcb.c:60-62 | the block of the PCB is the next one the pool will give out; who had which block last is not forgotten, as pointers to it may remain |
| ProcessTables.ProcessTable.Detach | disastrOS_MessageQueues/linked_list.c:64-78 | taking a PCB off one of the three lists leaves the other two alone and the PCB free for the next insertion |
| BlockStores.BlockStore.Insert | disastrOS_MessageQueues/disastrOS_mq_send.c:76-79 | a block straight from the pool is never refused by List_insert, although message allocation does not reset links: every free block has null ones |
| BlockStores.BlockStore.Detach | disastrOS_MessageQueues/disastrOS_mq_receive.c:69-70 | a detached block is in no list and has null links; all other lists keep their blocks |
| BlockStores.BlockStore.Add | disastrOS_MessageQueues/disastrOS_mq_send.c:75-80 | a new block with this value goes to the end of the list, the values of every other list stay, and one block leaves the pool |
| BlockStores.BlockStore.TakeFirst | disastrOS_MessageQueues/disastrOS_mq_receive.c:69-80 | the oldest value of the list is returned, the others stay in order, and its block is the next one the pool will give out |
| BlockStores.BlockStore.Move | disastrOS_MessageQueues/disastrOS_exit.c:20-27 | the first block of one list becomes the last of another, links and all, and no other list changes |
| BlockStores.BlockStore.Lose | disastrOS_MessageQueues/disastrOS_exit.c:50-52 | a block that is detached and not freed is in no list and in no pool, and the other lists keep theirs |
| BlockStores.BlockStore.Drain | disastrOS_MessageQueues/disastrOS_message_queue.c:53-65 | the loop that reads the next pointer before each detach returns every leftover block to the pool; the release of the list head address is refused and changes nothing; other queues are untouched |
| BlockPools.PoolSet.constructor | disastrOS_MessageQueues/disastrOS_descriptor.c:23-39 | after boot the four pools behind resources are separate, well formed and hold 1024 free blocks each in their own buffers |
| BlockPools.PoolSet.Take | disastrOS_MessageQueues/pool_allocator.c:49-65 | a get on any of the four pools pops the top of its stack, or fails exactly when it is empty, and leaves the other three alone |
| BlockPools.PoolSet.FreeCopy | disastrOS_MessageQueues/disastrOS_resource.c:37-41 | releasing the Resource that a queue block starts with is refused by the Resource pool, which stays as it is |
| BlockPools.WithinQueue | disastrOS_MessageQueues/disastrOS_message_queue.c:54-63 | no byte of a queue block lies in a Resource block or in a message block |
| TimerLists.TimerList.Add | disastrOS_MessageQueues/disastrOS_timer.c:44-61 | the scan of the linked list puts the timer in front of the first strictly later one; null and nothing changed when the pool is empty |
| TimerLists.TimerList.Clean | disastrOS_MessageQueues/disastrOS_exit.c:60-72 | the loop that reads the next pointer before each detach removes and frees exactly the timers of the given process |
| ChildLists.ChildTable.Find | disastrOS_MessageQueues/disastrOS_pcb.c:87-96 | the scan returns the pointer to the first child with the pid, or null |
| ProcessStores.ProcessStore.ScanChildren | disastrOS_MessageQueues/disastrOS_wait.c:20-31 | the scan of the linked list ends on the pointer to the first match, or to the last child when there is none |
| ProcessStores.ProcessStore.MoveChild | disastrOS_MessageQueues/disastrOS_exit.c:20-27 | the pointer to the first child of one process becomes the last of another; all PCBs, lists and pools are otherwise as they were |
| ProcessStores.ProcessStore.LoseChild | disastrOS_MessageQueues/disastrOS_exit.c:50-52 | the pointer leaves the list of children and is not freed: the pool of pointers has as many as before |
| ProcessKernels.ProcessKernel.RecordCall | disastrOS_MessageQueues/disastrOS.c:85-98 | the arguments of the call overwrite the first registers only, and the call number is set |
| ProcessKernels.ProcessKernel.AddTimer | disastrOS_MessageQueues/disastrOS_timer.c:44-61 | on the whole process half: the new timer is where the specified list has it, one block has left the pool, and nothing else has changed |
| ProcessKernels.ProcessKernel.WakeDue | disastrOS_MessageQueues/disastrOS_schedule.c:17-28 | the wake loop ends with exactly the due timers gone and their processes moved, in timer order, from waiting to the front of ready |
| ProcessKernels.ProcessKernel.Schedule | disastrOS_MessageQueues/disastrOS_schedule.c:8-41 | on the heap lists, the whole routine is the specified schedule and keeps the invariant |
| ProcessKernels.ProcessKernel.Tick | disastrOS_MessageQueues/disastrOS.c:47-52 | the clock advances by one, then the scheduler runs at the new time |
| ProcessKernels.ProcessKernel.Sleep | disastrOS_MessageQueues/disastrOS_sleep.c:7-33 | either the specified timed block, or an error with everything else unchanged when there is a timer or none is left |
| ProcessKernels.ProcessKernel.BlockOnQueue | disastrOS_MessageQueues/disastrOS_mq_send.c:42-71 | the blocking end of send and receive, with the code written after the switch of the running process |
| ProcessKernels.ProcessKernel.Spawn | disastrOS_MessageQueues/disastrOS_spawn.c:13-35 | the child is the last ready process, the last child of the caller, has the next pid and no other link; the caller gets that pid |
| ProcessKernels.ProcessKernel.ScanChildren | disastrOS_MessageQueues/disastrOS_wait.c:20-31 | the scan finds the child that the specification says is awaited, and its PCB |
| ProcessKernels.ProcessKernel.Wait | disastrOS_MessageQueues/disastrOS_wait.c:7-66 | error without children, reaping of the scanned child when it is a zombie (named in the result), else blocking in favour of the first ready process |
| ProcessKernels.ProcessKernel.MoveChildren | disastrOS_MessageQueues/disastrOS_exit.c:20-33 | the loop appends all children, in order, to those of init and signals each of them, parent fields untouched |
| ProcessKernels.ProcessKernel.CleanTimers | disastrOS_MessageQueues/disastrOS_exit.c:63-72 | the loop over the timer list removes exactly the timers of the given process |
| ProcessKernels.ProcessKernel.Exit | disastrOS_MessageQueues/disastrOS_exit.c:15-95 | hand-over to whoever the parent pointer leads to, also when the block of the parent has a new tenant, if that process waits for this one or for any; else zombie and the first ready process runs; reports which |
| ResourceKernels.ResourceKernel.ById | disastrOS_MessageQueues/disastrOS_resource.c:43-52 | the scan finds an id exactly when it is listed |
| ResourceKernels.ResourceKernel.ByFd | disastrOS_MessageQueues/disastrOS_descriptor.c:53-62 | the scan returns the first descriptor with the fd, or null |
| ResourceKernels.ResourceKernel.OpenListed | disastrOS_MessageQueues/disastrOS_open_resource.c:43-60 | with a Descriptor block left both blocks are taken from their pools, cross-linked and listed under a new fd; with none left nothing changes and the error is returned |
| ResourceKernels.ResourceKernel.OpenResource | disastrOS_MessageQueues/disastrOS_open_resource.c:10-61 | table and return value are those of the specified open, in every branch; creating a plain resource of the queue type is left out |
| ResourceKernels.ResourceKernel.MqOpen | disastrOS_MessageQueues/disastrOS_mq_open.c:12-56 | the same for mq_open with any type: another type than DSOS_MQ runs open_resource first and then goes on |
| ResourceKernels.ResourceKernel.MqOpenFound | disastrOS_MessageQueues/disastrOS_mq_open.c:22-56 | the part from the lookup on, where only an open mode equal to DSOS_CREATE creates |
| ResourceKernels.ResourceKernel.AllocQueue | disastrOS_MessageQueues/disastrOS_message_queue.c:39-45 | a queue block and a Resource block leave their pools, a new empty list is set up, and num_msg is not touched |
| ResourceKernels.ResourceKernel.Close | disastrOS_MessageQueues/disastrOS_close_resource.c:10-33 | both halves of the cross-link are found and removed, and both blocks freed |
| ResourceKernels.ResourceKernel.CloseAll | disastrOS_MessageQueues/disastrOS_exit.c:74-82 | the loop over the descriptors of the process closes all of them |
| ResourceKernels.ResourceKernel.Destroy | disastrOS_MessageQueues/disastrOS_destroy_resource.c:9-29 | table and return value are those of the specified destroy, also for the id of a queue |
| ResourceKernels.ResourceKernel.FreeResource | disastrOS_MessageQueues/disastrOS_resource.c:37-41 | the block of a plain resource goes back to its pool; for a queue the release is refused, and its block and messages stay allocated |
| ResourceKernels.ResourceKernel.MqUnlink | disastrOS_MessageQueues/disastrOS_mq_unlink.c:11-32 | the queue leaves the list and is drained; its block goes back with num_msg as it is; unlinking a plain resource is left out |
| ResourceKernels.ResourceKernel.FreeQueue | disastrOS_MessageQueues/disastrOS_message_queue.c:53-65 | all four releases in order: the Resource copy and the list head are refused, every leftover message of the linked list and the queue block are freed |
| ResourceKernels.ResourceKernel.Enqueue | disastrOS_MessageQueues/disastrOS_mq_send.c:75-80 | the text goes to the end of the linked list of this queue in a block from the pool, num_msg counts it, and no other queue changes |
| ResourceKernels.ResourceKernel.Dequeue | disastrOS_MessageQueues/disastrOS_mq_receive.c:69-80 | the first text of the linked list is taken, its block freed and num_msg lowered, and no other queue changes |
| KernelMachines.KernelMachine.constructor | disastrOS_MessageQueues/disastrOS.c:141-260 | after boot process 0 runs, all lists are empty, every pool is full but for its PCB, and the invariant holds |
| KernelMachines.KernelMachine.TimerInterrupt | disastrOS_MessageQueues/disastrOS.c:47-52 | the program does exactly one tick of the state machine and keeps the invariant |
| KernelMachines.KernelMachine.Syscall | disastrOS_MessageQueues/disastrOS.c:85-139 | every system call of the program, the unimplemented numbers included, is exactly one step of the state machine, so every theorem about runs below holds of the program with its linked lists and block pools |
| KernelMachines.KernelMachine.InternalExit | disastrOS_MessageQueues/disastrOS_exit.c:15-95 | both halves together: descriptors are closed and the PCB freed only when a waiting parent takes over |
| KernelMachines.KernelMachine.InternalWait | disastrOS_MessageQueues/disastrOS_wait.c:43-56 | both halves together: a reaped PCB is freed and its descriptors are not |
| KernelMachines.KernelMachine.InternalMqSend | disastrOS_MessageQueues/disastrOS_mq_send.c:11-85 | both halves together: unknown fd, full queue and enqueue |
| KernelMachines.KernelMachine.InternalMqReceive | disastrOS_MessageQueues/disastrOS_mq_receive.c:11-84 | both halves together: unknown fd, empty queue and dequeue, the message replacing the second argument |
| KernelInvariant.BootedInv | disastrOS_MessageQueues/disastrOS.c:141-260 | the invariant holds after boot |
| KernelInvariant.StepKeepsInv | disastrOS_MessageQueues/disastrOS.c:101-139 | every call and the timer interrupt keep the invariant: each PCB in exactly one place with a matching status, one timer for each process blocked by anything but wait and no other, each child listed once, descriptors and entries mutual inverses, pools and messages adding up |
| KernelInvariant.RunKeepsInv | disastrOS_MessageQueues/disastrOS.c:101-139 | the invariant holds in every state of every run |
| ScheduleKeeps.ScheduleKeepsInv | disastrOS_MessageQueues/disastrOS_schedule.c:20-36 | the scheduler keeps the process invariant |
| ScheduleKeeps.ScheduleMeans | disastrOS_MessageQueues/disastrOS_schedule.c:17-36 | with D the due timers in order and R their processes followed by the ready ones: R[0] runs, the rest of R and then the old process are ready, waiting loses D, timers lose the prefix D, nothing else changes, and nothing at all when R is empty |
| ScheduleKeeps.DueSplit | disastrOS_MessageQueues/disastrOS_timer.c:63-70 | in a sorted list the wake loop stops after exactly the timers that are due |
| ProcessKernels.WokenReady | disastrOS_MessageQueues/disastrOS_schedule.c:20-25 | in every turn of the wake loop the process of the first timer is in waiting and in no other list |
| BlockKeeps.AddTimerSorted | disastrOS_MessageQueues/disastrOS_timer.c:44-61 | the timer list stays sorted and a new timer goes after all those due at the same time |
| BlockKeeps.TimerAvailable | disastrOS_MessageQueues/disastrOS_sleep.c:10-23 | a running process never has a timer and one is always free, so the error branches of sleep, send and receive are unreachable |
| BlockKeeps.BlockOnTimerKeepsInv | disastrOS_MessageQueues/disastrOS_sleep.c:18-32 | blocking on a timer keeps the invariant, also when nobody is ready |
| ProcessInvariant.Leads | disastrOS_MessageQueues/disastrOS_exit.c:37-45 | while the invariant holds a pointer to a PCB that is there leads to it, and no parent pointer leads back to its owner, however often blocks are reused |
| FamilyKeeps.WaitKeepsInv | disastrOS_MessageQueues/disastrOS_wait.c:12-65 | wait keeps the process invariant in all its branches |
| FamilyKeeps.ExitKeepsInv | disastrOS_MessageQueues/disastrOS_exit.c:17-93 | exit keeps it too, including children that init inherits with a stale parent field |
| FamilyKeeps.SpawnKeepsInv | disastrOS_MessageQueues/disastrOS_spawn.c:15-35 | spawn and fork keep it |
| FamilyKeeps.ExitTimersUntouched | disastrOS_MessageQueues/disastrOS_exit.c:60-72 | the timer cleanup that the source calls untested never finds a timer |
| FamilyKeeps.OneLister | disastrOS_MessageQueues/disastrOS_exit.c:22-27 | no process is ever in two lists of children |
| FamilyKeeps.ExitCases | disastrOS_MessageQueues/disastrOS_exit.c:35-45 | signals and reparenting do not disturb the test made after them |
| ResourceInvariant.OpenResourceKeeps | disastrOS_MessageQueues/disastrOS_open_resource.c:16-60 | opening keeps descriptors and resource entries mutual inverses, fds distinct and below last_fd, and both descriptor pools equally full |
| ResourceInvariant.MqOpenKeeps | disastrOS_MessageQueues/disastrOS_mq_open.c:20-55 | the same for mq_open with any type, with num_msg of a reused block still bounding the number of messages |
| ResourceInvariant.CloseKeeps | disastrOS_MessageQueues/disastrOS_close_resource.c:14-32 | closing keeps the resource invariant |
| ResourceInvariant.CloseAllKeeps | disastrOS_MessageQueues/disastrOS_exit.c:75-82 | so does the cleanup of exit, which leaves the process without descriptors |
| ResourceInvariant.DestroyKeeps | disastrOS_MessageQueues/disastrOS_destroy_resource.c:13-28 | destroying keeps it, also of a queue, whose block and messages are then accounted for as stranded |
| ResourceInvariant.MqUnlinkKeeps | disastrOS_MessageQueues/disastrOS_message_queue.c:53-65 | unlinking keeps it: free, queued and lost messages still make 1024, and so do free, live and stranded queue blocks |
| ResourceInvariant.EnqueueKeeps | disastrOS_MessageQueues/disastrOS_mq_send.c:75-80 | enqueueing keeps it |
| ResourceInvariant.DequeueKeeps | disastrOS_MessageQueues/disastrOS_mq_receive.c:69-80 | dequeueing keeps it |
| ResourceInvariant.QueueBounds | disastrOS_MessageQueues/disastrOS_mq_send.c:39-39 | length <= num_msg <= 10 for every queue, also on a reused block |
| ResourceInvariant.InvLinked | disastrOS_MessageQueues/disastrOS_mq_open.c:42-53 | every pointer between descriptors, entries and resources is followed safely, and a free Descriptor implies a free DescriptorPtr |
| ExitCalls.ExitMeans | disastrOS_MessageQueues/disastrOS_exit.c:15-95 | exit(v), field by field: if the parent lists the caller and is blocked in a wait for its pid or for any, the parent runs with that pid as its return value, has left the waiting list, gets v at the address of its wait, and the caller and its descriptors are gone; otherwise the caller is the last zombie, the first ready process runs and nothing is delivered; in both cases init gets the children, and who gets which signal is said of every process |
| WaitCalls.WaitMeans | disastrOS_MessageQueues/disastrOS_wait.c:7-66 | wait for any pid, field by field: which child is meant (for 0 the first zombie, for a child that child, otherwise the last); if it is a zombie it is gone, its pid is in the return value of the caller, its value is delivered and the caller runs on; if it lives the caller is the last to wait and the first ready process runs; only the childless get the error |
| PlainCalls.TickMeans | disastrOS_MessageQueues/disastrOS.c:47-52 | a tick advances the clock and schedules, in the terms of ScheduleMeans |
| PlainCalls.PreemptMeans | disastrOS_MessageQueues/disastrOS_preempt.c:7-9 | preempt schedules without advancing the clock |
| PlainCalls.SleepMeans | disastrOS_MessageQueues/disastrOS_sleep.c:7-33 | sleep(c), field by field: the caller is the last to wait, with a timer for now + c after all those that are not later, and the first ready process runs, if any |
| PlainCalls.NewProcessMeans | disastrOS_MessageQueues/disastrOS_spawn.c:13-35 | spawn and fork, field by field: the caller gets the new pid as its return value, and that process is its last child, the last to be ready, and alone in its block |
| PlainCalls.UnimplementedMeans | disastrOS_MessageQueues/disastrOS.c:112-121 | a number that no call has gives its error to the caller and changes nothing else |
| QueueCalls.TargetMeans | disastrOS_MessageQueues/disastrOS_descriptor.c:53-62 | what a scan for an fd finds is the one descriptor of the process that has it |
| QueueCalls.SendMeans | disastrOS_MessageQueues/disastrOS_mq_send.c:11-84 | send to a queue, field by field: while num_msg is less than 10 the message is appended, num_msg is one more, the caller runs on and gets 0; at 10 the caller sleeps, the process that runs next gets the error and the message is dropped |
| QueueCalls.ReceiveMeans | disastrOS_MessageQueues/disastrOS_mq_receive.c:11-84 | receive from a queue, field by field: while num_msg is not 0 the first message is in the second argument of the caller and off the list, num_msg is one less, the caller runs on and gets 0; at 0 the caller sleeps and the process that runs next gets the error |
| QueueCalls.NowhereMeans | disastrOS_MessageQueues/disastrOS_mq_send.c:22-30 | send and receive on an fd that leads nowhere give their errors and change nothing else |
| OpenCalls.OpenResourceCall | disastrOS_MessageQueues/disastrOS_open_resource.c:10-61 | the return value of the caller is its next fd, which then leads to the id while all other fds of all processes stay, or the error code of the first cause that applies; all else that changes is said |
| OpenCalls.MqOpenCall | disastrOS_MessageQueues/disastrOS_mq_open.c:12-56 | the same for mq_open, with DSOS_MQ and with any other type |
| OpenCalls.CloseCall | disastrOS_MessageQueues/disastrOS_close_resource.c:10-33 | close_resource and mq_close return 0 exactly when the fd led somewhere, and then it alone leads nowhere; otherwise the error, and nothing has changed |
| OpenCalls.DestroyCall | disastrOS_MessageQueues/disastrOS_destroy_resource.c:9-29 | destroy returns 0 exactly when the resource is gone from list and map, and otherwise the error for an id that is not listed or is in use |
| OpenCalls.UnlinkCall | disastrOS_MessageQueues/disastrOS_mq_unlink.c:11-32 | unlink likewise, with the queue block and its messages back in their pools |
| DefinedCalls.EnabledWhen | disastrOS_MessageQueues/disastrOS.c:101-139 | exactly when each call is defined, in terms of the fields of the state |
| FamilyKeeps.HeirIsParent | disastrOS_MessageQueues/disastrOS_exit.c:40-48 | whoever a stale parent pointer leads to, only the real parent is ever taken for one that waits for the caller |
| FdTables.FlagMeans | disastrOS_MessageQueues/disastrOS_open_resource.c:22-43 | the tests of the mode are for its bits of weight 1 and 4 |
| BoundedWaiting.StepAdvances | disastrOS_MessageQueues/disastrOS_schedule.c:20-36 | no step raises the number of processes ahead plus pending timers of a ready process, and each schedule lowers it by one or runs the process |
| BoundedWaiting.RunsInTime | disastrOS_MessageQueues/disastrOS_schedule.c:20-36 | in every run a ready process with k others ahead and m timers pending gets the CPU by the (k+m+1)-th schedule, whatever calls come between |
| BoundedWaiting.EveryReadyProcessRuns | disastrOS_MessageQueues/disastrOS_schedule.c:20-36 | 1023 schedules are enough for any ready process in any run |
| BoundedWaiting.PressureBound | disastrOS_MessageQueues/disastrOS_constants.h:3-3 | others ahead plus timers are at most 1022 |
| SleepExactness.AfterSchedule | disastrOS_MessageQueues/disastrOS_schedule.c:20-28 | after every schedule all remaining timers lie strictly in the future |
| SleepExactness.StepTimers | disastrOS_MessageQueues/disastrOS_timer.c:63-78 | only a schedule removes a timer, and exactly when it is due |
| SleepExactness.SleepIsExact | disastrOS_MessageQueues/disastrOS_sleep.c:15-32 | sleep(c) with c >= 1 at time t0: waiting in every later state before t0+c, and ready or running right after the tick that makes t0+c, in every run |
| Wakeups.WaitForAny | disastrOS_MessageQueues/disastrOS_wait.c:22-31 | wait(0) reaps the first zombie child and blocks exactly when there is none |
| Wakeups.WaitForOne | disastrOS_MessageQueues/disastrOS_wait.c:28-30 | wait(pid) looks at pid exactly when it is a child, and otherwise at the last child |
| Wakeups.WaitForStranger | disastrOS_MessageQueues/disastrOS_wait.c:33-41 | for a pid, negative or not, that is no child the announced error comes only to the childless; otherwise the last child is reaped or the caller blocks |
| Wakeups.WaitNoLost | disastrOS_MessageQueues/disastrOS_wait.c:44-65 | wait never leaves its caller blocked with a matching zombie child |
| Wakeups.ExitNoLost | disastrOS_MessageQueues/disastrOS_exit.c:40-58 | exit loses no wakeup if and only if it hands over to init, or leaves init no zombie it waits for (its own orphaned self included) |
| WakeupRuns.StepNoLost | disastrOS_MessageQueues/disastrOS_exit.c:20-58 | among all steps exactly the exits that are not heard lose a wakeup |
| WakeupRuns.NoLostWakeup | disastrOS_MessageQueues/disastrOS_wait.c:22-61 | in every run of heard exits no process is ever blocked in wait with a matching zombie child |
| WakeupRuns.LostOnlyByExit | disastrOS_MessageQueues/disastrOS_exit.c:20-58 | all states of a run are free of lost wakeups if and only if all its exits are heard |
| LostWakeup.WakeupLost | disastrOS_MessageQueues/disastrOS_exit.c:20-45 | nine calls from boot, the last of them an exit, after which init sleeps in wait(0) with a zombie child: the unconditional claim is false of reachable states |
| Deliveries.ExitValueSurvives | disastrOS_MessageQueues/disastrOS_exit.c:16-17 | after exit(v) the value is in the zombie or has been delivered, in every later state of every run, and never twice |
| Deliveries.StepCarries | disastrOS_MessageQueues/disastrOS_wait.c:49-54 | each step keeps every value that is in a zombie or delivered, and exit adds its own |
| Deliveries.DeliveredOnce | disastrOS_MessageQueues/disastrOS_exit.c:54-58 | of all pids ever issued exactly those without a PCB have had their value delivered, each once, by wait or by exit |
| Deliveries.DeliveredToLister | disastrOS_MessageQueues/disastrOS_wait.c:44-53 | reaping appends one delivery: to the caller, which is the parent or, for an orphan, init, of the value that this child exited with; the child then has no PCB |
| Deliveries.HandedToParent | disastrOS_MessageQueues/disastrOS_exit.c:47-58 | an exit that hands over appends one delivery: the exit value, to the parent, at the address that the parent passed to wait |
| Deliveries.StepDelivers | disastrOS_MessageQueues/disastrOS_wait.c:44-55 | no step delivers more than one value; only a wait or an exit does, to the process that lists the child, and with the value of that child |
| Deliveries.HandOversBounded | disastrOS_MessageQueues/disastrOS_exit.c:50-52 | each hand-over costs a pointer block for good: no run from boot has more than 1024, and after that many only one process is left and no spawn is defined |
| QueueHistory.StepFifo | disastrOS_MessageQueues/disastrOS_mq_send.c:75-80 | old contents followed by what a step sends are what it receives followed by the new contents |
| QueueHistory.Fifo | disastrOS_MessageQueues/disastrOS_mq_receive.c:69-80 | over every run in which the queue lives: initial contents then all sends equal all receives then final contents, whoever made them |
| QueueHistory.ReceiverGetsOldest | disastrOS_MessageQueues/disastrOS_mq_receive.c:69-83 | a receive leaves the oldest message in the second argument of its caller and returns 0 |
| QueueCounts.StepLiveExact | disastrOS_MessageQueues/disastrOS_message_queue.c:39-45 | num_msg stays the number of messages of every queue there is through a step if and only if the step does not create a queue on a block whose num_msg is not 0 |
| QueueCounts.RunLiveExact | disastrOS_MessageQueues/disastrOS_message_queue.c:39-45 | the counts of all queues are exact in every state of a run if and only if no mq_open of the run inherited one |
| QueueCounts.StepExact | disastrOS_MessageQueues/disastrOS_message_queue.c:39-45 | where free blocks count too: num_msg stays the number of messages of each queue and 0 in each free block through a step if and only if the step does not unlink a queue that still holds some |
| QueueCounts.StepStale | disastrOS_MessageQueues/disastrOS_message_queue.c:39-45 | a count that is too high stays too high through every step, whatever becomes of the block |
| QueueCounts.RunExact | disastrOS_MessageQueues/disastrOS_mq_send.c:80-80 | over every run queues and free blocks all count right in a state if and only if no unlink before it dropped messages; so a queue can inherit a count only after such an unlink |
| StaleRun.ReceiveCrashes | disastrOS_MessageQueues/disastrOS_mq_receive.c:69-72 | five calls from boot: after the fourth, an unlink, no queue is left to be wrong about; the fifth builds a queue on the block, whose num_msg is 1 and whose list is empty, and a receive would detach a null item |
| QueueCounts.ReceiveIsSafe | disastrOS_MessageQueues/disastrOS_mq_receive.c:37-70 | with the counts of the queues there are exact, receive never detaches from an empty list |
| QueueCounts.StaleCount | disastrOS_MessageQueues/disastrOS_message_queue.c:39-45 | after any such unlink the next mq_open that creates a queue succeeds if a descriptor is left, and its queue is empty but counts the messages that were dropped |
| LostBlocks.StepLoss | disastrOS_MessageQueues/disastrOS_destroy_resource.c:19-28 | exactly the destroys of a queue lose messages and strand a block, namely those of that queue |
| LostBlocks.RunKeepsMessages | disastrOS_MessageQueues/disastrOS_message_queue.c:47-51 | over every run free and queued message blocks make 1024 in a state if and only if they did at the start and no destroy before it hit a queue with messages |
| LostBlocks.RunKeepsQueues | disastrOS_MessageQueues/disastrOS_message_queue.c:39-41 | likewise free queue blocks and queues make 1024 if and only if no destroy before hit a queue |
| LostBlocks.MessageAvailable | disastrOS_MessageQueues/disastrOS_message_queue.c:47-51 | after any run from boot, free blocks, queued messages and those that the destroys of the run lost make 1024; the unchecked Message_alloc succeeds while ten for each queue and the lost ones are fewer |
| LostBlocks.DestroyStrands | disastrOS_MessageQueues/disastrOS_destroy_resource.c:19-28 | a destroyed queue is off the list, and its block is in no queue and no pool, with its messages |
| LostBlocks.StrandedForever | disastrOS_MessageQueues/disastrOS_resource.c:37-41 | such a block stays out of reach with the same messages in every later state of every run |
| LossRun.QueueLeaks | disastrOS_MessageQueues/disastrOS_destroy_resource.c:19-28 | four calls from boot, the last a destroy of a queue with one message: all blocks are accounted for before it, and after it nothing is listed and one message block and one queue block are missing |
| QueueCounts.MadeAccount | disastrOS_MessageQueues/disastrOS_message_queue.c:42-42 | free Resource blocks, plain resources and queues ever made are 1024 in every state: the copied block never comes back |
| QueueCounts.CreationsBounded | disastrOS_MessageQueues/disastrOS_message_queue.c:42-42 | no run from boot creates more than 1024 queues, however many it unlinks |
| BlockedCalls.FullSend | disastrOS_MessageQueues/disastrOS_mq_send.c:39-71 | a send to a full queue drops its message; its code lands in the process that runs next and its own return value is untouched |
| BlockedCalls.EmptyReceive | disastrOS_MessageQueues/disastrOS_mq_receive.c:37-66 | a receive from an empty queue likewise, with its own code |
| Descriptors.EntriesMeanDescriptors | disastrOS_MessageQueues/disastrOS_mq_open.c:42-53 | the entry list of a resource is empty exactly when no descriptor refers to it |
| Descriptors.DestroyWhenUnheld | disastrOS_MessageQueues/disastrOS_destroy_resource.c:19-28 | destroy succeeds if and only if no process holds the resource, provided no descriptor has leaked |
| Descriptors.UnlinkWhenUnheld | disastrOS_MessageQueues/disastrOS_mq_unlink.c:21-31 | unlink likewise |
| FdTables.OpenThenClose | disastrOS_MessageQueues/disastrOS_close_resource.c:14-32 | after a successful open of something that exists, closing the returned fd succeeds and restores everything but last_fd |
| FdTables.OpenResourceThenClose | disastrOS_MessageQueues/disastrOS_open_resource.c:22-60 | the same for open_resource as a whole; a resource that the call created stays |
| FdTables.MqOpenThenClose | disastrOS_MessageQueues/disastrOS_mq_open.c:22-55 | the same for mq_open of a queue |
| Descriptors.StepNoLeak | disastrOS_MessageQueues/disastrOS_wait.c:44-55 | a step leaks descriptors if and only if it is a wait that reaps a zombie still holding some |
| Descriptors.RunNoLeak | disastrOS_MessageQueues/disastrOS_wait.c:44-55 | over every run a state is free of leaked descriptors if and only if no wait before it reaped a holder |
| LeakRun.DescriptorLeaks | disastrOS_MessageQueues/disastrOS_wait.c:44-55 | five calls from boot, the last of them a wait that reaps a child with an open descriptor: nothing leaks before it and something does after |
| Descriptors.LeakIsForever | disastrOS_MessageQueues/disastrOS_destroy_resource.c:19-23 | a leaked descriptor stays in every later state, and its resource can never be destroyed or unlinked again |
| Descriptors.CloseSpends | disastrOS_MessageQueues/disastrOS_close_resource.c:14-20 | close succeeds exactly on the fds the process has open |
| Descriptors.ClosedFdStaysClosed | disastrOS_MessageQueues/disastrOS_open_resource.c:45-51 | a closed fd is never issued to that process again, in any run |
| FdTables.OpenResourceMeans | disastrOS_MessageQueues/disastrOS_open_resource.c:22-60 | which opens succeed, in terms of list, type, mode and pool, and which error the others get; on success, of a new resource too, the new fd leads to it and every other fd of every process leads where it led before the call; on failure only a resource just created stays behind |
| FdTables.MqOpenMeans | disastrOS_MessageQueues/disastrOS_mq_open.c:22-55 | the same for queues |
| FdTables.MqOpenOtherType | disastrOS_MessageQueues/disastrOS_mq_open.c:20-35 | with another type and mode DSOS_CREATE mq_open always reports that the id exists, even when it has just created it; with any other mode it opens it a second time |
| FdTables.CloseMeans | disastrOS_MessageQueues/disastrOS_close_resource.c:14-32 | the closed fd leads nowhere, every other fd of every process leads where it led |
| NoIdle.StepIdles | disastrOS_MessageQueues/disastrOS_sleep.c:26-32 | a step leaves the CPU without a process if and only if it is a sleep with nobody ready |
| NoIdle.RunIdles | disastrOS_MessageQueues/disastrOS_sleep.c:26-32 | a run can only end idle, and does so if and only if its last event is such a sleep |
| NoIdle.NeverIdle | disastrOS_MessageQueues/disastrOS_sleep.c:26-32 | if one process never gives up the CPU then in every run some process runs in every state and another is ready whenever anyone else could block |
| NoIdle.OthersCanBlock | disastrOS_MessageQueues/disastrOS_exit.c:37-48 | with somebody ready every wait is defined, and an exit is if and only if the caller is not init and is not mistaken: its parent pointer does not lead to a new tenant of the block that waits for this pid or any and does not list it |
| OrphanRun.OrphanCannotExit | disastrOS_MessageQueues/disastrOS_exit.c:37-48 | nine calls from boot: a parent dies, its block goes to a new process, and while that one waits for its own child no exit of the orphan is defined |

## Left out

- ucontext, stacks, signal handlers, the interval timer, shutdown, logging and printing: foreign calls; the model has
  the atomic kernel step they lead to.
- Integer width: `disastrOS_time`, pids and fds are mathematical integers, so no overflow is modelled.
- Two exits are not enabled, as the code follows a null pointer: that of init, and that of a process whose parent field
  leads to a stranger that waits for it (`NoIdle.OthersCanBlock`).
- What is left in a freed PCB: a signal sent to one through a parent field is cleared by the next allocation.
- Exhaustion of the PCB, PCBPtr, Resource and queue pools: the code follows the null pointer, so these are conditions
  of `Enabled`, like a ready process for a call that must give up the CPU and dereferences the result. So is a free
  message block; `LostBlocks.MessageAvailable` shows when one is certain.
- PCBPtr blocks: the hand-over at exit loses one each time (`Deliveries.HandOversBounded`).
- Creating a plain resource of type DSOS_MQ, which would pass for a queue, and unlinking, sending to or receiving from
  a plain resource: the code reads memory past the Resource block, so these are not enabled.
- System call numbers out of range: they return an error without entering the kernel. Number 32 passes that test but
  lies past the tables, so it is not enabled.
- The registers of a new PCB are not initialised by the code and are zeros here; fork is modelled like spawn, without
  the stack.
- The store through the result pointer of wait is recorded as a delivery of a value to an address.
- The lists of processes, timers, children and messages are linked on the heap. The lists of descriptors, entries and
  resources are sequences that the class reassigns, so the model does not show the links of those blocks. PCBs are
  named by pid, with the pool block each one got beside it.
- ResourceKernels.ResourceKernel.OpenResource: does not cover creating a plain resource of type DSOS_MQ, as said above.
- ResourceKernels.ResourceKernel.MqUnlink: does not cover the id of a plain resource, as said above.
- KernelMachines.KernelMachine.Syscall: does not cover shutdown, number 32 and the calls on plain resources named above.
- KernelMachines.KernelMachine.InternalExit: the process half of exit runs before the resource half; the source
  interleaves them, and neither half reads the other.
- QueueHistory.Fifo: counts messages queued and taken, not return values of blocked calls, which the code misplaces.
- WakeupRuns.NoLostWakeup: needs every exit to be heard; `WakeupRuns.LostOnlyByExit` shows that it must be so.
- Exclusive opening after the first open: the code checks DSOS_EXCL only when the exclusive opener opens.
- Signals beyond setting their bits.
