# LiziOS kernel: a verified model

LiziOS is a small 32-bit kernel. This project models four of its parts in Dafny 4.11 and proves
what they promise. `dafny verify dfyconfig.toml` checks everything.

**1. Scheduler, semaphore, recursive lock and bounded queue, as one step system.** One CPU, any
number of threads, locks and queues. A stretch with interrupts off is one step; with interrupts
on, every access to shared data is a step of its own, and a clock or keyboard interrupt may come
before it. Each thread has a program counter inside `lock_acquire`, `sema_dowm`, `ioq_getchar`
and so on, and a saved interrupt flag. Every ASSERT and PANIC is an outcome of the step
functions, so "it never fires" is a theorem. `KernelInvariant` states the invariant,
`KernelSteps`, `KernelWakes` and `KernelIo` show what each step keeps, and `KernelSafety` has the
results over all runs: mutual exclusion, no lost wakeup, one place per thread, the queue's
contents. What the history variables say is tied to the actions alone in three modules: `Nesting`
counts how often a thread has called `lock_acquire` and `lock_release`, `QueueTraffic` collects the
bytes of key presses and returned calls, and `InterruptFlag` follows what each thread last passed to
`intr_set_status`. `StepFrame` has what a step leaves alone. `ReaderProgress` and `RoundRobin` add
the two liveness-like results, and `Standoff` shows where progress ends. Until it enables
interrupts, main takes and releases locks too, as it does in `process_execute` (main.c:39).

The C structures and functions themselves are in `SchedulerObject`, `LockObject` and
`QueueObject`: classes whose methods write fields, each proved to do what the step function of
its name says. `KernelObject` puts them together: a `Kernel` owns the scheduler's structures, every
lock and every queue; `Kernel.Step` runs the code at which the running thread stands and is proved
to be the step of the step system; `Kernel.Run` does whole runs, and none of its steps fails.
`KernelPointers` shows that whatever such a step follows a pointer to is there.

**2. The intrusive list**, with real nodes, two sentinels and `prev`/`next` links
(`IntrusiveList`), and the ready list and all waiter lists as such lists, linked through one node
per thread (`ThreadLists`): along every run they hold exactly the sequences of the step system. That
a node is in no list when it is put into one, and no list is empty when it is popped, is what the
invariant says (`ListMoves`).

**3. Page allocator and page tables.** Physical memory is frames of 1024 words, and the page walk
of 32-bit paging (Intel SDM Volume 3A, section 4.3) is a function on them (`Paging`). The
allocator edits the tables only through the recursive self-map, as the kernel does. `Bitmaps` is
the byte-packed bitmap with its first-fit search; `MemoryState` the invariant that ties bitmaps,
page tables, directories and frames together; `MemoryOps` and `BindPage` what each change keeps;
`Allocator` and `Processes` the operations; `Accounting` what kernel allocations cost; `Histories`
arbitrary histories of calls from power-on: a relation between snapshots that says which call
returns and what it does, and the machine doing it; `PoolLayout` and `Boot` the start.

**4. Integer formatting** (`NumberFormat`, `Printf`): `number`, `skip_atoi` and the directive loop
of `vsprintf`, against a specification that reads back, has exact field lengths, and composes.
`Directives` says what every directive prints, from the characters it is written with.

What the proofs found in the code:

- Every entry the kernel writes has the R/W and U/S flags set, so in every reachable state whatever is
  mapped in an address space, the kernel's half included, can be read and written from user mode
  (`MemoryState.MappedPermits`).
- A reader and a writer that block on the same queue can stop each other for good: the reader
  sleeps in its slot holding the queue's lock, on an empty ring, and the writer waits for that lock
  although there is room for its byte (`Standoff.StandoffHappens`). A step leads out of such a state
  if and only if it puts a byte into the queue (`Standoff.StuckStep`); with no other writer nothing
  ever does (`Standoff.StuckForever`). A queue that only the keyboard writes has no such state
  (`ReaderProgress.NoByteWaitsForASleeper`).
- The wait for the CPU is exact, but the clock interrupts it counts can all come if and only if
  everybody ahead in the list gets interrupts back on when dispatched: a thread just woken by
  `sema_up` or by a queue stands at the front with its flag off (`RoundRobin.DispatchedAt`).
- `bitmap_request_bits` asks for one bit only by panicking on a full bitmap (line 45); for n = 1
  it never returns -1 (`Allocator.OneBit`). So with ASSERT enabled the `NULL` branches of
  `paddr_get_page`, of `malloc_pages` for want of frames, and of `get_a_page` (which returns
  without releasing the lock) cannot be reached.
- For n > 1 the search treats the bit behind the bitmap as one more bit of it.
  `Bitmaps.OverrunExactly` says exactly when that changes the answer, and `Bitmaps.OverrunHappens`
  gives a bitmap for which it does. In the kernel's bitmap it cannot be granted, whatever bit lies
  behind it: from boot on the pages in use are a prefix, and a run that stuck out would need a
  frame more than there is (`Histories.KernelStaysInside`). In a user bitmap the bit behind really
  is clear. A run that sticks out there contains the page at 0xc0000000, which is mapped already,
  so the machine halts (`Allocator.Memory.BindPastEnd`); and no such run is found once
  `start_process` has taken the last user page (`Histories.StackPageGuards`).
- After `.*` the format pointer stays on the star: `%.*d` takes its argument, prints `%*` and then
  the `d` as text, whatever the flags and the width (`Printf.DotStarIsMalformed`).
- The pools lie inside memory if and only if there are at least 2 MB, and cover every free page if
  and only if there are at most 65535 of them (`PoolLayout.MemPoolInit`).
- Releasing a lock one does not hold and calling the queue with interrupts on are the only
  misuses that stop the machine at once; nesting a lock 2^32 times is not noticed where it
  happens (`KernelSafety.StepKeeps`).

History variables (`owner`, `depth`, `written`, `read`, `booting` in the step system, `own` in the
allocator) record what happened; no step reads them.

## Model

| member | source | states |
|---|---|---|
| KernelSafety.MutualExclusion | src/kernel/sync.c:15-75 | in every reachable state at most one thread is past `value--` and before `value++` of a lock; the value is 0 exactly when there is one; `holder` names it except in the two hand-over windows; the count is the nesting depth |
| Nesting.SectionsExclude | src/kernel/sync.c:52-75 | mutual exclusion from the calls alone: count for each thread its returned `lock_acquire(l)` minus its begun `lock_release(l)` in the actions of a run; at any moment of any run at most one thread's count is positive, the value is then 0 and `holder` is that thread |
| Nesting.CountIsNesting | src/kernel/sync.c:52-75 | that count is never negative; for a thread outside the kernel's code it is all its acquires minus all its releases, and equals the lock's count if the thread is the holder and 0 otherwise |
| Nesting.HolderNeverWaits | src/kernel/sync.c:53-60 | a thread whose count is positive never stands at or in `sema_dowm` of that lock, nor in its waiter list: acquiring again only counts |
| Nesting.ReleaseInSection | src/kernel/sync.c:66 | wherever a thread may call `lock_release(l)`, the call passes its ASSERT if and only if the thread's acquires of l outnumber its releases |
| InterruptFlag.FlagIsAsked | src/kernel/sync.c:15-40 | in every reachable state each thread's flag (live, stored for it, or kept in `sema_dowm` to be given back) is the one it last passed to `intr_set_status`; without any, off for main and on for every other thread |
| InterruptFlag.StepFlag | src/kernel/thread.c:98-127 | no legal step changes the flag of any thread but the one that sets its own or is started |
| InterruptFlag.CallsGiveFlagBack | src/kernel/sync.c:15-40 | between two moments at which a thread is outside the kernel's code its flag is the same unless it set it itself: `lock_acquire`, `lock_release` and the queue calls give it back across every sleep and preemption |
| StepFrame.StepSpares | src/kernel/thread.c:87-142 | a step does nothing to a thread that is not running but wake or dispatch it, and whoever is dispatched gets its stored flag |
| StepFrame.BlockFrame | src/kernel/sync.c:17-21 | a value of 0: the caller joins the end of the waiter list and another thread runs |
| StepFrame.UpFrame | src/kernel/sync.c:29-40 | `sema_up` makes the thread that has waited longest READY and next to run, and nobody else |
| StepFrame.StartMakes | src/kernel/process.c:96-108 | a started thread is READY at the end of the list, outside all locks and queues, with its whole quantum and interrupts on; nothing else changes |
| KernelSafety.NoWakeupIsLost | src/kernel/sync.c:15-40 | in every reachable state, a lock with value 1 and waiters has a woken thread, not in the waiter list, that is RUNNING or READY and about to test the value again |
| KernelSafety.OnePlace | src/kernel/thread.c:87-142 | every thread that exists is in exactly one of: the CPU, the ready list, one waiter list, one queue slot; RUNNING and READY say which; no list holds a node twice |
| KernelSafety.NoPanic | src/kernel/thread.c:87-142 | no run whose callers keep the rules fails the ASSERTs of thread.c:91, 98, 134 and 137, process.c:104, sync.c:18, 23, 31, 38, 56, 66 and 71, and ioqueue.c:28, 40 and 54 (for 18 and 23 too, which ask for interrupts off as these do): the outcomes in which a step can fail |
| KernelSafety.StepKeeps | src/kernel/sync.c:52-75 | every legal step keeps the invariant; apart from too deep nesting, a step panics if and only if its caller broke a rule |
| KernelSafety.RunKeeps | src/kernel/main.c:41-44 | whole runs of legal steps, with any interrupts, keep the invariant |
| KernelSafety.BoundedQueue | src/kernel/ioqueue.c:13-65 | in every reachable state the bytes written (QueueTraffic.FirstInFirstOut says which these are) are the bytes read followed by the ring's contents, at most 63 of them, and the reader and writer slots are never both taken |
| QueueTraffic.FirstInFirstOut | src/kernel/ioqueue.c:39-65 | over every run from boot: the bytes of the key presses that find fewer than 63 bytes and of the `ioq_putchar` calls, each when it returns, in order, are the bytes the `ioq_getchar` calls return with, in order, followed by what is in the ring |
| QueueTraffic.KeyEnters | src/kernel/keyboard.c:156-159 | a key press with fewer than 63 bytes pending puts exactly its byte behind the others and makes a sleeping reader READY and next to run; with 63 it changes nothing |
| QueueTraffic.CallMoves | src/kernel/ioqueue.c:39-65 | at its loop test a put returns if and only if fewer than 63 bytes are pending, with its byte behind the others and a sleeping reader woken; a get if and only if a byte is, with the oldest gone and a sleeping writer woken; otherwise the call goes for the queue's lock and the queue is unchanged |
| QueueTraffic.StepTraffic | src/kernel/ioqueue.c:39-65 | every legal step changes the bytes and the slots of every queue by exactly the byte it brings or takes |
| KernelSafety.QueueCodeRunsUninterrupted | src/kernel/ioqueue.c:39-65 | a thread inside the queue code has interrupts off whenever it runs, across every sleep |
| KernelSafety.ReachableInv | src/kernel/main.c:20-46 | the invariant holds in every state reachable from boot, main's own locking at boot included |
| KernelSafety.MainFindsItFree | src/kernel/main.c:39-41 | main, locking while it boots the kernel, always finds the lock free, so it never has to sleep |
| KernelSteps.QueuedKeeps | src/kernel/sync.c:17-21 | entering a waiter list and sleeping keeps the invariant: the sleeper is in that list and nowhere else |
| KernelSteps.DownTakeQuiet | src/kernel/sync.c:22-24 | taking the value makes the thread the only one past `value--` |
| KernelWakes.SemaUpKeeps | src/kernel/sync.c:29-40 | `sema_up` by the owner never fails its ASSERTs, keeps the invariant, and leaves a woken thread if there were waiters |
| KernelIo.SlotsFree | src/kernel/ioqueue.c:27-31 | whoever is about to sleep holds the queue's lock, so nobody else sleeps in either slot: the ASSERT on the slot holds |
| KernelIo.IoWaitKeeps | src/kernel/ioqueue.c:27-31 | sleeping in a queue slot keeps the invariant |
| KernelIo.GetTestKeeps | src/kernel/ioqueue.c:40-51 | a reader that finds a byte takes the oldest one and wakes the writer, or goes for the lock, and keeps the invariant |
| KernelIo.PutTestKeeps | src/kernel/ioqueue.c:54-65 | a writer that finds room adds its byte behind the others and wakes the reader, or goes for the lock, and keeps the invariant |
| KernelIo.KeyPressKeeps | src/kernel/keyboard.c:156-159 | the keyboard interrupt never blocks, never panics, and keeps the invariant |
| KernelIo.TickKeeps | src/kernel/timer.c:23-32 | a clock interrupt anywhere interrupts are on keeps the invariant |
| KernelIo.SpawnKeeps | src/kernel/process.c:96-108 | starting a thread keeps the invariant |
| KernelIo.TakeByteOk | src/kernel/ioqueue.c:46-47 | taking a byte across the wraparound keeps written = read + pending |
| KernelIo.AddByteOk | src/kernel/ioqueue.c:60-61 | adding a byte to a queue that is not full keeps written = read + pending |
| KernelInvariant.DispatchKeeps | src/kernel/thread.c:98-106 | once interrupts have been enabled, dispatching the head of the ready list restores the invariant with one RUNNING thread |
| ReaderProgress.NoByteWaitsForASleeper | src/kernel/ioqueue.c:39-65 | over all runs with one reader and only the keyboard writing: a sleeping reader means an empty ring, and nobody ever waits to write |
| ReaderProgress.RunReader | src/kernel/keyboard.c:156-159 | the invariant behind it holds along every such run from any good state |
| ReaderProgress.OwnTestKeeps | src/kernel/ioqueue.c:41-45 | the reader that found the ring empty gets the lock at once and sleeps before any byte can come in |
| Standoff.StuckStep | src/kernel/ioqueue.c:39-65 | with the reader asleep in its slot and a writer waiting for the queue's lock, a legal step ends that situation if and only if it puts a byte into the queue |
| Standoff.StuckForever | src/kernel/ioqueue.c:54-65 | if that writer is the only one, the two stay there along every legal run in which nobody else writes |
| Standoff.StandoffHappens | src/kernel/ioqueue.c:39-65 | a run from boot that keeps every rule leads there, with an empty ring |
| Standoff.StandoffLasts | src/kernel/ioqueue.c:39-65 | both together: a reachable state that every further run without another writer leaves as it is |
| RoundRobin.DispatchedAt | src/kernel/timer.c:23-32 | in every state with one RUNNING thread and a ready list without repetition: after (cur.ticks + 1) + the sum over the first k ready threads of (ticks + 1) clock interrupts the thread at ready index k has the CPU, and after no fewer; and that many can come if and only if interrupts are on now and the first k threads have them on in their stored flags. Nothing is asked of the running thread's stored flag, of thread k or of those behind it |
| RoundRobin.ReachableDispatch | src/kernel/timer.c:23-32 | so it is in every reachable state |
| RoundRobin.RoundRecurs | src/kernel/timer.c:23-32 | with full quanta and all flags on, the whole state recurs after exactly the sum of (priority + 1) interrupts, which is a possible run, each thread having been interrupted priority + 1 times |
| RoundRobin.TicksAreARun | src/kernel/timer.c:23-32 | in every state, n clock interrupts in a row are a run of the step system, and a possible one if and only if interrupts are on at each of them |
| KernelObject.Kernel.Step | src/kernel/sync.c:52-75 | on the structures, for every action and wherever the running thread stands: exactly the step of the step system, failing exactly where that panics; nothing else is written |
| KernelObject.Kernel.Run | src/kernel/main.c:20-46 | whole runs on the structures: no method fails, and the structures go through the states of the step system |
| KernelObject.Kernel.constructor | src/kernel/thread.c:144-149 | the boot state, which satisfies the invariant |
| KernelObject.Kernel.GoLock | src/kernel/sync.c:52-75 | the step inside `lock_acquire` or `lock_release` writes that lock and the scheduler only |
| KernelObject.Kernel.EnterQueue | src/kernel/ioqueue.c:39-65 | the first step of a queue call writes that queue and the scheduler only |
| KernelObject.Kernel.InitLock | src/kernel/sync.c:44-48 | a new lock is free, and the invariant is kept |
| KernelObject.Kernel.InitQueue | src/kernel/ioqueue.c:7-11 | a new queue is empty, its lock free, and the invariant is kept |
| KernelPointers.InvLinked | src/kernel/sync.c:32-36 | under the invariant every waiter and every sleeper in a slot has a control block: what the methods follow pointers to is there |
| KernelPointers.StepKnown | src/kernel/sync.c:52-75 | no step brings a thread to a lock or queue that has not been initialized |
| ListMoves.StepShown | src/kernel/thread.c:87-142 | every step changes the ready list and the waiter lists by at most two appends, pushes or pops, which `Moves` names |
| ListMoves.StepPossible | src/kernel/list.c:33-61 | whenever a node is appended or pushed its thread is in no list at all, and whenever a list is popped it is not empty |
| ListMoves.StepCarries | src/kernel/thread.c:87-142 | both, together with: what enters a list is a thread that exists |
| ThreadLists.Lists.constructor | src/kernel/thread.c:144-149 | an empty ready list, and a node for main in no list |
| ThreadLists.Lists.Insert | src/kernel/list.c:33-42 | append or push on the linked list, all other lists untouched |
| ThreadLists.Lists.Pop | src/kernel/list.c:56-61 | pop on the linked list, all other lists untouched |
| ThreadLists.Lists.Follow | src/kernel/thread.c:87-142 | the list operations of any step, on linked lists with one node per thread: from lists that show the state before to lists that show the state after, and they are the same list and node objects |
| ThreadLists.Lists.FollowRun | src/kernel/thread.c:87-142 | along every legal run from boot on, the same linked lists and nodes show the lists of the step system |
| SchedulerObject.TaskStruct.constructor | src/kernel/thread.c:34-48 | main is RUNNING, any other new thread READY, with a full quantum |
| SchedulerObject.Scheduler.constructor | src/kernel/thread.c:109-149 | main on the CPU, nobody ready, interrupts off |
| SchedulerObject.Scheduler.Dispatch | src/kernel/thread.c:98-106 | in place, for every rest of the machine, the step Dispatch; fails exactly on an empty ready list |
| SchedulerObject.Scheduler.Schedule | src/kernel/thread.c:87-107 | in place, the step Schedule: a RUNNING thread goes to the end of the list with its quantum restored |
| SchedulerObject.Scheduler.ThreadBlock | src/kernel/thread.c:119-127 | in place, the step ThreadBlock, with the interrupt flag saved for the return |
| SchedulerObject.Scheduler.ThreadUnblock | src/kernel/thread.c:131-142 | in place, the step ThreadUnblock: to the front of the ready list, failing exactly for a thread that is not blocked or already there |
| SchedulerObject.Scheduler.ClockInterrupt | src/kernel/timer.c:23-32 | in place, the step ClockTick |
| SchedulerObject.Scheduler.Preempt | src/kernel/timer.c:27-28 | `schedule` called from an interrupt, with the flag saved on entry |
| SchedulerObject.Scheduler.Create | src/kernel/process.c:97-100 | a fresh control block, all others untouched |
| SchedulerObject.Scheduler.Start | src/kernel/process.c:96-108 | in place, the step Spawn: a new thread is never in the ready list before |
| SchedulerObject.Scheduler.Current | src/kernel/thread.c:20-24 | the control block of the running thread |
| SchedulerObject.Scheduler.SetIntr | src/kernel/interrupt.c:143-167 | sets the flag and nothing else, and returns the old one |
| LockObject.LockStruct.constructor | src/kernel/sync.c:44-48 | the state of a lock nobody holds |
| LockObject.LockStruct.TestHolder | src/kernel/sync.c:53 | in place, the step TestHolder |
| LockObject.LockStruct.SemaDown | src/kernel/sync.c:15-17 | in place, interrupts off and then the first pass of the loop |
| LockObject.LockStruct.DownLoop | src/kernel/sync.c:17-24 | in place, one pass: sleep in the waiter list, or take the value |
| LockObject.LockStruct.Enqueue | src/kernel/sync.c:18-21 | in place, for a value of 0: into the waiter list and to sleep |
| LockObject.LockStruct.Take | src/kernel/sync.c:22-24 | in place, the end of `sema_dowm`, for a value that is not 0 |
| LockObject.LockStruct.TakeHold | src/kernel/sync.c:55 | in place, the step TakeHold |
| LockObject.LockStruct.CheckCount | src/kernel/sync.c:56 | in place, the step CheckCount; fails exactly for a count that is not 0 |
| LockObject.LockStruct.SetCount | src/kernel/sync.c:57 | in place, the step SetCount |
| LockObject.LockStruct.CountAgain | src/kernel/sync.c:59 | in place, the step CountAgain, modulo 2^32 |
| LockObject.LockStruct.Release | src/kernel/sync.c:66 | in place, the step Release; fails exactly when the caller is not the holder |
| LockObject.LockStruct.TestCount | src/kernel/sync.c:67 | in place, the step TestCount |
| LockObject.LockStruct.CountLess | src/kernel/sync.c:68-69 | in place, the step CountLess |
| LockObject.LockStruct.CheckLast | src/kernel/sync.c:71 | in place, the step CheckLast; fails exactly for a count that is not 1 |
| LockObject.LockStruct.DropHold | src/kernel/sync.c:72 | in place, the step DropHold |
| LockObject.LockStruct.ZeroCount | src/kernel/sync.c:73 | in place, the step ZeroCount |
| LockObject.LockStruct.SemaUp | src/kernel/sync.c:29-40 | in place, the step SemaUp: wake the first waiter if there is one, value to 1, without handing over |
| LockObject.LockStruct.WakeFirst | src/kernel/sync.c:32-36 | the first waiter leaves the list and is made READY |
| LockObject.LockStruct.Go | src/kernel/sync.c:15-75 | wherever the running thread stands in the code of this lock, its next step |
| LockObject.LockStruct.Give | src/kernel/sync.c:37-39 | in place, the end of `sema_up`; fails exactly when the value was not 0 |
| QueueObject.IoQueueStruct.constructor | src/kernel/ioqueue.c:7-11 | an empty queue with a free lock |
| QueueObject.IoQueueStruct.TakeByte | src/kernel/ioqueue.c:46-47 | on the array, the oldest byte and the advanced tail |
| QueueObject.IoQueueStruct.AddByte | src/kernel/ioqueue.c:60-61 | on the array, the byte stored and the advanced head |
| QueueObject.IoQueueStruct.GetTest | src/kernel/ioqueue.c:40-50 | in place, the step GetTest; fails exactly with interrupts on |
| QueueObject.IoQueueStruct.GetByte | src/kernel/ioqueue.c:46-50 | in place, the end of `ioq_getchar` |
| QueueObject.IoQueueStruct.PutTest | src/kernel/ioqueue.c:54-64 | in place, the step PutTest; fails exactly with interrupts on |
| QueueObject.IoQueueStruct.PutByte | src/kernel/ioqueue.c:60-64 | in place, the end of `ioq_putchar` |
| QueueObject.IoQueueStruct.WakeProducer | src/kernel/ioqueue.c:33-49 | in place, waking the sleeping writer and clearing its slot |
| QueueObject.IoQueueStruct.WakeConsumer | src/kernel/ioqueue.c:33-64 | in place, waking the sleeping reader and clearing its slot |
| QueueObject.IoQueueStruct.AskLock | src/kernel/ioqueue.c:42 | in place, the first test of `lock_acquire` on the queue's own lock |
| QueueObject.IoQueueStruct.Wait | src/kernel/ioqueue.c:27-31 | in place, the step IoWait; fails exactly for a slot already taken |
| QueueObject.IoQueueStruct.Resume | src/kernel/ioqueue.c:44-58 | in place, the start of `lock_release` on the queue's own lock |
| QueueObject.IoQueueStruct.KeyPress | src/kernel/keyboard.c:156-159 | in place, the step KeyPress: a byte for a full queue is dropped |
| IntrusiveList.List.constructor | src/kernel/list.c:5-11 | two linked sentinels and no node |
| IntrusiveList.List.InsertBefore | src/kernel/list.c:14-30 | insertion at any position of the sequence; only the node and its two neighbours are written |
| IntrusiveList.List.Push | src/kernel/list.c:33-36 | insertion at the front |
| IntrusiveList.List.Append | src/kernel/list.c:39-42 | insertion at the end |
| IntrusiveList.List.Remove | src/kernel/list.c:45-53 | deletion at any position; only the two neighbours are written |
| IntrusiveList.List.Pop | src/kernel/list.c:56-61 | the first node, deleted from the list |
| IntrusiveList.List.Find | src/kernel/list.c:64-76 | true exactly for a node of the list |
| IntrusiveList.List.Traversal | src/kernel/list.c:82-100 | the first node the callback accepts, or null when it accepts none |
| IntrusiveList.List.Len | src/kernel/list.c:103-113 | the number of nodes |
| IntrusiveList.List.IsEmpty | src/kernel/list.c:116-119 | true exactly when there is no node |
| IntrusiveList.Move | src/kernel/list.c:14-53 | a node moved from any index of one list to any index of another: both are what they should be, and every list apart from them is unchanged |
| IntrusiveList.WakeFirst | src/kernel/sync.c:33-36 | the first waiter goes to the front of the ready list, as `list_pop` and the `list_push` of `thread_unblock` make it; every other list is unchanged |
| Bitmaps.Bitmap.Init | src/lib/bitmap.c:7-9 | clears the bits of the bitmap and nothing behind it |
| Bitmaps.Bitmap.GetBit | src/lib/bitmap.c:15-19 | the flag at an index |
| Bitmaps.Bitmap.SetBit | src/lib/bitmap.c:25-33 | changes exactly that one bit of the storage |
| Bitmaps.Bitmap.RequestBits | src/lib/bitmap.c:39-78 | the answer of first fit over the bitmap's flags and the bit behind it: PANIC exactly when all are used, else the least start of a clear run, else -1; for n = 0 the place behind the next used bit |
| Bitmaps.Bitmap.FirstByte | src/lib/bitmap.c:40-48 | everything before the byte found is used, and that byte is not full |
| Bitmaps.Bitmap.FirstClear | src/lib/bitmap.c:50-55 | the first clear bit of the bitmap |
| Bitmaps.Bitmap.ScanRuns | src/lib/bitmap.c:60-77 | the counting loop finds the first run of n clear bits, or there is none |
| Bitmaps.FirstFit | src/lib/bitmap.c:39-78 | an independent definition: a clear run, with no clear run before it |
| Bitmaps.Search | src/lib/bitmap.c:39-78 | meets the description of the answer ... |
| Bitmaps.AnswersUnique | src/lib/bitmap.c:39-78 | ... which only one answer does |
| Bitmaps.OverrunExactly | src/lib/bitmap.c:60-66 | the bit behind the bitmap changes the answer if and only if it is clear, no run fits inside, and the last n - 1 bits are clear; then the run ends one bit outside |
| Bitmaps.OverrunHappens | src/lib/bitmap.c:60-66 | a bitmap of 8 bits and a request for 2 for which it does |
| Allocator.OneBit | src/lib/bitmap.c:41-58 | a request for one bit panics if and only if all are used, never answers -1, finds the first clear bit, and does not depend on what lies behind |
| Paging.SelfMap | src/kernel/memory.c:89-103 | in a directory whose entry 1023 is itself, `pde_ptr(v)` and `pte_ptr(v)` walk to exactly v's directory and table words, the latter if and only if there is a table |
| Paging.VaddrToPaddrIsWalk | src/kernel/memory.c:266-270 | `vaddr_to_paddr` is the page walk, for every mapped address |
| PoolLayout.MemPoolInit | src/kernel/memory.c:43-84 | for every memory size: adjacent pools, every bitmap bit a page inside its pool, disjoint bitmaps below main's control block; inside memory iff there are 2 MB; all free pages covered iff at most 65535 |
| Boot.SetupPage | src/boot/loader.asm:228-267 | all kernel directory entries preinstalled, the self-map, an empty user half; the first MB shows at 0 and at 0xc0000000, there for user mode to read and write; nothing else written |
| MemoryState.KernelHalfAgrees | src/kernel/process.c:68-83 | under the invariant all directories have equal entries 768..1022, map themselves, and translate every kernel address alike |
| MemoryState.MappedPermits | src/kernel/memory.c:152-176 | user-mode access as section 4.6 of the Intel SDM has it (R/W and U/S set in both entries of the walk), defined apart from how entries are made: under the invariant an address of any address space is mapped if and only if user mode may read and write it |
| MemoryState.NoFrameShared | src/kernel/memory.c:140-176 | no frame is the target of two page-table entries, none is both mapped and a page table, every mapped frame has its physical bit set |
| MemoryState.PteTarget | src/kernel/memory.c:152-176 | a present entry points to the frame set aside for exactly that page |
| BindPage.UnmarkedUnmapped | src/kernel/memory.c:109-135 | a page whose virtual bit is clear is not mapped |
| Allocator.Memory.constructor | src/kernel/memory.c:273-282 | for any size from 2 MB on, any bit behind the kernel's bitmap and any contents outside the kernel's page tables: the invariant holds, all bitmaps are clear, and the pools have the sizes of mem_pool_init |
| Allocator.Memory.PaddrGetPage | src/kernel/memory.c:140-147 | the first frame of its own pool that is not in use, nobody's before, or a panic exactly when the pool is full |
| Allocator.Memory.BindVaddrPaddrPage | src/kernel/memory.c:152-176 | through the self-map: fails exactly for a page already mapped or a missing table in a full pool; else that page maps to that frame, readable and writable from user mode, one kernel frame is taken exactly for a missing table, and in every address space every other address translates, or is unmapped, as before, but for the window on the tables at 0xffc00000 of the directory in use, where a new table shows |
| Allocator.Memory.BindInNewTable | src/kernel/memory.c:168-175 | the same when the table is missing; fails exactly when the kernel pool is full |
| Allocator.Memory.InstallTable | src/kernel/memory.c:171-174 | the three stores through the self-map hit the directory, the whole new table and its entry |
| Allocator.Memory.VaddrGetPages | src/kernel/memory.c:109-135 | NULL exactly when first fit finds nothing; an address exactly when the run found passes the source's checks: then exactly that run is marked, all of it unmapped |
| Allocator.Memory.PlaceRun | src/kernel/memory.c:116-134 | the same for a run found |
| Allocator.Memory.BindPastEnd | src/kernel/memory.c:161-162 | a user run that sticks out of the bitmap reaches a page that is mapped already: the machine halts in any case |
| Allocator.Memory.BindRange | src/kernel/memory.c:196-204 | succeeds exactly when the range ends where it may and the pools can pay, and then takes exactly the frames of the range and one per empty directory slot it touches |
| Allocator.Memory.MallocPages | src/kernel/memory.c:185-208 | for every argument, every thread and every bitmap: exactly when it returns NULL, halts or succeeds; a success is the first free run, contiguous, unmapped before, now mapped to new distinct frames of the right pool, zeroed, readable and writable from user mode; in every address space every address outside the run (and outside the window on its tables) translates, or is unmapped, as before; exact frame counts |
| Allocator.Memory.GetAPage | src/kernel/memory.c:234-261 | exactly when it succeeds; then that page is mapped to a new frame, readable and writable from user mode, all old translations are kept, and the counts are exact |
| Allocator.Memory.TakePage | src/kernel/memory.c:254-258 | the frame and mapping part of it |
| Accounting.KernelRangeCost | src/boot/loader.asm:255-266 | a kernel range of n pages costs exactly n frames and no table, in every reachable memory and address space |
| Accounting.KernelGrants | src/kernel/memory.c:185-208 | a kernel allocation is granted if and only if n < 3840, first fit finds a run and n frames are left |
| Processes.CopyKernelHalf | src/kernel/process.c:76-77 | the upper quarter of the current directory, read through the self-map, is copied and nothing else written |
| Processes.CreatePageDir | src/kernel/process.c:68-83 | succeeds exactly when one kernel page is granted; the page is a directory with an empty user half, the kernel's entries and itself at 1023, whatever it maps open to user mode; old translations kept |
| Processes.ProcessExecute | src/kernel/process.c:85-101 | succeeds if and only if runs of 1, 23 and 1 pages are found one after the other and 25 frames are left; then exactly these are taken, and there is a new process with an empty bitmap beside the unchanged old ones |
| Processes.PageDirActivate | src/kernel/process.c:48-59 | the directory is found from whatever address space is in use, and cr3 gets the right one |
| Histories.OneCall | src/kernel/memory.c:185-261 | a call returns if and only if `Returns` says so of the state it finds, and does what `Does` says: which bits are set, how many frames are taken, which pages become mapped, and that no other address of any address space is concerned, NULL included |
| Histories.AnyHistory | src/kernel/memory.c:185-261 | any sequence of allocations, get_a_page, process creations and switches goes through the states of a history, up to the first call that does not return; which one that is follows from the state before it |
| Histories.HistoryKeeps | src/kernel/memory.c:152-176 | every translation of every address space is kept from any state of a history to any later one |
| Histories.HistoryPermits | src/kernel/memory.c:152-176 | whatever is mapped in an address space in some state of a history, user mode may read and write in that state and in every later one |
| Histories.HistoryIsolates | src/kernel/memory.c:152-176 | isolation along every history: what a process has below 0xc0000000, mapped or not, stays the same as long as only others run, whatever they allocate and however many processes are created |
| Histories.HistoryAgrees | src/kernel/process.c:68-83 | in every state of a history all directories map themselves and translate every kernel address alike |
| Histories.HistoryAccounts | src/kernel/memory.c:140-147 | in every state of a history the clear bits gone from each pool are the sum of what the calls cost, each computed on the page tables it found |
| Histories.KernelStaysInside | src/lib/bitmap.c:60-66 | along every history without get_a_page for the kernel the bits used in the kernel's bitmap are a prefix, no granted run sticks out of it, and the bit behind it stays as it was |
| Histories.StackPageGuards | src/kernel/process.c:32-33 | once a process has its stack page, in every later state no run found in its bitmap sticks out of user space |
| Histories.FromBoot | src/kernel/memory.c:273-282 | all of it from power-on: the history starts with one address space, clear bitmaps and pools of the sizes of mem_pool_init |
| NumberFormat.ReadBack | src/lib/vsprintf.c:108-116 | reading the digits of n in base b gives n, for every n and every b from 2 to 36 |
| NumberFormat.NoLeadingZero | src/lib/vsprintf.c:108-116 | the digits start with 0 only for 0, which is "0" |
| NumberFormat.FitsTmp | src/lib/vsprintf.c:38 | at most 32 of the 36 cells of `tmp` are used |
| NumberFormat.FieldLength | src/lib/vsprintf.c:64-169 | the output is max(size, sign + prefix + max(digits, precision)) characters long, for all flags, sizes and precisions |
| NumberFormat.FieldReadsBack | src/lib/vsprintf.c:44-169 | spaces on one side only, sign, prefix, and a body that reads back as the magnitude, with the sign as the 32-bit value |
| NumberFormat.FieldShows | src/lib/vsprintf.c:44-169 | the field character by character: "-" for a negative number, else "+" or " " if asked for; "0", "0x" or "0X" if asked for; a numeral of n in the base and in one case without leading zero; zeros up to the precision; filled up to the width with spaces behind, zeros behind the prefix or spaces in front as the flags say |
| NumberFormat.Number | src/lib/vsprintf.c:32-170 | the loops, whose counters run below zero, produce exactly that field; null exactly for a bad base |
| NumberFormat.FillTmp | src/lib/vsprintf.c:108-116 | the digits in reverse order, from cell 0 on |
| NumberFormat.Compose | src/lib/vsprintf.c:125-169 | the field from the digits and the rest of the width |
| NumberFormat.SkipAtoi | src/lib/vsprintf.c:18-23 | the value of the leading digits and the position behind them; no intermediate exceeds the value + 48 |
| NumberFormat.AtoiOfDecimal | src/lib/vsprintf.c:18-23 | `skip_atoi` undoes unpadded decimal output, whatever follows it |
| Printf.ParseLocal | src/lib/vsprintf.c:203-276 | a complete directive parses the same whatever format and arguments follow |
| Printf.DotStarIsMalformed | src/lib/vsprintf.c:255-269 | for any flags, any width, any rest: a directive with `.*` takes its argument, `%*` is printed, and the rest is formatted as if it stood alone |
| Printf.FieldsPadded | src/lib/vsprintf.c:281-318 | `%c` and `%s` fields are max(width, contents) long, with the (cut) contents at the left or right end |
| Printf.FormatAppend | src/lib/vsprintf.c:193-416 | formatting a concatenation is the concatenation of what is formatted, the second part with the arguments the first leaves |
| Printf.DoublingReproduces | src/lib/vsprintf.c:399-405 | a string with every `%` doubled is reproduced, and no argument is taken |
| Directives.FlagMeaning | src/lib/vsprintf.c:203-228 | `-` sets left, `+` plus, space space, `#` special, `0` zero padding, in any order and number, and nothing else |
| Directives.DirectiveParsed | src/lib/vsprintf.c:203-276 | a directive of any flags, no width or one in decimal or one from the arguments (a negative one meaning left), no precision, one in decimal or a dot alone (0), any qualifier and conversion is read as exactly those |
| Directives.IntegerDirective | src/lib/vsprintf.c:203-376 | what such a directive prints: `%d` and `%i` the 32-bit value with its sign in base 10, `%u` base 10, `%b` 2, `%o` 8 with prefix "0" for `#`, `%x` 16 in lower case with "0x", `%X` and `%p` 16 in upper case with "0X", `%p` without a width 8 wide and zero padded; formatting goes on behind it with the arguments left |
| Directives.CharDirective | src/lib/vsprintf.c:281-293 | `%c` prints the low byte of its argument in a field of spaces |
| Directives.StringDirective | src/lib/vsprintf.c:296-318 | `%s` prints its string, cut to the precision, in a field of spaces |
| Directives.LiteralDirective | src/lib/vsprintf.c:399-411 | any other character but n, f, m and r is printed behind a percent sign, and a percent sign once, without taking an argument |
| Printf.ReadFlags | src/lib/vsprintf.c:203-228 | the loop reads all leading flag characters |
| Printf.ReadWidth | src/lib/vsprintf.c:230-249 | the width of the specification, a negative argument meaning left |
| Printf.ReadPrecision | src/lib/vsprintf.c:251-269 | the precision of the specification |
| Printf.ReadDirective | src/lib/vsprintf.c:200-276 | the directive of the specification |
| Printf.WriteChar | src/lib/vsprintf.c:281-293 | the character in a field of the width, with the counter running below zero |
| Printf.WriteString | src/lib/vsprintf.c:296-318 | the string cut to the precision in a field of the width |
| Printf.WriteInteger | src/lib/vsprintf.c:321-376 | the field of `number` with the base and flags of the conversion |
| Printf.WriteConversion | src/lib/vsprintf.c:279-411 | what the directive's conversion writes, malformed directives included |
| Printf.Vsprintf | src/lib/vsprintf.c:172-421 | the loop writes what the specification says, or fails the final ASSERT exactly for 1024 characters or more |

## Left out

- Port I/O, PIC and PIT programming, IDT, GDT and TSS, screen output, the console: hardware plumbing.
- `switch_to`, `intr_exit` and the stack frames of `thread_create` and `start_process`: a switch changes the running thread and restores its saved program counter and interrupt flag.
- `process_activate` inside `schedule`: address-space switches are operations of the memory model, the scheduler model has no page tables.
- Boot disk reads, E820 detection and ELF loading: total memory is a parameter.
- The keyboard's scancode table and modifier keys: the keyboard is a source of bytes.
- string.c beyond the effect of `memset`, `memcpy` and `strlen`.
- Progress when the queue's writer may block: the code does not guarantee it, as Standoff.StandoffHappens shows; fairness of the lock and starvation by threads pushed to the front are not treated.
- Thread exit, TASK_WAITING and TASK_HANGING, `thread_all_list`, `stack_magic`: nothing in the modelled code depends on them.
- `thread_start`'s ready-list check with interrupts on: only `process_execute`'s, made with interrupts off, is modelled.
- The locks around the allocator: the allocator runs one call at a time; the lock itself is part 1.
- Ready and waiter lists in the scheduler and lock classes are sequences; `ThreadLists` runs the same list operations beside them on linked nodes.
- The bit a get_a_page for an address outside the bitmap sets somewhere else in memory.
- Memory contents of bitmaps and control blocks: the allocator's bitmaps are flag sequences, as `Bitmaps` shows the bytes to be.
- The accessed and dirty bits the processor sets in entries: MemoryState compares directory entries as whole words, where on the machine they agree in everything but these bits.
- Kernel page tables beyond the first 256 entries, which the loader does not clear, are taken to be empty at boot.
- KernelSafety.NoPanic: the ASSERTs of thread.c:79, 81, 113 and 120 and process.c:62 and 106 are no outcomes of any step: they concern `thread_start`, `thread_all_list`, arguments that are constants, and `process_activate`; nor is that of ioqueue.c:34, whose callers test the same first.
- KernelSafety.StepKeeps: says nothing of what follows after a lock has been nested 2^32 times; such an acquire is not legal.
- Allocator.Memory.GetAPage: only for pages the bitmap covers, because the source sets a bit outside it otherwise.
- Allocator.Memory.BindVaddrPaddrPage: only for pages that are mapped already or are set aside for the frame, as all its callers pass.
- Histories.OneCall: get_a_page only for pages the bitmap covers, as in Allocator.Memory.GetAPage.
- Histories.AnyHistory: says nothing of the call that does not return, because the machine halts, or, in `process_execute`, the source goes on to use NULL.
- KernelObject.Kernel.Step: locks and queues are initialized before their first use, and a new thread has a new control block.
- Printf.ReadWidth: integers are unbounded; a width of 2^31 or more, which overflows the C int, is not modelled as overflowing.
- Printf.ReadPrecision: the same for the precision.
- Printf.WriteConversion: `%n`, `%f`, `%m` and `%r` have no specified result, because they take pointers or floating point.
- Printf.Vsprintf: nothing is said of a format that uses one of them.
- Boot.SetupPage: the directory is cleared word by word, the loader does it byte by byte.
- Processes.ProcessExecute: on failure nothing is said, because the source goes on to use NULL.
