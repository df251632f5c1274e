# GunwOS in Dafny

GunwOS is a small preemptive kernel for the 80386. It is a set of fixed tables that system calls, interrupts and deferred
tasks change in turn. This project models those tables and what each kernel function does to them, and proves what holds
over whole runs. It also models the paging, the FAT12 file loading, the clock and the text routines that the kernel uses.

`OOPS` stops the machine for good. It is modelled as a halt with a reason, and much of what is proved is that a halt cannot
be reached.

## How it is laid out

| files | contents |
|---|---|
| `KernelState` | process table, scheduler, deferred tasks, run loops, IPC listeners, reply tokens, bindings and devices; a function for each C function that changes them; the steps of the machine |
| `KernelInvariant`, `KernelSteps`, `KernelCalls`, `KernelTasks`, `KernelRuns` | the invariant, and that every step of every run keeps it |
| `KernelTheorems`, `KernelEffects`, `KernelFairness`, `KernelMail`, `KernelRoom`, `KernelNotices`, `KernelBindings` | the properties of the kernel, for all states that runs from boot reach, and for whole runs: slots, tokens, events, turns, messages, room in the queue, refused notices, permissions |
| `KernelServices`, `KernelReplies`, `KernelPromises`, `KernelEndings`, `KernelTables`, `KernelDuties` | what each call, interrupt and task does for the processes, told by the tables before and after: requests and replies, device events, waiting, registration, devices, the end of a process |
| `KernelWaits`, `KernelSlices`, `KernelListeners`, `KernelRights`, `KernelHalts` | over whole runs: nobody runs before what it waits for is there, time slices end, who listens, who may write to whom, and when exactly the machine halts |
| `KernelPieces`, `KernelExamples` | runs put together from pieces, and some that show what can happen and what the kernel does not promise |
| `KernelMachine` | a class whose arrays are updated in place by the kernel's loops; each method refines its function in `KernelState`, and whole runs refine whole runs |
| `TaskQueue`, `RunLoopSpec`, `RunLoopRing`, `RunLoopOrder`, `KernelParts` | the linked queue and the ring of slots, and that they do what the kernel's tables do, which keep them as sequences |
| `IpcPath`, `Text`, `Numbers`, `Clock` | path validation and lookup, C strings, printing and parsing integers, the millisecond clock |
| `PagingState`, `PagingProofs`, `PagingTheorems`, `PagingMachine`, `MemoryMap` | frames, page directories and tables; the BIOS memory map in wrapping arithmetic |
| `KernelMemory` | kernel and paging in one machine, over whole runs |
| `Fat12`, `Volume`, `FileLoader` | header, cluster links, byte ranges of a drive, the loader |
| `Outcomes`, `Words`, `Arithmetic`, `Counting` | result types, number sizes, and a few facts about products, quotients and finite sets |

`dafny verify dfyconfig.toml` checks everything.

## What a run is

A step of the kernel model is one of these: a program started at boot before the queue runs; the start of the queue; a
system call of the running process up to the end of its handler; the timer interrupt, a device interrupt or any other
interrupt up to the end of its handler; the end of an interrupt; running the task at the head of the queue; popping the head;
handing the processor over when nothing is queued; the return of `k_proc_switch` into the kernel. Each C function is one
atomic step. Interrupts may come between running the head and popping it, and between the return of `k_proc_switch` and the
statement after it. A run is any sequence of steps from boot. Table sizes are parameters, with no fewer reply tokens than
processes (the source has 8 and 5). The history of a run is kept in two records that no kernel function reads: `log` has the spawns,
grants, messages over bindings and switches, `mail` what went into the run loops and came out.

## What came out about the code

- Clean reuse of process slots rests on three things together: the queue is first in, first out; `bye` queues the cleanups in
  that order before `k_proc_stop` queues the last one; and a user process runs only with an empty queue, so that there is never
  more than one finished process.
- A slot is not quite clean when it is reused: `k_runloop_procCleanup` empties the run loop of the process that ended, but the
  run loops of others may still hold its messages, which then pass for messages of the new process. `KernelMail` has the exact
  condition, and `KernelExamples` a run.
- The branch of `k_ipc_procCleanup` for a terminated sender (`src/system/kernel/ipc/ipc.c:68-75`) is never taken: a process
  that owns a token is blocked and cannot end.
- `k_proc_schedule_intNeedsKernelHandling` passes the selected process where the current one is meant. They are always equal
  when it matters.
- Round robin is fair by hand-overs, not by turns. The kernel gives the processor back to the same process without an
  evaluation when none was queued, with a new time slice (`src/system/kernel/schedule/schedule.c:55`), so a ready process can be
  passed over any number of times (`KernelExamples.BypassHasNoBound`). The processor changes hands exactly if an evaluation was
  run since the last turn (`KernelFairness.HandsChangeIffEvaluated`); where every stay in the kernel runs one, turns are bounded
  too.
- Preemption works all the same: a process that keeps the processor for a whole time slice has to give it up if another one is
  ready (`KernelSlices.SlicePreempts`). A process can only keep it by going into the kernel before its slice ends.
- A sender whose message arrived waits for its reply safely: nothing but an accepted reply of the handler, or the end of the handler, lets it go
  (`KernelEndings.RequestEndsIff`), and the token that it waits with is the one in its message
  (`KernelWaits.TokensCameWithMessages`).
- The task queue cannot overflow with the sizes of the source: at most nine tasks for each of 5 processes and five more are
  ever needed, and there is room for 64.
- A process that does not empty its run loop can stop the machine: a notice about a destroyed binding that finds the run loop
  full halts it (`src/system/kernel/ipc/binding.c:103-111`). `KernelNotices` has the exact condition.
- No frame is lost or shared in any run of kernel and paging together, and a process that is gone has none.
- A range of pages may start at page 0, but page 0 cannot be released on its own
  (`src/system/kernel/hal/paging/paging.c:504-506`).
- A reservation in the memory map whose end is rounded up to exactly 4 GiB is passed over
  (`src/system/kernel/hal/paging/paging.c:265-270`).
- The header check of FAT12 accepts volumes with hidden sectors whose last clusters have their links outside the table; without
  hidden sectors it is sound.
- `fatVerify` compares the copies of the table as texts, so only up to the first zero byte, and only the first two copies; a
  volume with a single table is detected, but no file of it can be loaded.
- The range checks of the run loop and of `releaseVirtualPage` accept one value too many
  (`src/system/kernel/runloop/runloop.c:72`, `src/system/kernel/hal/paging/paging.c:147-162`). No caller passes it.

## Model

| member | source | states |
|---|---|---|
| `KernelTheorems.SlotsAreReusedClean` | src/system/kernel/hal/proc/proc.c:91-129 | In every run, when a process identifier is handed out no table names it - no listener, reply token, binding, held device or queued task - and its own run loop and memory are empty. What the run loops of other processes hold is the subject of the next three rows. |
| `KernelMail.ReusedSlotIsNamedIffUncollected` | src/system/kernel/runloop/runloop.c:232-238 | The exact condition for the rest: when an identifier is handed out, the run loop of a process holds a message that names it as the sender exactly if its former owner delivered one there, in the current life of that process, that has not been collected. |
| `KernelExamples.ReusedSlotCanBeNamed` | src/system/kernel/runloop/runloop.c:232-238 | A run from boot at the end of which the identifier of a process that has ended is handed out again while another run loop holds a message of that process. |
| `KernelMail.RunLoopsHoldTheUncollected` | src/system/kernel/runloop/runloop.c:86-222 | In every run, every run loop holds exactly the messages that were delivered to its process in its current life and not collected, in the order of delivery; so a message from p waits in the run loop of q exactly if such a delivery is in the record. |
| `KernelMail.StepKeepsMail` | src/system/kernel/hal/proc/proc.c:431-485 | Every step of the machine keeps run loops and record in agreement: deliveries, collections, the start of a process and the emptying of its run loop. |
| `KernelTasks.SpawnedSlotIsClean` | src/system/kernel/hal/proc/proc.c:98-112 | The same from the invariant: no table names the lowest empty slot, and none does as it becomes a new process. |
| `KernelTheorems.CleanupIsInOrder` | src/system/kernel/syscall/usr/bye.c:14-19 | At most one process is finished at a time, its last task is still queued, and each table is free of it once the task that cleans the table has run. |
| `KernelCalls.ByeKeeps` | src/system/kernel/syscall/usr/bye.c:14-19 | Queueing the four termination tasks in this order keeps the invariant, of which it is part that what is left of them is at the front of the queue. |
| `KernelTasks.CleanIpcKeeps` | src/system/kernel/ipc/ipc.c:54-78 | The IPC cleanup keeps the invariant and leaves no listener, token or binding of the process; unless the queue fills first it halts exactly if some process that listens for destroyed bindings has fewer free places in its run loop than notices to come. |
| `KernelTasks.TokenOfFinished` | src/system/kernel/ipc/ipc.c:68-75 | A finished process owns no reply token, so the branch of the cleanup for a terminated sender is never taken. |
| `KernelTasks.CleanupProcKeeps` | src/system/kernel/hal/proc/proc.c:197-207 | The last termination task never halts, empties the slot and its mappings, and leaves a slot that no table names. |
| `KernelTheorems.OneRunner` | src/system/kernel/hal/proc/proc.c:251-254 | Between interrupts exactly one of the kernel and one process is running; a process runs only with an empty queue, no lock, and as the selected one. |
| `KernelTheorems.SelectionIsSound` | src/system/kernel/schedule/schedule.c:26-42 | With the queue drained, the selected process is ready and not locked, or there is none and no process is ready. |
| `KernelTheorems.SwitchesNeverHalt` | src/system/kernel/hal/proc/proc.c:234-249 | No guard of the context switch can fire, in either direction (see also lines 324-344). |
| `KernelRuns.IsrEndKeeps` | src/system/kernel/hal/isr/isr.c:69-78 | Leaving the last interrupt keeps the invariant and never halts, though it passes the selected process instead of the current one. |
| `KernelRuns.IdleKeeps` | src/system/kernel/schedule/schedule.c:48-58 | Handing the processor over with an empty queue keeps the invariant and never halts. |
| `KernelTheorems.LastIsLastSwitched` | src/system/kernel/schedule/schedule.c:56-57 | Whenever a task runs, the process that round robin starts after is the one that had the processor last, though it is noted only after the switch returns. |
| `KernelTheorems.SelectionIsNearest` | src/system/kernel/schedule/schedule.c:26-38 | The loop selects the ready process with the smallest distance (p - last - 1) modulo the table size. |
| `KernelTheorems.EveryTurnBringsCloser` | src/system/kernel/schedule/schedule.c:26-42 | A ready process gets strictly closer with every turn another process is selected for. |
| `KernelTheorems.BoundedBypass` | src/system/kernel/schedule/schedule.c:26-42 | A process that is ready at every evaluation is selected within as many turns as its distance allows, which is less than the table size. |
| `KernelFairness.ReadyProcessIsNotPassedOver` | src/system/kernel/schedule/schedule.c:40-58 | Over whole runs: while a process stays ready, the processor goes to another process at most as often as there are slots, and fewer times once an evaluation has seen it ready. |
| `KernelFairness.StepLowersBound` | src/system/kernel/schedule/schedule.c:48-58 | No step of the machine raises the number of hand-overs that a ready process still has to wait for, and each hand-over lowers it. |
| `KernelExamples.ReadyProcessCanBePassedOver` | src/system/kernel/schedule/schedule.c:48-58 | Fairness by turns is false: whenever one process runs and another is ready, the one that runs can be given the processor any number of times in a row while the other stays ready. |
| `KernelExamples.BypassHasNoBound` | src/system/kernel/schedule/schedule.c:48-58 | For every k, a run from boot in which a process is ready all the time and another one is given the processor k times in a row. |
| `KernelFairness.HandsChangeIffEvaluated` | src/system/kernel/schedule/schedule.c:40-71 | The exact condition: from one turn to the next, while a process is ready all the time, the processor goes to another process exactly if an evaluation was run in between; starting a program does not change who is selected then. |
| `KernelFairness.TurnsAreBoundedIfEvaluated` | src/system/kernel/schedule/schedule.c:40-58 | If every stay in the kernel runs an evaluation, a process that is ready all the time waits for at most as many turns, of whichever processes, as there are slots. |
| `KernelFairness.TurnsAreChanges` | src/system/kernel/schedule/schedule.c:40-58 | The step behind it: then every turn is a change of hands. |
| `KernelSlices.SlicesEnd` | src/system/kernel/schedule/schedule.c:82-92 | In every run, from one hand-over on: while a process runs, the ticks since then are what is counted and fewer than a time slice; once there were as many as a slice has, the kernel has run an evaluation or has one queued. |
| `KernelSlices.SlicePreempts` | src/system/kernel/schedule/schedule.c:40-58 | So, after a time slice during which another process was ready all the time, the next hand-over is to another process. |
| `KernelSlices.TickEndsSliceIff` | src/system/kernel/schedule/schedule.c:82-92 | A tick interrupts the process that runs exactly when it fills the time slice. |
| `KernelDuties.YieldPassesOn` | src/system/kernel/hal/syscall/usrfunc.c:362-367 | Yielding, when nothing comes in between, gives the processor to the nearest ready process round, and back to the caller only if no other is ready. |
| `KernelTheorems.TokenOwnersWait` | src/system/kernel/ipc/delivery.c:144-166 | Every outstanding reply token belongs to a process of its own, which is blocked with its IPC lock. |
| `KernelTheorems.SenderFindsToken` | src/system/kernel/ipc/delivery.c:152-155 | With at least as many tokens as processes, a sender always finds a free one: the reply table is never full. |
| `KernelSteps.TokenLeft` | src/system/kernel/ipc/delivery.c:18-26 | The counting behind it: distinct waiting owners leave a token free when one process is not waiting. |
| `KernelTheorems.NoStrandedSender` | src/system/kernel/ipc/delivery.c:71-75 | Whenever a process has its IPC lock, it is blocked, and it owns a token whose handler is alive or has its IPC cleanup queued, or its unlocking is queued. |
| `KernelTheorems.AnswerEndsTheWait` | src/system/kernel/ipc/utility.c:95-113 | Clearing a token and unlocking its sender, as a reply and a failed reply do, really removes the IPC lock; only a full queue can stop it. |
| `KernelReplies.ReplyLetsSenderGo` | src/system/kernel/ipc/reply.c:18-92 | In every run a reply is accepted exactly if it answers, with the size asked for, a message that the caller still has to answer, and its request about a binding can be granted: then its token becomes free and the sender goes on, unless it waits for an event too; otherwise nothing changes. The caller is told which. |
| `KernelReplies.MessageGetsThrough` | src/system/kernel/ipc/delivery.c:89-195 | In every run the first listener on the path, if the sender may write to it, gets the message exactly if there is room: last in its run loop, with the token that the sender waits for, if it asks for a reply, and that was free before. The receiver wakes, and the request about a binding is granted if it can be. Otherwise nobody gets anything, and a sender that asked for a reply is let go by a queued task. The sender is told which. |
| `KernelEndings.RequestEndsIff` | src/system/kernel/ipc/utility.c:95-113 | In every run a request stays open and its sender blocked for it, with any step of the machine, exactly until its handler accepts to answer it or the IPC cleanup of its handler runs. |
| `KernelWaits.NobodyRunsUnanswered` | src/system/kernel/ipc/delivery.c:152-163 | Over whole runs: a process that waits for a reply is not given the processor before its handler has answered or is gone. |
| `KernelWaits.TokensCameWithMessages` | src/system/kernel/ipc/delivery.c:137-168 | In every run each outstanding token is the one that a message of its owner carried into the run loop of its handler, in the current lives of both. |
| `KernelEndings.EndIsSettled` | src/system/kernel/ipc/ipc.c:54-78 | The IPC cleanup of a process clears the listeners, tokens and bindings that name it and no others; it lets exactly those go who waited for a reply of it, and tells exactly those who listen for destroyed bindings, once for each binding that the process sent over. |
| `KernelTheorems.NoLostWakeUp` | src/system/kernel/syscall/usr/waitforevent.c:12-18 | Whenever a process has its event lock, its run loop is empty, whatever deliveries, device events and deferred waits have interleaved. |
| `KernelPromises.WaitingBlocksIffIdle` | src/system/kernel/syscall/usr/waitforevent.c:12-18 | In every run, when the queue gets to a request to wait, the process is blocked with its event lock exactly if its run loop is empty, with an evaluation queued if it was not blocked before; otherwise no process changes. |
| `KernelDuties.CallerWaitsIffIdle` | src/system/kernel/hal/syscall/usrfunc.c:91-94 | The whole system call from its caller on, when nothing comes in between: the caller is blocked exactly if nothing is in its run loop. |
| `KernelWaits.NobodyRunsUnheard` | src/system/kernel/syscall/usr/waitforevent.c:12-18 | Over whole runs: a process that waits for events stays blocked and is not given the processor until something is delivered to it. |
| `KernelExamples.ProcessCanWait` | src/system/kernel/syscall/usr/waitforevent.c:12-18 | A run from boot at the end of which a process waits for events. |
| `KernelPromises.EventGetsThrough` | src/system/kernel/dev/dev.c:429-472 | In every run an event of a started device arrives, last in the run loop of its holder, exactly if the holder listens, is alive and has room; the holder wakes with an evaluation queued. Otherwise nothing changes. |
| `KernelPromises.DeviceChangesHands` | src/system/kernel/dev/dev.c:228-260 | In every run a device changes hands with a step only so: from nobody to a caller that asks for it, or to nobody by its holder or by the cleanup of its holder; and only the holder of a started device starts to listen. |
| `KernelPromises.HoldResults` | src/system/kernel/dev/dev.c:327-350 | What the callers of these functions are told, by the state of the device. |
| `KernelTheorems.BoundMessagesAreAuthorized` | src/system/kernel/ipc/delivery.c:126-135 | In every run, each message to a listener that requires a binding was preceded by a grant from the owner to the sender, in the current lives of both, with all the permissions of the listener. |
| `KernelBindings.MessagesGoOverBindings` | src/system/kernel/ipc/delivery.c:126-135 | At the moment of such a message a binding of that pair exists with all those permissions, and it is one that the owner granted in the current lives of both. |
| `KernelRights.RightHolds` | src/system/kernel/ipc/binding.c:53-137 | Over whole runs: the permissions of the binding that counts for a pair stay as they are until the process written to changes them or one of the two ends. |
| `KernelRights.UpdatedRightHolds` | src/system/kernel/ipc/binding.c:79-87 | So do permissions set by an update, which the binding that counts then has. |
| `KernelRights.IncludesEveryBit` | src/system/kernel/ipc/delivery.c:132-134 | Permissions include a mask exactly if they have every bit of it. |
| `KernelPromises.RegistersIff` | src/system/kernel/ipc/registration.c:39-113 | In every run a process becomes a listener, in a free entry, exactly if its request is complete, it hears of destroyed bindings when it asks for any, and no listener has a path that begins with its global path; otherwise nothing changes. |
| `KernelListeners.ListenersAreWellListed` | src/system/kernel/ipc/registration.c:83-97 | Over whole runs: no two listeners share a global path, and whose listener asks for bindings hears of destroyed ones. |
| `KernelDuties.OldestIsCollected` | src/system/kernel/runloop/runloop.c:160-222 | Taking an item and its data, when nothing comes in between, removes the oldest message of the caller and nothing else. |
| `KernelDuties.ProgramIsStarted` | src/system/kernel/syscall/usr/start.c:170-289 | A program that can be loaded becomes a ready process in the lowest empty slot, with its pages, if there is one. |
| `KernelDuties.EndingIsQueued` | src/system/kernel/syscall/usr/bye.c:14-19 | A process that ends, by itself or for an error, is finished, with its four cleanup tasks and an evaluation queued in this order. |
| `KernelRoom.RunsHaltOnlyWithExcuse` | src/system/kernel/error/panic.h:14-18 | From boot, a run halts only for a full table, a refused destruction notice, an argument that breaks the rules of a call, or a full queue, and for a full queue only if nine tasks for each process and five more do not fit into it; every consistency check on states, locks, tokens, devices and cleanup is unreachable. |
| `KernelHalts.HaltsExactlyFor` | src/system/kernel/error/panic.h:14-18 | The exact condition, in every run with tables for which the queue cannot fill: a step halts for a reason exactly if it has that reason - an argument that the call forbids, a payload too large for a place that is free, a full listener table, a refused notice, or an unusable image for which there is a slot. |
| `KernelHalts.StepHaltsFor` | src/system/kernel/error/panic.h:14-18 | The same for one step in any state of the invariant, where a full queue may come first. |
| `KernelNotices.NoticeRefusedIff` | src/system/kernel/ipc/delivery.c:197-228 | In every run, with tables for which the queue cannot fill: a step halts for a refused destruction notice exactly if it is an IPC cleanup with more notices for some listening process than that has free places, a send that ends a binding and takes the last place of the listening process at its other end, or an accepted reply that ends a binding while the run loop of the listening sender is full. |
| `KernelNotices.StepRefusedIff` | src/system/kernel/ipc/delivery.c:197-228 | The same for one step in any state of the invariant: no other step can halt for that reason, and only a full queue can come first. |
| `KernelExamples.NoticeCanBeRefused` | src/system/kernel/ipc/binding.c:104-127 | A run from boot that halts so: a process with seven messages in its run loop ends a binding of its own with the eighth. |
| `KernelRoom.QueueNeverFills` | src/system/kernel/queue/queue.c:62-77 | If nine tasks for each process and five more fit into the queue, no run halts because it is full, and it never holds more than that; the source has 5 processes and 64 entries. |
| `KernelRoom.StepFits` | src/system/kernel/queue/queue.c:55-108 | The counting behind it: no step asks for more room than the queued tasks, the free places of the run loops, the blocked processes, the queued waits and the tick still to come can take. |
| `KernelFairness.QueueIsFifo` | src/system/kernel/queue/queue.c:122-166 | Every step of the whole machine: popping removes exactly the task that was run, and any other step leaves the queued tasks in place and may add some behind them. |
| `KernelFairness.DispatchAppends` | src/system/kernel/queue/queue.c:62-77 | The capacity of the queue counts the task being run; the new task comes last. |
| `KernelRuns.StepKeeps` | src/system/kernel/queue/queue.c:122-166 | Every step keeps the invariant: system calls, the timer, device and other interrupts, interrupt end, run head, pop head, idle, return; interrupts may come between running and popping the head. |
| `KernelRuns.ExecuteKeeps` | src/system/kernel/queue/queue.c:122-166 | So does every run. |
| `KernelRuns.BootIsSafe` | src/system/kernel/ipc/ipc.c:25-29 | The state after boot satisfies the invariant. |
| `KernelSteps.UnlockKeeps` | src/system/kernel/hal/proc/proc.c:175-189 | Removing a lock keeps the invariant: the process becomes ready, with an evaluation queued, exactly when no lock is left. |
| `KernelSteps.TakeTokenKeeps` | src/system/kernel/ipc/delivery.c:152-163 | A caller that takes a token is blocked for it, and finds the table not full. |
| `KernelSteps.DropTokenKeeps` | src/system/kernel/ipc/delivery.c:71-75 | Clearing the token of a message that was not delivered and queueing the unlocking of its sender keeps the invariant: the sender is not stranded. |
| `KernelSteps.DeliverKeeps` | src/system/kernel/ipc/delivery.c:61-87 | Delivery keeps the invariant, also when it fails: then the token is cleared and the unlocking of the sender queued. What arrives is the subject of MessageGetsThrough. |
| `KernelCalls.SendKeeps` | src/system/kernel/ipc/delivery.c:89-195 | A send by the running process keeps the invariant and halts only with an excuse. |
| `KernelCalls.SendReplyKeeps` | src/system/kernel/ipc/reply.c:18-92 | A reply keeps the invariant, whoever the caller claims to answer, and halts only for a refused notice or a full queue. Whom it lets go is the subject of ReplyLetsSenderGo. |
| `KernelCalls.RegisterKeeps` | src/system/kernel/ipc/registration.c:39-113 | Registration keeps the invariant; it halts only when every slot of the listener table is taken. |
| `KernelCalls.EmitKeeps` | src/system/kernel/dev/dev.c:429-472 | A device event keeps the invariant: a device with a listener always has a holder that is alive or just finished. It halts only if it would arrive. What arrives is the subject of EventGetsThrough. |
| `KernelTasks.StartKeeps` | src/system/kernel/syscall/usr/start.c:170-289 | Starting a program keeps the invariant, however far the loading of its image gets. |
| `KernelMachine.Kernel.constructor` | src/system/kernel/ipc/ipc.c:25-29 | After construction the tables are those of the boot state. |
| `KernelMachine.Kernel.Dispatch` | src/system/kernel/queue/queue.c:55-108 | Appends a task, or halts for a queue that does not run or is full. |
| `KernelMachine.Kernel.StateDidChange` | src/system/kernel/schedule/schedule.c:73-76 | Ends the time slice and queues an evaluation. |
| `KernelMachine.Kernel.Lock` | src/system/kernel/hal/proc/proc.c:156-173 | The exact new state or halt of locking, as described by LockProc. |
| `KernelMachine.Kernel.Unlock` | src/system/kernel/hal/proc/proc.c:175-189 | The exact new state or halt of unlocking, as described by UnlockProc. |
| `KernelMachine.Kernel.UnlockIfAble` | src/system/kernel/ipc/utility.c:105-113 | Unlocks only when the scan finds no token of the process. |
| `KernelMachine.Kernel.ProcSelect` | src/system/kernel/schedule/schedule.c:26-38 | The scanning loop returns the selection that SelectionIsNearest is about. |
| `KernelMachine.Kernel.Select` | src/system/kernel/schedule/schedule.c:40-42 | The selection is stored, and nothing else changes. |
| `KernelMachine.Kernel.OnTick` | src/system/kernel/schedule/schedule.c:82-92 | Counts a tick of the time slice and queues an evaluation when it is used up, as SlicesEnd and TickEndsSliceIff rest on. |
| `KernelMachine.Kernel.DidHatch` | src/system/kernel/schedule/schedule.c:60-71 | Selects at once when nobody is selected. |
| `KernelMachine.Kernel.Spawn` | src/system/kernel/hal/proc/proc.c:91-129 | Hands out the lowest empty slot, or reports the limit. |
| `KernelMachine.Kernel.Hatch` | src/system/kernel/hal/proc/proc.c:131-154 | Makes a new process ready, or halts for the first broken condition. |
| `KernelMachine.Kernel.Cleanup` | src/system/kernel/hal/proc/proc.c:197-207 | Zeroes the slot and its mappings unless the process is alive. |
| `KernelMachine.Kernel.Stop` | src/system/kernel/hal/proc/proc.c:209-220 | Marks the process finished and queues its cleanup and an evaluation. |
| `KernelMachine.Kernel.Switch` | src/system/kernel/hal/proc/proc.c:234-254 | The state changes and guards of the switch to a process. |
| `KernelMachine.Kernel.SwitchToKernelIfNeeded` | src/system/kernel/hal/proc/proc.c:324-352 | The state changes and guards of the switch back. |
| `KernelMachine.Kernel.OnKernelHandlingFinished` | src/system/kernel/schedule/schedule.c:48-58 | Hands over to the selected process and starts a time slice, up to the switch. |
| `KernelMachine.Kernel.IsrEnd` | src/system/kernel/hal/isr/isr.c:69-78 | Leaves an interrupt, switching to the kernel when it was the last one and something is queued. |
| `KernelMachine.Kernel.CallbackInvoke` | src/system/kernel/hal/proc/proc.c:431-485 | Puts an item into a run loop, wakes its process and queues an evaluation; a finished process is ignored and a full run loop reported. |
| `KernelMachine.Kernel.FreeReplyIndex` | src/system/kernel/ipc/delivery.c:18-26 | The lowest free token, or the table size. |
| `KernelMachine.Kernel.TakeToken` | src/system/kernel/ipc/delivery.c:152-163 | Writes the token and blocks the sender, or halts for a full table. |
| `KernelMachine.Kernel.FailReply` | src/system/kernel/ipc/ipc.c:31-52 | Clears a token and lets its sender go on, with the halts in their order. |
| `KernelMachine.Kernel.NextListenerIndex` | src/system/kernel/ipc/utility.c:115-123 | The next listener whose path begins with the query. |
| `KernelMachine.Kernel.ListenerIndex` | src/system/kernel/ipc/delivery.c:104-120 | The lookup loops of a send and of a notification (lines 207-217). |
| `KernelMachine.Kernel.Deliver` | src/system/kernel/ipc/delivery.c:61-87 | Delivers the message that MessageGetsThrough is about, or clears the token and queues the unlocking, with the error the caller gets. |
| `KernelMachine.Kernel.NotifySessionDestroyed` | src/system/kernel/ipc/delivery.c:197-228 | Tells one process that a binding is gone; a process that does not listen is passed over. |
| `KernelMachine.Kernel.Find` | src/system/kernel/ipc/binding.c:38-47 | The lowest binding of a pair. |
| `KernelMachine.Kernel.DestroyBindingAt` | src/system/kernel/ipc/binding.c:114-117 | Notifies the party that did not ask, and clears the slot. |
| `KernelMachine.Kernel.ApplyBind` | src/system/kernel/ipc/delivery.c:173-188 | Creates, updates or destroys a binding for the peer; creation never looks for one that exists. |
| `KernelMachine.Kernel.CleanBindings` | src/system/kernel/ipc/binding.c:129-137 | The cleanup loop: destroys the bindings the process sends over and clears those it receives over. |
| `KernelMachine.Kernel.Permitted` | src/system/kernel/ipc/delivery.c:127-135 | Whether the lowest binding of the pair includes the mask. |
| `KernelMachine.Kernel.SendTo` | src/system/kernel/ipc/delivery.c:137-194 | What a send does once a listener was found and the sender is permitted. |
| `KernelMachine.Kernel.Send` | src/system/kernel/ipc/delivery.c:89-195 | A whole send, with every error in its place. |
| `KernelMachine.Kernel.SendReply` | src/system/kernel/ipc/reply.c:18-92 | A whole reply, with every error in its place: the one that ReplyLetsSenderGo is about. |
| `KernelMachine.Kernel.FreeListenerIndex` | src/system/kernel/ipc/registration.c:18-26 | The lowest free listener slot, or the table size. |
| `KernelMachine.Kernel.ReceivesKernelNotifications` | src/system/kernel/ipc/registration.c:28-37 | Whether the process listens for destroyed bindings. |
| `KernelMachine.Kernel.Register` | src/system/kernel/ipc/registration.c:39-113 | A whole registration, with every error in its place. |
| `KernelMachine.Kernel.ClearListeners` | src/system/kernel/ipc/ipc.c:55-59 | All listeners of the process are cleared, and no other. |
| `KernelMachine.Kernel.CleanTokens` | src/system/kernel/ipc/ipc.c:60-76 | Every token the process handles is failed and every token it owns cleared. |
| `KernelMachine.Kernel.CleanIpc` | src/system/kernel/ipc/ipc.c:54-78 | The whole IPC cleanup, in its order. |
| `KernelMachine.Kernel.CleanDevices` | src/system/kernel/dev/dev.c:474-482 | All devices the process holds are released, and no other. |
| `KernelMachine.Kernel.CleanRunLoop` | src/system/kernel/runloop/runloop.c:232-238 | The run loop is emptied. |
| `KernelMachine.Kernel.Acquire` | src/system/kernel/dev/dev.c:228-248 | Holds a free device for the running process, with every error in its place. |
| `KernelMachine.Kernel.Release` | src/system/kernel/dev/dev.c:250-260 | Releases a device, with its listener, for its holder only. |
| `KernelMachine.Kernel.Listen` | src/system/kernel/dev/dev.c:327-350 | Sets a listener on a started device for its holder, once, with every error in its place. |
| `KernelMachine.Kernel.Emit` | src/system/kernel/dev/dev.c:429-472 | Delivers a device event to the holder, if there is a listener, with every error in its place: the one that EventGetsThrough is about. |
| `KernelMachine.Kernel.WaitForEventIfIdle` | src/system/kernel/syscall/usr/waitforevent.c:12-18 | Locks the process exactly if its run loop is empty, as WaitingBlocksIffIdle is about. |
| `KernelMachine.Kernel.StartImage` | src/system/kernel/syscall/usr/start.c:170-289 | Spawns, maps and hatches, or cleans up again, depending on how far the image gets. |
| `KernelMachine.Kernel.Bye` | src/system/kernel/syscall/usr/bye.c:14-19 | Queues the three cleanups and stops the process. |
| `KernelMachine.Kernel.RunTask` | src/system/kernel/queue/queue.c:143-156 | What running each kind of queued task does. |
| `KernelMachine.Kernel.RunHead` | src/system/kernel/queue/queue.c:122-156 | The head is run and stays in its slot. |
| `KernelMachine.Kernel.GetItem` | src/system/kernel/runloop/runloop.c:160-180 | The oldest message of the run loop, once: nothing if the run loop is empty or its oldest slot not filled, a wrong state if it was already collected, and then nothing changes; otherwise the message leaves the run loop if its data were collected, and is marked if not. RunLoopRing.RunLoop.GetPendingItem does the same on the ring. |
| `KernelMachine.Kernel.FinishIfNeeded` | src/system/kernel/runloop/runloop.c:60-69 | The oldest entry leaves once both its item and its data were collected. |
| `KernelMachine.Kernel.GetData` | src/system/kernel/runloop/runloop.c:200-222 | The size of the data of the oldest message, once and only after the message: with them the message leaves the run loop; in any other state nothing changes. RunLoopRing.RunLoop.GetPendingItemData gives the bytes. |
| `KernelMachine.Kernel.Perform` | src/system/kernel/hal/syscall/usrfunc.c:31-367 | What each system call does to the tables; ending with an error code (lines 237-241) ends the process like bye. |
| `KernelMachine.Kernel.Take` | src/system/kernel/queue/queue.c:122-166 | Each step of the machine changes the tables as described, or halts for the described reason. |
| `KernelMachine.Kernel.Run` | src/system/kernel/queue/queue.c:122-166 | A whole run of the tables follows the described run; starting sound they stay sound, and a halt has an excuse. |
| `TaskQueue.Queue.constructor` | src/system/kernel/queue/queue.c:51-53 | The chain is empty. |
| `TaskQueue.Queue.FreeSlot` | src/system/kernel/queue/queue.c:66-77 | An unreserved slot, found exactly when the chain is shorter than the table. |
| `TaskQueue.Queue.Last` | src/system/kernel/queue/queue.c:98-103 | Following the links from the head ends, at the last entry of the chain. |
| `TaskQueue.Queue.Dispatch` | src/system/kernel/queue/queue.c:55-108 | The links form a chain through exactly the reserved slots; the new task is last, and the head stays the head. |
| `TaskQueue.Queue.Retire` | src/system/kernel/queue/queue.c:158-164 | The head is removed, and the rest keeps its order. |
| `TaskQueue.Queue.Round` | src/system/kernel/queue/queue.c:122-165 | The entry removed is the one that was run, whatever is dispatched meanwhile. |
| `TaskQueue.AppendKeepsWell` | src/system/kernel/queue/queue.c:98-107 | Linking a slot behind the last entry appends its task and keeps the chain whole. |
| `TaskQueue.RemoveKeepsWell` | src/system/kernel/queue/queue.c:158-164 | Unlinking the head drops the first task and keeps the chain whole. |
| `TaskQueue.FullMeansAll` | src/system/kernel/queue/queue.c:68-77 | All slots are reserved exactly when the chain is as long as the table. |
| `KernelParts.QueueTask` | src/system/kernel/queue/queue.c:55-108 | The chain serves the kernel: when it holds the queue of the tables, dispatching on it follows Dispatch, halts included, and it holds the new queue. |
| `KernelParts.HeadIsRunInPlace` | src/system/kernel/queue/queue.c:122-156 | The entry at the front of the chain is the task that the tables run next, and running it leaves the chain as it is. |
| `KernelParts.PopTask` | src/system/kernel/queue/queue.c:158-164 | Taking the front entry off the chain is the step that pops the head. |
| `RunLoopRing.RunLoop.ReservedSlotsAreAnInterval` | src/system/kernel/runloop/runloop.c:86-106 | The reserved slots are the cyclic interval after finishedIndex up to endIndex. |
| `RunLoopRing.RunLoop.constructor` | src/system/kernel/runloop/runloop.c:29-33 | The run loop is empty. |
| `RunLoopRing.RunLoop.Reserve` | src/system/kernel/runloop/runloop.c:86-106 | A slot is reserved behind all others; the run loop is full exactly when all slots are outstanding. |
| `RunLoopRing.RunLoop.Dispatch` | src/system/kernel/runloop/runloop.c:115-158 | Any outstanding slot can be filled, in any order, with the item and what its encoder writes, of which the announced number of bytes count; the halts in their order. |
| `RunLoopRing.RunLoop.FinishIfNeeded` | src/system/kernel/runloop/runloop.c:60-69 | The oldest entry leaves once both its item and its data were collected. |
| `RunLoopRing.RunLoop.GetPendingItem` | src/system/kernel/runloop/runloop.c:160-180 | The oldest item, once; empty while its slot is not filled. |
| `RunLoopRing.RunLoop.GetPendingItemDataSize` | src/system/kernel/runloop/runloop.c:182-198 | The size of the data of the oldest item. |
| `RunLoopRing.RunLoop.GetPendingItemData` | src/system/kernel/runloop/runloop.c:200-222 | Exactly the bytes that were encoded for the oldest item, after the item and once. |
| `RunLoopRing.RunLoop.IsEmpty` | src/system/kernel/runloop/runloop.c:224-230 | Whether the oldest slot holds nothing. |
| `RunLoopRing.RunLoop.Cleanup` | src/system/kernel/runloop/runloop.c:232-238 | The run loop is empty. |
| `RunLoopOrder.ItemsComeOutInOrder` | src/system/kernel/runloop/runloop.c:86-222 | After any operations the items collected are those of the first slots in reservation order, each once, and the data collected is that of every slot that left with some, in the same order. |
| `KernelParts.Put` | src/system/kernel/hal/proc/proc.c:445-470 | The rings serve the kernel: when a ring holds a run loop of the tables, reserving and filling a slot does to it what a delivery does to the tables, full run loops and payloads that are too large included. |
| `KernelParts.TakeItem` | src/system/kernel/runloop/runloop.c:160-180 | Reading the oldest item from the ring is what the tables do, with the same item. |
| `KernelParts.TakeData` | src/system/kernel/runloop/runloop.c:200-222 | So is reading its data, which are as many bytes as the tables say. |
| `IpcPath.ValidateGlobal` | src/system/kernel/ipc/utility.c:15-61 | The loop accepts exactly the paths whose components are letters and digits joined by single separators. |
| `IpcPath.ValidatePrefixed` | src/system/kernel/ipc/utility.c:63-93 | The same behind a prefix, for direct and notification paths. |
| `IpcPath.KindsAreExclusive` | src/system/kernel/ipc/registration.c:64-70 | No path is of two kinds, so the test for exactly one kind is a test for any. |
| `IpcPath.ComparisonMatches` | src/system/kernel/ipc/utility.c:115-123 | Comparing as many characters as the query has accepts exactly the stored paths that begin with it. |
| `IpcPath.MatchesStored` | src/system/kernel/ipc/utility.c:116-119 | The comparison of the lookup, run on the stored path. |
| `Text.StrLen` | src/lib/stdgunw/string.c:14-18 | The index of the first terminator. |
| `Text.StrCmpL` | src/lib/stdgunw/string.c:26-36 | Zero exactly when the texts do not differ before the length or a common end; otherwise the sign at the first difference. |
| `Text.StrCmp` | src/lib/stdgunw/string.c:20-24 | Zero exactly when the texts are equal up to their terminators. |
| `Text.StrPrefix` | src/lib/stdgunw/string.c:38-50 | The buffer holds the beginning of the text, filled up with terminators, and nothing else is written. |
| `Arithmetic.AlignedIsMultiple` | src/lib/stdgunw/utils.c:10-21 | The value rounded up is the smallest multiple that is not below it. |
| `Numbers.Pow` | src/lib/stdgunw/math.c:10-25 | The power of any base, negative ones included, unless it is outside the range of int; the base for a negative exponent. |
| `Numbers.OverflowStays` | src/lib/stdgunw/math.c:17-22 | Once a power is outside the range of int all higher ones are, so a product that leaves the range means that the result does. |
| `Numbers.NumeralsAreDigits` | src/lib/stdgunw/char.c:11-29 | A character accepted as a numeral stands for a digit below the base. |
| `Numbers.DigitCharIsNum` | src/lib/stdgunw/string.c:167-172 | The character written for a digit is a numeral that reads back as that digit. |
| `Numbers.LeadingExponent` | src/lib/stdgunw/string.c:158-165 | The first loop finds the exponent of the leading digit. |
| `Numbers.DigitOf` | src/lib/stdgunw/string.c:167-172 | One round of the second loop yields the digit at that place; it fails exactly when the power of the place leaves the range of int. |
| `Numbers.UInt2Str` | src/lib/stdgunw/string.c:155-175 | In every base from 2 to 255: the digits of the number, most significant first, and no other character of the buffer; it fails exactly when the leading power leaves the range of int. |
| `Numbers.DigitsOfQuotient` | src/lib/stdgunw/string.c:167-172 | Dividing by a power of the base drops that many digits. |
| `Numbers.Int2Str` | src/lib/stdgunw/string.c:177-187 | Sign and digits; only the smallest int fails. |
| `Numbers.PowersFit` | src/lib/stdgunw/string.c:167-168 | No power overflows for a number in the range of int, in any base. |
| `Numbers.ReadPrefix` | src/lib/stdgunw/string.c:98-121 | Base, offset and sign of a text. |
| `Numbers.SumOfNumerals` | src/lib/stdgunw/string.c:132-146 | The sum of the powers is the value of the numerals; it overflows exactly when the value or the leading power does. |
| `Numbers.Str2IntL` | src/lib/stdgunw/string.c:90-153 | The value of every text that denotes a number in range, the error flag for a malformed one, and no value without a text that denotes it. |
| `Numbers.IntTextDenotes` | src/lib/stdgunw/string.c:177-187 | The text printed for i denotes i, for every |i| up to 2^31 - 1: no prefix is misread and nothing overflows. |
| `Numbers.PrefixedTextDenotes` | src/lib/stdgunw/string.c:193-199 | A printed hexadecimal or binary number denotes itself behind its prefix. |
| `Numbers.PrintAndParse` | src/lib/stdgunw/string.c:90-187 | Printing and parsing gives every such i back, with the error flag clear. |
| `Clock.Timer.constructor` | src/system/kernel/timer/timer.c:53-61 | All counters are zero, and the drift is the remainder of the frequency. |
| `Clock.Timer.Tick` | src/system/kernel/timer/timer.c:27-51 | After n ticks driftCurrent is n times the drift modulo the frequency and ms is n minus the quotient, both counters wrapping at 2^32; the handlers are called exactly for the milliseconds counted. |
| `Clock.OneMoreTick` | src/system/kernel/timer/timer.c:40-44 | A tick is ignored exactly when the drift reaches the frequency. |
| `Clock.TimeRoundedUp` | src/system/kernel/driver/pit/pit.c:88-90 | The milliseconds counted are the exact time for the programmed divider rounded up, after any number of ticks. |
| `Clock.Timer.ShowsTimeRoundedUp` | src/system/kernel/timer/timer.c:71-73 | So is the time shown, until the counter wraps. |
| `PagingProofs.FramesAreConserved` | src/system/kernel/hal/paging/paging.c:332-342 | Free and mapped frames are disjoint and together all the usable ones. |
| `PagingProofs.CountersAreMappings` | src/system/kernel/hal/paging/paging.c:69-74 | The counter of a frame that is not reserved is the number of page-table entries of all processes that map it, at most one; no entry maps a reserved frame. |
| `PagingTheorems.FramesSurviveRuns` | src/system/kernel/hal/paging/paging.c:419-598 | Over any sequence of requests, releases and cleanups the memory invariant holds and free plus mapped frames is constant: present directory entries correspond one to one to used tables, unused tables are zero, and the kernel directory entry is the one it was. |
| `PagingTheorems.AssignIsSound` | src/system/kernel/hal/paging/paging.c:419-497 | A request never halts and changes one process; old translations stay, new ones are in the range and take as many frames as there are new pages, also when it fails half-way; each result code tells what was and is mapped. |
| `PagingTheorems.AssignFromKeeps` | src/system/kernel/hal/paging/paging.c:434-496 | The loop behind it, from any page on and with any pages met before. |
| `PagingProofs.AssignPageKeeps` | src/system/kernel/hal/paging/paging.c:436-490 | One page: a table is taken if there is none, and a free frame mapped unless the page is there. |
| `PagingProofs.AssignEntryKeeps` | src/system/kernel/hal/paging/paging.c:101-131 | Mapping a free frame keeps the invariant and takes exactly that frame. |
| `PagingProofs.TakeTableKeepsMemory` | src/system/kernel/hal/paging/paging.c:447-456 | Taking a table changes no translation and no frame. |
| `PagingTheorems.ReleaseIsSound` | src/system/kernel/hal/paging/paging.c:499-522 | A page is released exactly when it is not page 0, lies in the user area and is mapped; then its frame is free and nothing else changed. Otherwise the machine halts. |
| `PagingTheorems.CleanupIsSound` | src/system/kernel/hal/paging/paging.c:537-589 | The cleanup never halts, gives back exactly the frames of the process, leaves all other processes alone and the process as it was at first. |
| `PagingTheorems.EmptyInfoTranslates` | src/system/kernel/hal/paging/paging.c:316-330 | At first a process has the kernel area, mapped to the lowest frames, and nothing else. |
| `PagingTheorems.UserReachesOwnPages` | src/system/kernel/hal/paging/paging.c:357-376 | A process may use exactly the pages that are mapped for it in the user area, and no page of the kernel. |
| `PagingTheorems.GimmeIsSound` | src/system/kernel/hal/mem/mem.c:55-74 | A request in bytes is refused exactly when it is empty, wraps or reaches the kernel area; when it succeeds every byte is mapped, and it is never unavailable. |
| `PagingTheorems.RequestCoversItsBytes` | src/system/kernel/hal/mem/mem.c:70-73 | The pages asked for are exactly those that hold a byte of the range. |
| `PagingTheorems.InitialMemoryIsOk` | src/system/kernel/hal/paging/paging.c:344-355 | The tables at the start satisfy the invariant. |
| `PagingMachine.Paging.constructor` | src/system/kernel/hal/paging/paging.c:344-355 | The tables are those of the start. |
| `PagingMachine.Paging.GetFreeTable` | src/system/kernel/hal/paging/paging.c:31-51 | The lowest unused table, or none. |
| `PagingMachine.Paging.GetFreeFrame` | src/system/kernel/hal/paging/paging.c:76-90 | The lowest free frame, or none. |
| `PagingMachine.Paging.GetFreePages` | src/system/kernel/hal/paging/paging.c:332-342 | The size of the set of free frames. |
| `PagingMachine.Paging.AssignPage` | src/system/kernel/hal/paging/paging.c:436-490 | One round of the loop, updating the tables in place as described. |
| `PagingMachine.Paging.Assign` | src/system/kernel/hal/paging/paging.c:419-497 | The whole loop, with its checks and result codes. |
| `PagingMachine.Paging.Gimme` | src/system/kernel/hal/mem/mem.c:55-74 | The page range of a request, the end computed in 32 bits. |
| `PagingMachine.Paging.ReleaseEntry` | src/system/kernel/hal/paging/paging.c:140-198 | Clearing an entry and giving back its frame, with the halts in their order. |
| `PagingMachine.Paging.Release` | src/system/kernel/hal/paging/paging.c:499-522 | Finding the entry of a page and releasing it. |
| `PagingMachine.Paging.CleanTable` | src/system/kernel/hal/paging/paging.c:569-575 | The inner loop of the cleanup. |
| `PagingMachine.Paging.Cleanup` | src/system/kernel/hal/paging/paging.c:537-589 | Both loops of the cleanup and the clearing of the tables. |
| `KernelMemory.NoFrameIsLost` | src/system/kernel/hal/mem/mem.c:55-86 | Kernel and paging together, over all runs from boot: whatever programs are started and end, whatever they ask for and give back, the pages that the kernel notes for a process are its translations, and the free frames and the pages of all processes together are the usable frames of the start. Paging never halts the machine but for a page that the caller does not have. |
| `KernelMemory.TheDeadHaveNoFrames` | src/system/kernel/hal/proc/proc.c:197-207 | In all these runs a process that is gone owns no frame, and when all are gone every usable frame is free. |
| `KernelMemory.TakeKeeps` | src/system/kernel/hal/mem/mem.c:55-86 | Every step of the two keeps them together: programs loaded section by section, with their stack, and cleaned up when that is refused; requests; releases; the end of a process. |
| `KernelMemory.LoadForMatches` | src/system/kernel/syscall/usr/start.c:130-280 | However far the loading of a program gets, the new process has exactly the pages that the kernel notes for it, and none if it was refused its stack. |
| `KernelMemory.GiveKeeps` | src/system/kernel/syscall/usr/memthx.c:12-24 | A page is taken back from the caller exactly when paging takes it back; an address inside a page and page 0 change nothing. |
| `KernelMemory.FramesAreFreeOrPages` | src/system/kernel/hal/paging/paging.c:332-342 | Each page of a process has a frame of its own, so free frames and pages add up to the usable frames. |
| `KernelMemory.ProjectedRun` | src/system/kernel/queue/queue.c:122-166 | The kernel part of such a run is a run of the kernel alone, so whatever holds of those holds here. |
| `MemoryMap.InitializePhysicalMemoryMap` | src/system/kernel/hal/paging/paging.c:229-287 | Every page has the status of the last region that touches it, memory being rounded inwards and reservations outwards in unbounded arithmetic; the machine halts exactly for an entry of unknown type before the end. |
| `MemoryMap.MarkRegion` | src/system/kernel/hal/paging/paging.c:256-286 | One region marks exactly the pages it touches, unless it is a reservation whose end is rounded up to 4 GiB without reaching it. |
| `MemoryMap.PageRangeIsExact` | src/system/kernel/hal/paging/paging.c:238-273 | The 32-bit computation, wrapping as it does, names exactly those pages. |
| `MemoryMap.FreeFramesAreMemory` | src/system/kernel/hal/paging/paging.c:275-286 | Every free frame lies wholly inside a region of memory below 4 GiB and above the kernel. |
| `MemoryMap.ReservedPagesAreNotFree` | src/system/kernel/hal/paging/paging.c:281-285 | A page of a reservation that was not passed over is not free unless a later memory region claims it. |
| `MemoryMap.StatusIsIntendedIff` | src/system/kernel/hal/paging/paging.c:256-286 | For every map and page: the page has the status that the map means exactly if the last region that touches it is not passed over, or the regions before it mark the page as it would have. |
| `MemoryMap.LostPageIsFreeIff` | src/system/kernel/hal/paging/paging.c:265-270 | A page that a passed-over reservation was the last to claim is free exactly if the regions before it leave it free. |
| `MemoryMap.PassedOverRegionIsLost` | src/system/kernel/hal/paging/paging.c:265-270 | The reservation that is passed over can hide the reservation of free memory: a map for which it does. |
| `MemoryMap.MapGivesInitialMemory` | src/system/kernel/hal/paging/paging.c:279-285 | The table is a fit start for paging. |
| `Fat12.DetectedHeaderIsSound` | src/system/kernel/driver/fat12/fat12.c:216-308 | For an accepted header without hidden sectors, every cluster that may be read lies in the volume and within the drive, and its link inside the first copy of the table, for clusters of any size. |
| `Fat12.RangesDoNotOverflow` | src/system/kernel/driver/fat12/fat12.c:24-63 | No product that the ranges of an accepted header are made of leaves the range of int. |
| `Fat12.ClustersFollowDirectory` | src/system/kernel/driver/fat12/fat12.c:65-72 | The clusters start where the reserved sectors, tables and directory end. |
| `Fat12.LinksAreInTable` | src/system/kernel/driver/fat12/fat12.c:74-81 | The index of the link of a cluster that may be read is not truncated and is inside the table. |
| `Fat12.StartLinkIsInTable` | src/system/kernel/driver/fat12/fat12.c:150-167 | So is the link of any first cluster that the directory check accepts. |
| `Fat12.ClusterIsInVolume` | src/system/kernel/driver/fat12/fat12.c:128-136 | The sectors of a cluster that may be read are between the directory and the end of the volume. |
| `Fat12.HiddenSectorsAreNotSound` | src/system/kernel/driver/fat12/fat12.c:277-305 | With hidden sectors this is false: an accepted header and a cluster whose link is outside the table. |
| `Fat12.LinksAreInTableIffHighestIs` | src/system/kernel/driver/fat12/fat12.c:128-136 | For any header, accepted or not: every link of a cluster that may be read is in the table exactly when no cluster may be read or the link of the highest one is in the table, the number of clusters being computed in unsigned arithmetic that wraps. |
| `Fat12.FatVerify` | src/system/kernel/driver/fat12/fat12.c:83-94 | The comparison of the copies of the table passes exactly when there are at least two and the first two agree as far as the first zero byte; later copies are never looked at, and a single table never passes. |
| `Fat12.DifferingCopiesPassIffZeroBefore` | src/system/kernel/driver/fat12/fat12.c:87-91 | Two copies that differ pass exactly if a zero byte comes before the first difference. |
| `Fat12.LinkIsThreeNibbles` | src/system/kernel/driver/fat12/fat12.c:74-81 | A link is the three half bytes at three times the cluster number, least significant first. |
| `Fat12.OneBit` | src/system/kernel/driver/fat12/fat12.c:220-222 | A number with one bit set is a power of two. |
| `Volume.ReadBytes` | src/system/kernel/storage/volume.c:39-83 | The bytes of a range are those at its addresses on the drive; it fails exactly when the drive is not ready, with an error code of its own, or a sector that holds some of it cannot be read. |
| `Volume.ReadSector` | src/system/kernel/storage/volume.c:109-126 | Whole sectors through byte ranges, whose offset and length are 32 bits wide: the bytes of the wrapped range; as long as nothing wraps exactly the sectors asked for, and no other has to be readable. |
| `Volume.StretchByte` | src/system/kernel/storage/volume.c:49-56 | Byte k of consecutive sectors is the one at that distance from their start. |
| `FileLoader.LoadFile` | src/system/kernel/storage/file.c:22-100 | With one sector to a cluster: a file is loaded exactly when its table can be read and its copies pass the comparison, the chain from its first cluster has as many clusters as its size asks for and then an end mark, and all can be read; then the buffer holds their sectors in the order of the chain. The loops end on every table. |
| `FileLoader.LoadClusters` | src/system/kernel/storage/file.c:46-99 | The outer loop against the plain walk along the links. |
| `FileLoader.LoadFragment` | src/system/kernel/storage/file.c:50-89 | One round: a run of adjacent clusters is found and read behind what is there, or the file cannot be loaded. |
| `FileLoader.LastContiguous` | src/system/kernel/storage/file.c:54-63 | The inner loop finds a run of clusters that link to each other, and ends on every table. |
| `FileLoader.ClusterInReach` | src/system/kernel/storage/file.c:77-79 | With ranges in the range of int, no address of a cluster wraps. |
| `FileLoader.ReadRun` | src/system/kernel/storage/file.c:77-86 | The sectors of a run are the data of its clusters. |
| `FileLoader.ChainBeginsWithRun` | src/system/kernel/storage/file.c:50-90 | The plain walk starts with the run, or is no chain of that length. |
| `FileLoader.ChainIsChain` | src/system/kernel/driver/fat12/fat12.c:108-126 | The plain walk yields a list of clusters exactly when each links to the next, all but the first may be read, and the last links to an end mark. |
| `FileLoader.ExpectedIsWhole` | src/system/kernel/driver/fat12/fat12.c:209-214 | The size rounded up to clusters, in 32 bits, is a whole number of clusters. |
| `FileLoader.DetectedFileCanBeLoaded` | src/system/kernel/driver/fat12/fat12.c:150-167 | For a volume that was detected and a file that its directory names, the loader has what it asks for. |

## Left out

- Registers, stacks, descriptor tables, CR3, the translation buffer and port I/O: of the context switch only the state changes and guards are modelled.
- Interrupts inside one C function, and interrupts nested in an interrupt handler: a function is one step.
- The contents of messages, events and reply buffers in the kernel model: there a payload is its size. `RunLoopRing` has the bytes.
- Checks of user pointers in the system call wrappers, and null pointers that would halt at once.
- The loading of an executable: in the kernel model how far it gets, and the pages it maps, is an input of the step that starts a program; in KernelMemory the pages follow from its sections. ELF parsing is not modelled.
- KernelMachine.Kernel.Perform: memory requests add or remove pages of a process without frames, which `PagingState` has; KernelMemory joins the two. The result codes of requests are those of PagingMachine.Paging.Gimme, not of Perform.
- System calls and interrupts that touch none of these tables (log, time, device parameters and output, drivers) are one step without effect.
- Installing and starting devices and drivers: which devices are installed and started is fixed from boot.
- Halts for a full listener table, a payload over 7168 bytes, a refused destruction notice, a wrong device identifier, a page that is not mapped, or an image that cannot be loaded: these are not excluded, because the code has them; HaltsExactlyFor says for each step exactly when. A full queue is excluded for tables up to the sizes that QueueNeverFills names.
- KernelMachine.Kernel.FailReply: the error code that the source writes into the memory of the sender is not modelled, because user memory is not.
- KernelMachine.Kernel.SendReply: the bytes of the reply and the error code in the memory of the sender are not modelled, for the same reason.
- Uniqueness of bindings: creation never looks for an existing one, so bindings form a multiset and the lowest index counts.
- RunLoopRing.RunLoop.Dispatch: an encoder that writes more than the buffer of a slot holds is not modelled, because it overwrites other memory.
- PagingState.PageEntry: the writable, accessed and dirty bits are not modelled; the first is set and cleared with the present bit.
- Numbers.Str2IntL: signed overflow has no meaning in C and is a result of its own; for a malformed text it may come before the first wrong character.
- FileLoader.LoadFile: one sector to a cluster, as in the boot sector of the system disk (`src/bootloader/shared/data.s:12`), because for larger clusters the routine reads more than its buffer holds; and links inside the table, which every accepted header without hidden sectors has.
- Volume.ReadBytes: sector sizes are those of the drive, and the error codes of a controller are two: the device is not there, or something else.
- Directory search, file names and paths of files, volume detection and registration.
- The user heap allocator, the session stacks of the display and keyboard managers, and `strfindl`: they do not do what their users expect, and nothing in the models depends on them.
- Bootloader, display, keyboard, floppy and serial drivers, terminal, shell and games.
