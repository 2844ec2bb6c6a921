# microPandOS, verified in Dafny

microPandOS is a small message-passing kernel. This project models the four parts of it that share state and
proves what they promise over every run:

- **Lists, pools and the process tree** (`headers/listx.h`, `phase1/pcb.c`, `phase1/msg.c`). The circular lists
  threaded through the two static tables are modelled in place: the `next` and `prev` fields of every `list_head`
  are rewritten by the same assignments, `list_del` leaves the removed node's fields as they are, and a list is
  what its links thread. A removed node whose old neighbours are still adjacent is called *stale*; unlinking it a
  second time rewrites its neighbours with the values they hold. Both places where the kernel unlinks a node twice
  (`popMessage` then `freeMsg`, `removeChild` then `outChild`) are proved on this basis.
- **The nucleus** (`phase2/`). Every system call, SSI service, interrupt handler and the scheduler is a method of
  the class `Nucleus.Nucleus` over the linked tables. Its contract equates the new state with a function of the
  old one on values (`Kernel`, `Terminate`), and the properties of whole runs are proved about those functions.
- **Demand paging and the swap mutex** (`phase3/vmSupport.c`, `phase3/utils.c`, the refill handler, the program
  trap handler). The pager is cut at the points where other processes can run, and its phases are interleaved
  freely with faults, refills, reads, writes and traps of other address spaces. `SwapMutex` proves of `mutex` and
  `askMutex`, over the nucleus, that one process at a time is granted the mutex; `Pagers` puts the two together, each
  process with a pager of its own, and derives that they work as one.
- **The circular log** (`klog.c`).

## How the files fit together

| file | contents |
|---|---|
| `Layout.dfy`, `Rings.dfy` | table rows, queue heads and `list_head` addresses; sequences as circular lists |
| `Listx.dfy`, `Pcb.dfy`, `Msg.dfy` | the list operations and the two tables, in place |
| `Devices.dfy` | device register addresses and what they decode to |
| `Kernel.dfy`, `Terminate.dfy`, `Boot.dfy` | the nucleus as functions on values, `terminateProcess` with its closed form, the initial state |
| `Invariant.dfy`, `Subtrees.dfy` | what every step keeps |
| `Nucleus.dfy` | the nucleus in place, each method refining its function |
| `Runs.dfy` | events, runs, reachable states |
| `Verdicts.dfy`, `Mail.dfy`, `Order.dfy`, `Accounting.dfy`, `RoundRobin.dfy`, `Replies.dfy` | theorems about all runs |
| `Wakeups.dfy`, `Answers.dfy`, `Services.dfy` | who waits for which interrupt and what it brings; what each service does, returns and answers |
| `Inboxes.dfy`, `SwapMutex.dfy` | the swap mutex on top of the nucleus |
| `Aftermath.dfy`, `StrayReleases.dfy`, `Slices.dfy` | what a second release and the end of a time slice do to it |
| `Rounds.dfy`, `Errands.dfy` | a whole round of it from the start of the kernel; a holder that is served by the SSI in between |
| `PageTable.dfy`, `Paging.dfy`, `Vm.dfy` | page-table words, paging on values, paging in place |
| `Evictions.dfy` | runs with and without evictions |
| `Pagers.dfy` | nucleus, mutex and the pagers of all processes in one system |
| `Klog.dfy` | the circular log |

Two conventions. Some predicates are written as an equation `true == (...)`: this keeps them a single fact where
they are assumed or proved. Lemmas by induction switch automatic induction off and make their recursive calls.

## What has to be assumed of callers, exactly

The code keeps its invariants only under conditions that its callers meet. They are guards of the steps in
`Invariant.dfy`, `Runs.dfy`, `SwapMutex.dfy`, `Paging.dfy` and `Pagers.dfy`. Those that name an `Iff` lemma are proved
to be exact:

- a message is sent to no process that waits for a device or for the clock (`SendKeepsIff`);
- CLOCKWAIT is served for a requester that already waits for the answer (`WaitClockKeepsIff`);
- DOIO names a command register, for a living requester that is neither the SSI nor blocked (`DoIoKeepsIff`,
  `DoIoCountsIff`);
- a process is created for a requester that is alive (`CreateKeepsIff`);
- the victim of a kill is alive and not the SSI (`DeadKillBreaks`, `KillKeepsIff`);
- each process that a kill takes with it is on no queue, waits for the clock, or is blocked on a device whose number
  equals its interrupt line (`KillKeepsIff`, `UnblockedIffKillable`): `isPcbBlockedOnDevice` switches on the device
  number as if it were a line, and `terminateProcess` never looks at the ready queue;
- handlers that answer find a free message for each process they wake (`MayTick`, `MayAnswer`): they do not test the
  result of `allocMsg`;
- a device interrupt has a device bit set, and on a terminal one of the two status words reports success: otherwise
  `deviceHandler` uses a pointer that it never set;
- a process that traps with the swap mutex in its hands works on a frame that was free or its own, and one that traps
  without it has no page on its way out (`TrapKeepsIff`, `TrapLosesIff`): otherwise a page stays recorded in a frame
  that it has lost, or the pager at work finds the row of its victim changed;
- `pick_frame` on a full pool yields a frame exactly once its counter is past its initial value -1
  (`FullPickIsFrame`, `FirstFullPick`), because C's remainder of -1 is -1. The code then leaves the table at index -1;
  the model ends there. So from the value that the code gives the counter no run evicts a page (`NoEvictionAfterBoot`).
  The paging theorems hold for every value of the counter, and from a value past -1 there are runs with evictions
  (`EvictedPageComesBack`);
- the refill handler serves pages 0 to 30 and the stack page, and no other (`RefillFits`).

The swap mutex asks three things (`SwapMutex.May`). The server follows its loop, is not killed, and asks for no device
or clock. Its time slices end where that undoes nothing (`SliceSafeIff`). A client sends to the server only while it is
outside, to ask, or inside, to release; one that got the PCB of a process that was killed while it waited sends when
nothing of that process is left (`SpeakSafeIff`). What clients receive, where their time slices end and when they are
killed is left open. In the joint system (`Pagers.Allowed`) a process neither releases nor is killed by others half-way
through its pager, though it may trap there, and no two processes share an address space. `programTrapHandler` breaks
the protocol when the process it ends is the last that was granted the mutex and does not have it any more
(`StrayIff`); what follows is `StrayReleaseStarves`.

At the end of a time slice `PLTHandler` calls `stateCpy` with source and destination exchanged: `p_s` is copied over
the exception state, and the process goes on from where it slept last (`SliceSendsBack`). The model follows the code.
For the server the condition under which that is harmless is `SliceSafeIff`; as `phase3/initProc.c` line 274 writes
its status word, and by the rule stated in `phase2/initial.c` lines 82-85, the server runs with interrupts off, so
that none of its slices ends. A client may be sent back anywhere as far as mutual exclusion goes; but a holder that is
sent back to a receive that was answered already never releases (`HolderDeafIff`, `SlicedHolderStarves`,
`HolderServed`), so in `Pagers.Allowed` the slice of a process in its pager ends only where it is about to repeat a
receive. Likewise `ExactlyOnce` is about clients that ask again only after their last answer, so not about one that is
sent back behind a request that is still open and repeats it. Elsewhere slices end anywhere. The SSI has no time
slices: `main` leaves the local timer off for it.

Where comments and code disagree the code is followed: `pick_frame` is described as returning the first frame of a
full pool but returns the next one in turn; `createProcess` answers NOPROC when the table is full, and since the
loop of the SSI takes NOPROC (equal to MSGNOGOOD) for "no answer", such a requester is never answered
(`WhatFails`).

## Model

| member | source | states |
|---|---|---|
| `Listx.InsertLinked` | headers/listx.h:104-109 | the four writes of `__list_add` between two neighbours of one ring thread exactly the new node there |
| `Listx.DeleteLinked` | headers/listx.h:143-157 | the two writes of `list_del` on a ring unthread that node and nothing else, and leave its old neighbours adjacent |
| `Listx.DeletedIsBypassed` | headers/listx.h:143-157 | after `list_del` the node still points at two adjacent members of its old list, so a second unlink would write what is there already |
| `Listx.AddSound` | headers/listx.h:104-133 | an insertion keeps every ring of the kernel well formed and disjoint, and every stale node of other lists stale |
| `Listx.DeleteSound` | headers/listx.h:143-157 | a removal keeps every ring well formed and disjoint, and makes exactly the removed node stale |
| `Listx.Links.constructor` | phase1/pcb.c:3-5 | the two static pools start as empty rings |
| `Listx.Links.InitListHead` | headers/listx.h:92-95 | the list becomes empty and no other list changes |
| `Listx.Links.InitNode` | phase1/pcb.c:33-36 | initialising a loose node changes no list |
| `Listx.Links.AddBetween` | headers/listx.h:104-109 | in place: the node is inserted at that position of one list |
| `Listx.Links.ListAdd` | headers/listx.h:119-121 | in place: the node becomes the first of one list |
| `Listx.Links.ListAddTail` | headers/listx.h:131-133 | in place: the node becomes the last of one list |
| `Listx.Links.ListDel` | headers/listx.h:155-157 | in place: a member leaves its list and turns stale; on a stale node no link and no list changes |
| `Listx.Links.ListEmpty` | headers/listx.h:178-180 | true exactly for an empty list |
| `Listx.Links.First` | headers/listx.h:190-195 | the field after the head of a nonempty list is its first node |
| `PcbPool.AtMostTheTable` | phase1/pcb.c:250-267 | distinct PCBs on a list are at most MAXPROC, the pigeonhole that makes the iteration cut-off of `searchProcQ` harmless |
| `PcbPool.PcbTable.InitPcbs` | phase1/pcb.c:14-21 | the free list holds the whole table in table order |
| `PcbPool.PcbTable.AllocPcb` | phase1/pcb.c:74-85 | NULL exactly on an empty free list; otherwise the first free row leaves it, with empty child list and inbox, no parent and a pid never used before |
| `PcbPool.PcbTable.InitPcbValues` | phase1/pcb.c:29-54 | a new process has empty list heads of its own, a pid never used before, no parent and no pending receive; the device number keeps its last value |
| `PcbPool.PcbTable.FreePcb` | phase1/pcb.c:62-65 | the row is appended to the free list |
| `PcbPool.PcbTable.InsertProcQ` | phase1/pcb.c:116-119 | the process is appended to the queue |
| `PcbPool.PcbTable.RemoveProcQ` | phase1/pcb.c:143-153 | NULL exactly on an empty queue; otherwise the first process, taken off |
| `PcbPool.PcbTable.OutProcQ` | phase1/pcb.c:163-177 | the loop finds the process exactly if it is on the queue and takes exactly it off |
| `PcbPool.PcbTable.SearchProcQ` | phase1/pcb.c:250-267 | 1 exactly for members of the queue, in spite of the cut-off |
| `PcbPool.PcbTable.UnlockPcbDevNo` | phase1/pcb.c:277-286 | takes off the first process of the queue that is blocked on that device, if there is one |
| `PcbPool.PcbTable.EmptyChild` | phase1/pcb.c:185-188 | true exactly for a process without children |
| `PcbPool.PcbTable.InsertChild` | phase1/pcb.c:197-201 | the child is appended to the child list and gets its parent |
| `PcbPool.PcbTable.RemoveChild` | phase1/pcb.c:210-220 | the first child leaves the list, turns stale there and keeps its parent field |
| `PcbPool.PcbTable.OutChild` | phase1/pcb.c:230-240 | a child on its parent's list leaves it; one that `removeChild` took off already only loses its parent field, and no list changes |
| `PcbPool.FirstOnDevIn` | phase1/pcb.c:277-286 | the process found is on the queue and blocked on that device; none is found only if none is |
| `PcbPool.FirstOnDevIsFirst` | phase1/pcb.c:277-286 | nobody before the process found waits for that device |
| `MsgPool.MsgTable.InitMsgs` | phase1/msg.c:12-18 | the free list holds the whole table, last row first |
| `MsgPool.MsgTable.AllocMsg` | phase1/msg.c:40-54 | NULL exactly on an empty pool; otherwise the first free message, cleared and on no list |
| `MsgPool.MsgTable.InsertMessage` | phase1/msg.c:86-89 | the message is appended to the inbox |
| `MsgPool.MsgTable.PushMessage` | phase1/msg.c:99-102 | the message becomes the first of the inbox |
| `MsgPool.MsgTable.PopMessage` | phase1/msg.c:114-140 | the first message that the filter accepts leaves the inbox and turns stale; NULL exactly if none is accepted |
| `MsgPool.MsgTable.FreeMsg` | phase1/msg.c:26-30 | unlinking the message a second time changes nothing, and it is appended to the pool |
| `MsgPool.MsgTable.PopAndFree` | phase2/exceptions.c:52-71 | pop then free: the inbox loses exactly its first matching message, the pool gains it at the tail, all rings stay well formed |
| `MsgPool.MsgTable.HeadMessage` | phase1/msg.c:150-156 | the first message, which stays |
| `MsgPool.FirstMatchIn` | phase1/msg.c:114-140 | the selected message is in the inbox and matches; none is selected only if none matches |
| `MsgPool.FirstMatchIsFirst` | phase1/msg.c:114-140 | nothing before the selected message matches |
| `Devices.DecodeInvertsCommand` | phase2/ssi.c:137-171 | an address is the command register of a given device exactly if it decodes to that device, so at most one device has it |
| `Devices.GetDeviceNo` | phase2/interrupts.c:72-91 | the highest device whose bit is set in the bitmap, -1 exactly if none is |
| `Devices.HighestDevice` | phase2/interrupts.c:72-91 | the device is n exactly if bit n is the highest one in the low byte of the bitmap |
| `Vm.AddressesDecode` | phase3/utils.c:133-146 | the addresses that `printDevice` and `flashOp` compute decode to the printer, terminal or flash device meant and to no other |
| `Vm.FlashCommand` | phase3/vmSupport.c:118-119 | block number and operation can be read back from the command value |
| `Nucleus.Nucleus.constructor` | phase2/initial.c:61-107 | `main` hands the scheduler the SSI and the test process, ready in this order, with all other rows and all messages free |
| `Nucleus.Nucleus.Scheduler` | phase2/scheduler.c:10-35 | in place: dispatches the first ready process, or HALT, PANIC or WAIT by the counters |
| `Nucleus.Nucleus.SendMessage` | phase2/exceptions.c:13-34 | in place: no message, no destination, or a sleeping destination made ready and the message appended to its inbox (destinations that SendKeepsIff admits) |
| `Nucleus.Nucleus.ReceiveMessage` | phase2/exceptions.c:46-73 | in place: the first accepted message is taken and freed and the program counter moves on; or the receive stays pending and the scheduler runs |
| `Nucleus.Nucleus.CreateProcess` | phase2/ssi.c:11-28 | in place, for a living requester: NOPROC on a full table; otherwise a new ready child of the requester |
| `Nucleus.Nucleus.DoIO` | phase2/ssi.c:125-173 | in place: the two nested loops queue the requester once, on the device whose command register the address is, and nowhere for any other address |
| `Nucleus.Nucleus.InsertDeviceQ` | phase2/ssi.c:98-115 | in place: the process joins the queue of its line |
| `Nucleus.Nucleus.WaitForClock` | phase2/ssi.c:235-239 | in place: the requester joins the pseudo-clock queue and is counted |
| `Nucleus.Nucleus.IsPcbBlockedOnDevice` | phase2/ssi.c:36-62 | in place: takes the process off the first of the tried queues that holds it, and tells whether one did |
| `Nucleus.Nucleus.TerminateProcess` | phase2/ssi.c:72-89 | in place: the recursion terminates (by the size of the subtree) and does what the recursive function on values does, though each descendant is unlinked from its sibling list twice |
| `Nucleus.Nucleus.KillProcess` | phase2/ssi.c:72-89 | in place: kills the subtree that the child lists describe |
| `Nucleus.Nucleus.SSIRequest` | phase2/ssi.c:278-315 | in place: each service code does its service and returns its result, as `ServiceDoes` states it |
| `Nucleus.Nucleus.Die` | phase2/exceptions.c:125-130 | in place: a process without support structure dies with its progeny and the scheduler runs |
| `Nucleus.Nucleus.ExitInterruptHandler` | phase2/interrupts.c:122-129 | in place: the scheduler runs exactly if nobody was running |
| `Nucleus.Nucleus.IntervalTimerHandler` | phase2/interrupts.c:32-50 | in place: the loop empties the pseudo-clock queue, and each waiter gets one message of the SSI and becomes ready, in queue order |
| `Nucleus.Nucleus.DeviceHandler` | phase2/interrupts.c:137-185 | in place: the first process blocked on the interrupting device of the right (sub)queue gets its status and becomes ready: the step that `IoAnswered` is about |
| `Nucleus.Nucleus.PLTHandler` | phase2/interrupts.c:12-21 | in place: the running process goes back to its saved state and to the tail of the ready queue, and the scheduler runs |
| `Invariant.SendKeeps` | phase2/exceptions.c:13-34 | a send keeps the invariant: rings, counters, pids, the process tree, message senders, no lost wake-up |
| `Invariant.SendKeepsIff` | phase2/exceptions.c:28-31 | it keeps it exactly if the destination is not soft-blocked (or the pool is empty) |
| `Invariant.ReceiveKeeps` | phase2/exceptions.c:46-73 | a receive keeps it: whoever falls asleep has no message that it waits for |
| `Invariant.MatchIsIdentity` | phase1/msg.c:133 | comparing pids selects exactly the messages of one PCB, since pids are never reused |
| `Invariant.ScheduleKeeps` | phase2/scheduler.c:12 | a dispatch keeps the invariant |
| `Invariant.CreateKeeps` | phase2/ssi.c:11-28 | process creation for a living requester keeps it, with a reused row and a stale inbox |
| `Invariant.CreateKeepsIff` | phase2/ssi.c:11-28 | with a free row, process creation keeps it exactly if the requester is alive: a requester killed while its request waited gets a child that nobody can reach, or becomes its own parent |
| `Invariant.CreateStillNothing` | phase1/pcb.c:53 | reusing a row wakes nobody and hides no message: who waited for that PCB still has nothing from it |
| `Invariant.WaitClockKeepsIff` | phase2/ssi.c:235-239 | the clock service keeps it exactly for a requester that already waits for a message |
| `Invariant.DoIoKeepsIff` | phase2/ssi.c:125-171 | an I/O request keeps it exactly for the command register of a device and a living, unblocked requester other than the SSI |
| `Invariant.DoIoCountsIff` | phase2/ssi.c:127 | softBlockCount, raised before the search, stays right exactly if the address is a command register |
| `Invariant.TickKeeps` | phase2/interrupts.c:32-50 | the interval timer keeps it |
| `Invariant.DeviceDoneKeeps` | phase2/interrupts.c:137-185 | a device interrupt keeps it |
| `Invariant.PreemptKeeps` | phase2/interrupts.c:12-21 | a time slice keeps it |
| `Terminate.KillTreeGone` | phase2/ssi.c:72-89 | `terminateProcess` in closed form: the post-order listing of the subtree is appended to the free list, the members leave every queue and nothing else does, both counters drop by what left, the rest of the forest is as before |
| `Terminate.KillAllGone` | phase2/ssi.c:80-81 | the same for the loop over the children |
| `Terminate.UnblockedIffKillable` | phase2/ssi.c:36-62 | a process is off every queue when it is freed exactly if it was on none, waited for the clock, or was blocked on a device whose number is its line |
| `Terminate.FirstDeviceIsMissed` | phase2/ssi.c:39-57 | a counterexample: a process blocked on device 0 of any line stays on its queue when it is freed |
| `Terminate.GoneTwice` | phase2/ssi.c:80-81 | killing twice in a row is killing both subtrees |
| `Subtrees.BuildAt` | phase1/pcb.c:197-201 | the child lists of a reachable state describe a finite tree below every live process |
| `Subtrees.BuildNoDup` | phase2/ssi.c:80-87 | no process occurs twice in it, so none is freed twice |
| `Subtrees.TreeClosed` | phase2/ssi.c:80-81 | every child of a killed process is killed |
| `Subtrees.TreeHasParents` | phase2/ssi.c:80-86 | every killed process but the first has a killed parent |
| `Subtrees.ParentsComeLater` | phase2/ssi.c:80-88 | children are freed before their parents: the process itself comes last, and every other one before its parent |
| `Subtrees.KillGone` | phase2/ssi.c:72-89 | the closed form for every live process of a reachable state whose progeny is killable |
| `Subtrees.KillKeeps` | phase2/ssi.c:72-89 | killing such a progeny keeps the invariant |
| `Subtrees.KillKeepsIff` | phase2/ssi.c:72-89 | and only such: killing a live process keeps the invariant exactly if it is not the SSI and each process killed is on no queue, waits for the clock, or is blocked on a device whose number is its line |
| `Subtrees.DeadKillBreaks` | phase2/ssi.c:72-89 | killing a process that is dead already never keeps it: its row is freed a second time |
| `Boot.InitialExists` | phase2/initial.c:51-102 | such an initial state exists |
| `Boot.InitialInv` | phase2/initial.c:61-105 | the state that `main` builds satisfies the invariant |
| `Runs.StepKeeps` | phase2/exceptions.c:82-116 | every system call, service, trap and interrupt keeps the invariant |
| `Runs.RunKeeps` | phase2/ssi.c:325-342 | so does every run |
| `Runs.ReachableInv` | phase2/initial.c:51-105 | the invariant holds in every reachable state, and the processor idles only when nobody is ready |
| `Runs.SomethingIsReachable` | phase2/initial.c:104-105 | the state after the first dispatch is reachable |
| `Runs.PendingKept` | phase2/exceptions.c:57-62 | nothing but the process's own receive and the end of its own time slice changes what it waits for: whoever wakes it, it repeats the same receive |
| `Runs.SliceSendsBack` | phase2/interrupts.c:18 | the end of a time slice sends a process back to the receive in which it slept last; it leaves it at the receive it was at exactly if it was about to repeat one, or has never slept |
| `Runs.ReceiveSettles` | phase2/exceptions.c:52-72 | a receive hands over an accepted message and is done, or leaves the process off every queue, its state saved at that receive, with nothing acceptable in its inbox |
| `Verdicts.OnePlace` | phase1/pcb.c:116-177 | every PCB is in exactly one place: free, running, on one of eight queues, or waiting for a message |
| `Verdicts.CountersCount` | phase2/ssi.c:23-28 | in every reachable state processCount is the number of live processes and softBlockCount the number of those blocked on the clock or a device |
| `Verdicts.VerdictsAreRight` | phase2/scheduler.c:12-27 | HALT exactly when the SSI is alone, PANIC exactly when there are others and all wait for messages, WAIT exactly when somebody waits for the clock or a device; the silent fourth case never occurs |
| `Verdicts.PanicIsDeadlock` | phase2/scheduler.c:18-19 | at PANIC each live process waits for a message that it does not have, and no interrupt would change anything |
| `Verdicts.IdleCanWake` | phase2/scheduler.c:20-26 | at WAIT some interrupt makes a process run |
| `Order.SenderOrder` | phase1/msg.c:114-140 | over every run and for every pair of processes, whatever mix of receives: what was received is a prefix of what was sent, and the rest is in the inbox in order |
| `Order.StepInOrder` | phase2/exceptions.c:13-73 | each step moves messages of a pair only from the sender to the tail of the inbox and from its first message of that sender to the receiver |
| `Mail.PayloadsTake` | phase1/msg.c:121-138 | receiving from one sender or from anyone takes the oldest message of its sender |
| `Mail.WakeAllInFlight` | phase2/interrupts.c:39-48 | the timer sends each clock waiter exactly one message, and no one else any |
| `Accounting.EveryMessageIsSomewhere` | phase1/msg.c:26-54 | free messages, messages in live inboxes and lost messages make up MAXMESSAGES, each counted once |
| `Accounting.StepLoses` | phase2/exceptions.c:15-31 | messages are lost one at a time by sends to dead processes and inbox by inbox by kills, by nothing else, and never come back |
| `Accounting.MessageAccount` | phase2/exceptions.c:15-31 | over every run from `main`: what is still usable is MAXMESSAGES less the losses on the way |
| `RoundRobin.StepAdvances` | phase2/scheduler.c:12 | no step moves a ready process back, and a dispatch moves it forward or runs it |
| `RoundRobin.KillLeavesReady` | phase2/ssi.c:72-89 | killing takes nobody else out of the ready queue |
| `RoundRobin.RoundRobinBound` | phase2/scheduler.c:12 | a process with i others before it runs after at most i + 1 calls of the scheduler, fewer than MAXPROC, unless its own I/O request takes it off the queue |
| `Replies.ExactlyOnce` | phase2/ssi.c:325-342 | for a client that asks again only after its last answer: an unanswered request is in exactly one of the SSI's inbox, its loop, a blocked queue or, answered, the client's inbox; no request is answered twice |
| `Replies.HandlersAnswer` | phase2/ssi.c:235-239 | serving CLOCKWAIT or DOIO blocks the requester, sends it nothing, and the loop listens again |
| `Replies.OnlyHandlersUnblock` | phase2/interrupts.c:39-48 | while a client is blocked, no step of anyone gives it a message of the SSI but an interrupt of the timer or of a device, and that one unblocks it |
| `Replies.WhatFails` | phase2/ssi.c:332-340 | an answer is lost exactly if the pool is empty at the reply, or the service returned NOPROC: a full table or a value equal to it |
| `Replies.InterruptTrades` | phase2/interrupts.c:39-48 | an interrupt takes a process off a blocked queue exactly as it puts one message of the SSI into its inbox |
| `Wakeups.StaysBlocked` | phase2/interrupts.c:137-185 | no step but its own interrupt takes a living process off a blocked queue or gives it a message of the SSI |
| `Wakeups.ClockReadies` | phase2/interrupts.c:36-48 | the timer appends all clock waiters to the ready queue, in the order in which they wait |
| `Answers.WaitersMove` | phase1/pcb.c:277-286 | first come, first served, for each single device in every step of the nucleus: a request goes to the end of its line, an interrupt of that device takes the first, a kill takes the killed, and nothing else changes the line |
| `Answers.RequestInLine` | phase2/ssi.c:137-171 | a request that names the register by its address puts its client at the end of the line for exactly that device, or half of a terminal |
| `Answers.RaisedFiresIff` | phase2/interrupts.c:142-172 | from the line, the bitmap and the status words: an interrupt concerns a device exactly if it is the highest one signalled on that line, and of a terminal that half |
| `Answers.IoAnswered` | phase2/ssi.c:125-173 | over runs: from the request on, whatever other devices, the other half of the terminal and the timer do, the client stays blocked and hears nothing; the interrupt of its device makes it ready and gives it exactly the status of that device |
| `Answers.IoAnsweredInTurn` | phase2/interrupts.c:174-183 | with i others in line before it the client is answered by one of the next i + 1 interrupts of the device, with the status of that one, and hears nothing before |
| `Answers.ClockAnswered` | phase2/ssi.c:235-239 | over runs: a client of CLOCKWAIT stays blocked and hears nothing until the next tick, whatever devices do; that tick makes it ready and gives it 0 |
| `Services.UnderIsProgeny` | phase2/ssi.c:80-81 | those that terminateProcess kills are the living descendants of its argument, by the parent fields |
| `Services.ServiceDoes` | phase2/ssi.c:278-315 | CREATEPROCESS returns a process that was dead and is the ready youngest child of the client now, or NOPROC and no change exactly if none is dead; TERMPROCESS kills exactly the living descendants of its target, or of the client; DOIO and CLOCKWAIT put the client where it waits; the reading services change nothing; an unknown code kills the client |
| `Services.ServesThenReplies` | phase2/ssi.c:336-340 | the loop keeps what the service returned for the client that asked, or listens again if it is NOPROC |
| `Services.ReplyIsSent` | phase2/ssi.c:336-340 | nothing else happens in the loop before the reply, and the reply puts exactly that value into the inbox of that client, if it lives and the pool has a message |
| `SwapMutex.CanStart` | phase3/utils.c:19-23 | a state from which the mutex can start is reachable |
| `SwapMutex.MutualExclusion` | phase3/utils.c:19-34 | over every run of `mutex` and any number of clients, even with lost messages, time slices of clients that end anywhere and clients that are killed at any time, also while they wait: at most one process is between grant and release |
| `SwapMutex.GrantsInTurn` | phase3/utils.c:19-48 | in every such run, while no message of the protocol is lost, grants follow the arrival order of requests |
| `SwapMutex.StepSafe` | phase3/utils.c:19-48 | each step of anyone keeps the tie between roles, messages in the server's inbox and grants under way; of clients it asks only that they send to the server in turn |
| `SwapMutex.SeatAfterTake` | phase3/utils.c:24-32 | when the server takes a message, every process still has the place in the protocol that its role says: the sender of a request becomes the one granted, the holder that released becomes one of the others |
| `SwapMutex.WhatTheServerTakes` | phase3/utils.c:24-32 | what it takes from anyone is the oldest request, of a process that waits for the grant or was killed while it did; what it takes from the holder is its release, since the holder is not inside any more |
| `SwapMutex.SpeakSafeIff` | phase3/utils.c:44-48 | the condition on clients is exact: a message of a client to the server keeps that tie if and only if the client is outside or inside, or has got the PCB of a process that was killed while it waited and of which nothing is left |
| `StrayReleases.StrayReleaseStarves` | phase3/sysSupport.c:52-55 | a defect: `mutexRecv` still names a process that has released the mutex, so its trap releases again; in every run that follows, at most one grant comes for each message that was queued, and one to the dead process, then none to anybody, as long as the row of that process is not reused by another client |
| `StrayReleases.StrayIff` | phase3/sysSupport.c:55 | the test of `mutexRecv` lets through the release that the server waits for exactly if the trapping process is inside; otherwise the message is one too many |
| `StrayReleases.TakenLeft` | phase3/utils.c:24-32 | each grant uses up one of the messages queued up to the stray one, and the holder's release none |
| `Slices.SliceSafeIff` | phase2/interrupts.c:18 | the end of a time slice of the mutex server is harmless exactly if the server has come no further than the receive at which its saved state stands, or at both places has nothing to do with any living process |
| `Slices.HolderDeafIff` | phase2/interrupts.c:18 | a holder whose time slice ends turns to waiting for a process x that has answered already, with the server waiting for the holder, exactly if it slept last in a receive from x: that of its grant, or that of a flash transfer |
| `Slices.SlicedHolderStarves` | phase2/interrupts.c:18 | a defect: in every run that follows, in which x sends it nothing, nobody is granted the mutex, as long as its row is not reused; if x is the server, no promise of x is needed |
| `Errands.HolderServed` | phase3/vmSupport.c:125-128 | the second case is reachable: from every initial state there is a run to a holder that has asked the SSI, slept, been answered, and works on, so that the end of its time slice sends it back to a receive from the SSI |
| `Rounds.Round` | phase3/utils.c:19-48 | from every idle state a process that asks is granted the mutex, works, and can release it |
| `Rounds.SomebodyGetsIn` | phase3/utils.c:19-48 | from the first dispatch there is a run to a process inside, whose time slice can end there, and one step on to one that has left and whose trap would release again |
| `Inboxes.SendersTake` | phase1/msg.c:128-138 | a selective receive removes the first message of its sender and keeps the order of the others |
| `PageTable.PageOfHi` | phase3/vmSupport.c:148-150 | the page number decoded from entry i, with the bound check, is i |
| `PageTable.HiInjective` | phase3/initProc.c:160-167 | no two entries of all page tables have the same EntryHI |
| `PageTable.RefillFits` | phase2/initial.c:124-134 | the entry that the bound check selects matches the access exactly on pages 0 to 30 and the stack page |
| `PageTable.MappedIsValid` | phase3/vmSupport.c:184-187 | after mapping, the entry is valid and writable and points at the frame, whatever it held before |
| `PageTable.MappedKeepsFlags` | phase3/vmSupport.c:183-186 | the other flags of the last 12 bits survive the mapping |
| `PageTable.InvalidatedIsInvalid` | phase3/vmSupport.c:164 | clearing the bit makes the entry invalid |
| `PageTable.InvalidatedKeepsRest` | phase3/vmSupport.c:162-166 | only the valid bit is cleared: the bits above it and below it stay |
| `Paging.PickFromIs` | phase3/vmSupport.c:66-75 | the lowest free row, or on a full pool the counter's C remainder, and only then the counter moves |
| `Paging.FullPickIsFrame` | phase3/vmSupport.c:68-74 | on a full pool the result is a frame exactly if the counter is past its initial -1 |
| `Paging.FirstFullPick` | phase3/vmSupport.c:68-74 | a counterexample: the first call on a full pool yields -1 |
| `Paging.VictimsCycle` | phase3/vmSupport.c:66-75 | any POOLSIZE calls in a row on full pools, whatever happens to the rows between them, name every frame exactly once |
| `Paging.ClearKeeps` | phase3/vmSupport.c:159-166 | invalidating the victim keeps the bijection and the TLB, and changes no page contents |
| `Paging.SaveKeeps` | phase3/vmSupport.c:169 | the write-back changes no page contents |
| `Paging.FetchKeeps` | phase3/vmSupport.c:174 | reading the page in changes no page contents |
| `Paging.RecordKeeps` | phase3/vmSupport.c:178-180 | the new row is of the faulting page |
| `Paging.MapKeeps` | phase3/vmSupport.c:183-189 | mapping makes row and entry correspond, updates the TLB, and changes no page contents |
| `Paging.RefillKeeps` | phase2/initial.c:133-136 | a refill keeps the TLB in agreement with the page table, and changes no memory |
| `Paging.RefillLoads` | phase2/initial.c:133-136 | after a refill, whatever entry it displaces, the TLB has the entry of that page, so that the access goes through exactly if the page is valid; no other entry is lost or changed |
| `Paging.MapsHitIff` | phase3/vmSupport.c:84-94 | the pager loads nothing: after it the access goes through at once exactly if the TLB had an entry of the page |
| `Paging.HitIsResident` | phase3/vmSupport.c:84-94 | an access through the TLB reaches the frame that holds the page, never one the pager is working on |
| `Paging.WriteKeeps` | phase3/vmSupport.c:137-194 | a write at any time changes that page and no other |
| `Paging.TrapKeepsIff` | phase3/sysSupport.c:46-59 | a trap of any process leaves the swap table in order exactly if, of the mutex's holder, the frame it worked on was free or its own, and, of anybody else, no page of its own is on its way out |
| `Paging.TrapLosesIff` | phase3/sysSupport.c:46-59 | a trap loses a live process's page exactly if the holder traps between invalidation and write-back of another space's page that differs from flash |
| `Paging.StepKeeps` | phase3/vmSupport.c:137-194 | every step (a trap under the exact condition of TrapKeepsIff) keeps rows and valid entries in bijection, the TLB coherent, and the contents of all live pages |
| `Paging.FramesAreNotShared` | phase3/vmSupport.c:178-187 | two valid entries of live processes never name one frame, in any run from the initial state with any value of the replacement counter |
| `Paging.RunIsFlat` | phase3/vmSupport.c:137-194 | the reads and writes of a run are a run of flat memories |
| `Paging.Transparent` | phase3/vmSupport.c:137-194 | from the initial state with any value of the replacement counter, in every run whose traps meet that condition, evictions included, each read returns what was last written, or what flash held at the start |
| `Evictions.NoEvictionAfterBoot` | phase3/vmSupport.c:66-74 | from the counter's initial value -1 no run of the model invalidates or writes back a victim: at the first full pool `pick_frame` names no frame |
| `Evictions.EvictedPageComesBack` | phase3/vmSupport.c:137-194 | with the counter past -1 there is a run from the initial state that fills the pool, writes a word, evicts its page, faults it back in and reads the word |
| `Evictions.TrapLosesPage` | phase3/sysSupport.c:46-59 | a counterexample at the end of a run from the initial state with the counter past -1: space 2 traps while a written page of space 1 is on its way out, and the word is gone |
| `Pagers.OnePagerAtATime` | phase3/vmSupport.c:142-193 | over every run of the nucleus, the mutex server and all pagers together, at most one process is between the grant and the end of its pager |
| `Pagers.RunProjects` | phase3/vmSupport.c:137-194 | a run of all pagers together is, for the memory, a run of one pager |
| `Pagers.TransparentForAll` | phase3/vmSupport.c:137-194 | so every process reads what was last written to its pages, in every run of all processes whose traps meet the condition |
| `Pagers.CanStart` | phase3/initProc.c:266-283 | a state from which all this can start is reachable |
| `Pagers.SomebodyPages` | phase3/vmSupport.c:142-148 | and from every initial state there is a run in which a process gets the mutex and starts to page |
| `Vm.SwapPool.constructor` | phase3/initProc.c:266-283 | the loops leave no frame used, no page valid, each entry with its own name, and the counter at -1 |
| `Vm.SwapPool.InitSwapStructs` | phase3/vmSupport.c:16-21 | in place: the row is free |
| `Vm.SwapPool.InitSupportStruct` | phase3/initProc.c:138-169 | in place: the nested loops give every entry its EntryHI and an invalid, writable EntryLO |
| `Vm.SwapPool.IsFrameFree` | phase3/vmSupport.c:29-32 | true exactly for a row without address space |
| `Vm.SwapPool.PickFrame` | phase3/vmSupport.c:66-75 | in place: the loop returns the lowest free frame and leaves the counter, or the frame whose turn it is |
| `Vm.SwapPool.UpdateTLB` | phase3/vmSupport.c:84-94 | in place: a cached entry gets the new word, any other is not loaded, and the rest of the TLB stays |
| `Vm.SwapPool.FlashOp` | phase3/vmSupport.c:107-128 | in place: exactly when the device answers READY one page is copied, between that frame and that block; the answer is returned |
| `Vm.SwapPool.ClearVictim` | phase3/vmSupport.c:162-166 | in place: the step that invalidates the victim |
| `Vm.SwapPool.SaveVictim` | phase3/vmSupport.c:168-171 | in place: the victim's frame goes to its own block, or the transfer failed and nothing changed |
| `Vm.SwapPool.FetchPage` | phase3/vmSupport.c:173-176 | in place: the faulting page goes into the frame, or the transfer failed and nothing changed |
| `Vm.SwapPool.RecordRow` | phase3/vmSupport.c:178-180 | in place: the three stores into the row |
| `Vm.SwapPool.MapPage` | phase3/vmSupport.c:183-189 | in place: the three stores into the entry, and the TLB |
| `Vm.SwapPool.Pager` | phase3/vmSupport.c:137-194 | in place and undisturbed: it succeeds exactly without a modification fault and with the transfers it needs answered READY; then the page is valid, no live page has changed and all is in order; otherwise the process has trapped in a state in which nothing was lost |
| `Vm.SwapPool.RefillHandler` | phase2/initial.c:120-139 | in place: the entry of the page that the access named is in the TLB, and no entry but the displaced one is lost or changed |
| `Vm.SwapPool.ProgramTrap` | phase3/sysSupport.c:46-56 | in place: the loop frees the rows of the trapping address space, and the mutex is released if its process holds it |
| `Klog.PrintWraps` | klog.c:72-77 | no line of the log exceeds a row and the last one has room |
| `Klog.PrintJoined` | klog.c:22-35 | the log loses and adds nothing but line ends |
| `Klog.PrintNewline` | klog.c:25-28 | printing a newline at the end starts an empty line after what is printed without it |
| `Klog.PrintFills` | klog.c:72-77 | text without newlines goes on in the last line and fills one line after the other: each line but the last has exactly KLOG_LINE_SIZE characters, the last has fewer, and together they are the text |
| `Klog.Buffer.constructor` | klog.c:16-18 | the empty log: one empty line, all rows zero |
| `Klog.Buffer.NextLine` | klog.c:81-88 | in place: the log gets a new line and its row is blanked |
| `Klog.Buffer.NextChar` | klog.c:72-77 | in place: a full line ends |
| `Klog.Buffer.KlogPrint` | klog.c:22-35 | in place: the buffer is the window on the log after the text |
| `Klog.Buffer.KlogPrintHex` | klog.c:60-68 | in place: the same for hexadecimal digits |
| `Klog.Buffer.KlogPrintDec` | klog.c:41-57 | in place: the same for decimal digits |
| `Klog.Buffer.LastLines` | klog.c:81-88 | rows indexed modulo 64 hold the last 64 lines, padded with blanks; line 0 with zeros |
| `Klog.Buffer.UnusedRows` | klog.c:18 | rows that no line has reached are zero |
| `Klog.HexDecodes` | klog.c:60-68 | the digits read least significant first are the number, without superfluous zeros |
| `Klog.DecDecodesIff` | klog.c:41-57 | the decimal form is that of the last two digits, so it is the number exactly below 100 |

## Left out

- Register contents, processor time and status bits: a process is its place on the queues, its inbox, the receive it issues next, if it is at one, and the receive at which its saved state stands, if it has ever slept. What a process computes is not part of the model, so one that a time slice sends back may do anything that starts with that receive.
- Interrupts within a service: every SSI service is one step here, though the SSI runs with interrupts on (`phase2/initial.c` line 86) and a handler could run between two writes of `wait4Clock`, `doio` or `terminateProcess`.
- Shutdown in `phase3/initProc.c` lines 297-304, which frees PCBs outside the kernel, the SST services of `phase3/sst.c` and the printing loops: message plumbing over the properties proved here.
- SST `terminate` compares `sw_asid` with `sup_asid - 1` and so frees frames of another address space; it is outside the paging model, whose only way for an address space to end is `programTrapHandler`.
- Two simultaneous faults of one address space, and faults on a page that has become valid: the pager does not look again after the grant.
- NULL destinations of `send`: `searchProcQ` answers 0 for them and the code goes on with a null PCB.
- Counter overflow: `processCount`, `softBlockCount`, `next_pid` and the counter of `pick_frame` are unbounded here, 32 bits wide in the code.
- The TLB holds at most one entry for a name, and which entry `TLBWR` displaces is left open; its 16 places are not modelled.
- Head fields of the static lists are self-pointing before the first use, where static storage holds NULL.
- Nucleus.Nucleus.SendMessage: for a destination that waits for a device or the clock the method is not modelled, because the node would be on two lists at once; `SendKeepsIff` shows that the invariant is lost exactly then.
- Nucleus.Nucleus.CreateProcess: not modelled in place for a requester that is dead, whose child list may never have been set up; the exact condition is `CreateKeepsIff`.
- Invariant.CreateKeeps: requires a living requester; `CreateKeepsIff` shows that the invariant is lost exactly without one.
- Nucleus.Nucleus.DoIO: not modelled for a requester that is dead or waits for a device or the clock already, for the same reason; the exact condition is `DoIoKeepsIff`.
- Nucleus.Nucleus.WaitForClock: not modelled for a requester that is on a queue, for the same reason; the exact condition is `WaitClockKeepsIff`.
- Nucleus.Nucleus.SSIRequest: requires the conditions of the service that it serves, each exact by its own lemma; the three services that only read a field of the requester are one case, since they change nothing.
- Nucleus.Nucleus.TerminateProcess: not modelled in place for a member that stays on a queue when it is freed, because its node would be on two lists; `KillKeepsIff` shows that the invariant is lost exactly then.
- Nucleus.Nucleus.KillProcess: as `TerminateProcess`; and the victim is alive and not the SSI (`DeadKillBreaks`, `KillKeepsIff`).
- Nucleus.Nucleus.Die: as `TerminateProcess`, for the progeny of the running process.
- Terminate.KillTreeGone: the closed form is stated for subtrees of killable processes; for others `KillKeepsIff` states that the invariant is lost, not what the lists become.
- Terminate.KillAllGone: the same for the loop over the children.
- Subtrees.KillGone: the same.
- PcbPool.PcbTable.InitPcbValues: the zeroed registers, processor time and support pointer are not in the model's row.
- Vm.SwapPool.FlashOp: the DOIO exchange with the SSI is not repeated here (it is the subject of `Replies`); the device's answer is a parameter, and a transfer that the device does not answer with READY moves nothing.
- Vm.SwapPool.Pager: the exchange with the mutex server is in `SwapMutex` and `Pagers`; the method is the pager that nobody interferes with.
- Vm.SwapPool.ProgramTrap: releases the mutex for its holder; the release that a former holder sends is the subject of `StrayReleases`, and the request to be killed that follows is an event of the nucleus.
- Evictions.TrapLosesPage: excludes the counter's value -1, from which no run evicts a page (`NoEvictionAfterBoot`), so that no page is ever on its way out.
- SwapMutex.MutualExclusion: leaves out what `SpeakSafeIff` and `SliceSafeIff` exclude: a client that sends out of turn, as in `StrayIff` or on the PCB of a process killed while it waited and still queued, and a slice of the server that undoes a part of the exchange.
- SwapMutex.GrantsInTurn: the same.
- SwapMutex.StepSafe: the same.
- Pagers.OnePagerAtATime: leaves out runs in which a process is sent back from the middle of its pager to a receive that was answered already, or is killed there by another; the first never releases the mutex (`SlicedHolderStarves`).
- Pagers.TransparentForAll: the same.
- Paging.SavesVictim: a flash transfer is one step, because no process can reach the frame while it lasts.
- Liveness of the swap mutex: that every request is granted in the end needs a fair scheduler and clients that release.
