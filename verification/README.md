# Verified model of the fork code, the process monitor and the network monitor

This project models the parts of the repository that keep state under many branches and many actors, and proves
what they promise for all inputs, all runs or all interleavings.

* **Copying an address space** (`VmaTree`, `AddressSpace`, `Accounts`, `MmStruct`): the loop that copies a doubly
  linked list through a pointer-to-pointer, builds the search tree beside it and keeps the kernel's books, with its
  failure labels; set-up, sharing and teardown of the structure around it.
* **Making a task** (`Tasks`, `TaskStacks`, `CopyProcess`, `ForkByFlags`): the per-CPU cache of kernel stacks and its
  accounting, and the long sequence of acquisitions of `copy_process` with its ladder of labels, on top of both; what a
  success comes to, flag by flag.
* **Over whole runs** (`Sharing`, `SharedObjects`, `ThreadGroups`, `ForkRefinement`, `ProcessTree`, `Vfork`, `Unshare`,
  `ThreadLimit`): reference counts, thread groups, the process tree with orphans, the vfork handshake, unsharing under
  races, the limit on threads.
* **Arithmetic** (`ThreadLimit`, `LoadAverage`): the limit computed from the memory, and the load averages.
* **The monitors** (`DeadProcesses`, `Hub`, `Terminal`): the list of dead processes that `/proc/hw1` shows and clears,
  the hub's accounts of transmit, busy and idle time, the terminal's retransmission detector.

`Wrappers` holds an option type, machine words and sums.  `dafny verify dfyconfig.toml` checks everything.

## How it is modelled

One configuration is fixed: MMU, NUMA, VMAP_STACK, with THREAD_INFO_IN_TASK a parameter where stacks are released.
Kernel functions that the repository does not contain appear as methods that may fail at will and otherwise move a
counter: memory commitment, policies, anonymous-memory attachment, the slabs, credentials, audit, namespaces, pids and
the like.  What another component owns is kept in *books*: records of counters whose equality before and after is what
"nothing leaked" means.  `PostAll` says what the books are once a list of areas is linked, and `Accounts` says what that
means in sums and counts.  In `CopyProcess` a method `From...` runs from one step of `copy_process` to the end; `World`
and `Stacks` gather what it must restore when anything in it fails.

Whole runs are sequences of steps, each enabled in the state it meets.  `Sharing` and `Vfork` interleave the steps of
any tasks; a region under a lock is one step.  `Unshare` lets the other sharers change a count arbitrarily between the
look at it and the locked swap.  `SharedObjects` has a method for each step of `Sharing` that the modelled files have
code for, and shows that the real structures are those of the next state; `ForkRefinement` does the same for
`copy_process` and the fork step of `ThreadGroups`, with identities, groups, handlers and address spaces.  In `Terminal`,
`Hub` and `DeadProcesses` a ghost history of events is the specification, and each handler is proved to keep the
variables equal to what the history means.

Four places behave otherwise than one may expect; the model follows the code.

* The detector takes an epoch's first sequence number minus one as the last number seen.  In an epoch that starts at 0
  this is the largest word, so every packet counts as a collision.  `DetectorCounts`, `MiscountsOnlyFromZero` and
  `ZeroIsMiscounted` give the exact condition.
* The limit on threads keeps stacks within an eighth of the memory, as its comment says, except in the branch for
  memories too large to multiply when stacks exceed 1 GB.  `SetMaxThreads` gives the exact condition, and
  `HugeStacksOverrun` an input.
* Reading `/proc/hw1` in mode E clears the list inside the show function.  When the text does not fit the buffer,
  seq_file runs the function again, on a list that is empty by then.  `ReadShowsWhatFits` gives the exact condition,
  `APageHolds43` what it means for a page, and `ManyDeathsAreLost` an input.
* A load average below a steady load stops short of it.  `FixedPoints` says where.

## Model

| member | source | states |
|---|---|---|
| `VmaTree.StoreAtLastSlot` | hw1/linux/kernel/fork.c:699-701 | storing the new area through the link slot that the loop carries puts it last in the tree's in-order traversal, whatever rebalancing came before |
| `VmaTree.LastIsRightmost` | hw1/linux/kernel/fork.c:623-624 | in a tree whose traversal has no second copy of its last node, that node is the rightmost one and its right slot is empty |
| `AddressSpace.LinkedAreDistinct` | hw1/linux/kernel/fork.c:694-697 | a list whose next and prev links invert each other has no node twice |
| `AddressSpace.DupVma` | hw1/linux/kernel/fork.c:641-681 | an area is copied without VM_LOCKED, VM_LOCKONFAULT and the two userfaultfd flags and without a userfaultfd context, owned by the child, holding exactly one charge, policy, anon_vma and its file counts; each of the four failures leaves the books as they were |
| `AddressSpace.AttachFile` | hw1/linux/kernel/fork.c:664-681 | a file-backed copy takes one file reference, one deny-write and one writable-mapping count, each only where its flag is set, and is one area more in the interval tree of the mapping |
| `AddressSpace.LinkVma` | hw1/linux/kernel/fork.c:694-697 | storing through the pointer-to-pointer appends the area to the doubly linked list, links inverse on both sides |
| `AddressSpace.LinkTree` | hw1/linux/kernel/fork.c:699-701 | after the link and any order-preserving rebalance the tree's traversal is the list with the new area at its end |
| `AddressSpace.Append` | hw1/linux/kernel/fork.c:694-703 | one area more keeps list, tree and count equal and leaves all three carried positions at the new end |
| `AddressSpace.CopyNext` | hw1/linux/kernel/fork.c:641-711 | either nothing changes or one linked area more is posted to the books, even when copying its pages then fails |
| `AddressSpace.CopyInherited` | hw1/linux/kernel/fork.c:641-711 | an inherited area is counted as seen exactly if it has been linked |
| `AddressSpace.SkipArea` | hw1/linux/kernel/fork.c:637-640 | an area marked not to be copied takes its pages off the total and off the class that it is counted in, and touches nothing else |
| `AddressSpace.CopyStep` | hw1/linux/kernel/fork.c:634-711 | each turn of the loop keeps: the child maps exactly what it inherits from the areas seen, and the books differ from the start by those areas |
| `AddressSpace.CopyAreas` | hw1/linux/kernel/fork.c:633-714 | the whole loop, at success or at any break: child list, tree, count and books fit the prefix of the parent that was seen; the parent is outside the frame |
| `AddressSpace.GetExeFile` | hw1/linux/kernel/fork.c:991-1009 | the executable is referenced unless its last reference is gone |
| `AddressSpace.DupMmap` | hw1/linux/kernel/fork.c:595-731 | every exit: semaphores and uprobe section closed, child well formed and made of fresh areas, books equal to the start plus exactly the linked areas, and the areas copies, flag by flag and in increasing order, of exactly those inheritable ones that were reached; success: of all of them, and total_vm, data_vm, exec_vm and stack_vm less the excluded pages |
| `AddressSpace.InheritedPrefix` | hw1/linux/kernel/fork.c:634-711 | what has been copied at any point is a prefix of what the child will have |
| `AddressSpace.InheritedIsCopied` | hw1/linux/kernel/fork.c:637-662 | the inherited areas match, in increasing order, exactly the parent's areas without VM_DONTCOPY: same start, pages, class, file and open hook, none of the four flags, every other flag as in the parent |
| `Accounts.PostAllCharges` | hw1/linux/kernel/fork.c:642-659 | posting a list of areas charges exactly the pages of its accounted areas and one policy, anon_vma and area each |
| `Accounts.PostAllFileRefs` | hw1/linux/kernel/fork.c:665-669 | a file's references grow by the number of linked areas that map it |
| `Accounts.PostAllDenyWrite` | hw1/linux/kernel/fork.c:670-671 | an inode's write count falls by the number of linked areas that deny writing |
| `Accounts.PostAllWritable` | hw1/linux/kernel/fork.c:672-675 | a mapping's writable count grows by the number of linked shared areas |
| `Accounts.PostAllMapped` | hw1/linux/kernel/fork.c:676-680 | the areas in a mapping's interval tree grow by the linked areas that map it |
| `Accounts.TotalFollowsTheCopy` | hw1/linux/kernel/fork.c:618-640 | if the parent's four page counts are the sums over its areas, the child's are the sums over the copied ones |
| `Accounts.PagesByClass` | hw1/linux/kernel/fork.c:618-621 | each of the four page counts is the sum over the areas of its class |
| `Accounts.UnpostPostAll` | hw1/linux/kernel/fork.c:894-929 | giving the areas of a list back from its head undoes posting them, for any list |
| `MmStruct.TearDownUndoesHold` | hw1/linux/kernel/fork.c:797-929 | set-up, executable and all areas of an address space cancel exactly against teardown and free |
| `MmStruct.ExitMmap` | hw1/linux/kernel/fork.c:906-917 | walking the list gives back what each area holds, each once |
| `MmStruct.Mmdrop` | hw1/linux/include/linux/sched.h:2910-2914 | a lazy holder fewer; the structure is freed by the last holder, and only then |
| `MmStruct.MmgetNotZero` | hw1/linux/include/linux/sched.h:2930-2933 | a reference is handed out exactly if the address space has not been torn down |
| `MmStruct.Mmput` | hw1/linux/kernel/fork.c:931-938 | only the last user tears down, once, giving back areas, executable and module, and frees unless a lazy holder remains |
| `MmStruct.GetTaskMm` | hw1/linux/kernel/fork.c:1036-1050 | a reference to the task's address space, counted, unless it has none or is a kernel thread that only borrows it |
| `MmStruct.MmInit` | hw1/linux/kernel/fork.c:797-848 | success is an empty, singly used address space; a failure has undone its steps and freed the structure once |
| `MmStruct.FillCopy` | hw1/linux/kernel/fork.c:1180-1204 | the module reference is put only if it was got: the failure path clears binfmt before the last put |
| `MmStruct.DupMm` | hw1/linux/kernel/fork.c:1172-1205 | a complete copy, or null and books, module references and locks exactly as before |
| `TaskStacks.Allocator.constructor` | hw1/linux/kernel/fork.c:163-172 | the empty cache at boot satisfies the invariant of placement and balance |
| `TaskStacks.Allocator.AllocThreadStack` | hw1/linux/kernel/fork.c:175-215 | a stack cached on this CPU is taken first and leaves its slot; no other stack changes place |
| `TaskStacks.Allocator.FreeThreadStack` | hw1/linux/kernel/fork.c:217-241 | the stack goes to a free slot of this CPU, or is freed exactly if there is none |
| `TaskStacks.Allocator.AccountKernelStack` | hw1/linux/kernel/fork.c:283-317 | each zone moves by its own number of pages times the page size, no other; the zones together and the group counter move by THREAD_SIZE/1024 |
| `TaskStacks.CreditSum` | hw1/linux/kernel/fork.c:291-305 | whatever zones the pages lie in, the zone counters together move by the size of the stack |
| `TaskStacks.CreditAt` | hw1/linux/kernel/fork.c:294-299 | a zone's counter moves by the number of pages that lie in that zone times the page size |
| `TaskStacks.CreditUndone` | hw1/linux/kernel/fork.c:283-317 | accounting and unaccounting a stack returns every single zone counter |
| `TaskStacks.Allocator.ReleaseTaskStack` | hw1/linux/kernel/fork.c:319-331 | a dead task's stack is unaccounted and placed elsewhere; a task not dead keeps it |
| `TaskStacks.Allocator.TryGetTaskStack` | hw1/linux/include/linux/sched.h:3215-3226 | with the reference count, a stack that is going away is not handed out |
| `TaskStacks.Allocator.PutTaskStack` | hw1/linux/kernel/fork.c:333-339 | any holder may put; the last one, whose task must be dead, releases the stack, once; without the count nobody does here |
| `TaskStacks.Allocator.FreeTask` | hw1/linux/kernel/fork.c:341-361 | the stack goes here exactly in the configuration without the count |
| `TaskStacks.Allocator.CopyKeepingStack` | hw1/linux/kernel/fork.c:526-542 | after the struct copy has aliased the parent's stack, the child's own stack is restored and every other field is the parent's |
| `TaskStacks.Allocator.AttachOrUndo` | hw1/linux/kernel/fork.c:513-592 | a failed copy gives the child's stack back, never the parent's |
| `TaskStacks.Allocator.DupTaskStruct` | hw1/linux/kernel/fork.c:513-592 | a new task with its own accounted stack, or nothing owned or accounted that was not before |
| `TaskStacks.Allocator.DiscardTask` | hw1/linux/kernel/fork.c:1925-1928 | put_task_stack and free_task together release the stack exactly once in both configurations |
| `TaskStacks.Allocator.FailedFork` | hw1/linux/kernel/fork.c:1562-1928 | a fork that fails after duplicating the task leaves owners and every zone counter as they were |
| `CopyProcess.CopyFiles` | hw1/linux/kernel/fork.c:1273-1298 | shares and counts the table, or installs a fresh one; a failure leaves counts alone |
| `CopyProcess.CopyFs` | hw1/linux/kernel/fork.c:1253-1271 | -EAGAIN exactly when a shared fs is in exec; otherwise shared and counted, or fresh |
| `CopyProcess.CopySighand` | hw1/linux/kernel/fork.c:1326-1342 | shares and counts the handlers, or installs fresh ones |
| `CopyProcess.CleanupSighand` | hw1/linux/kernel/fork.c:1344-1354 | one holder fewer, freed with the last |
| `CopyProcess.CopySignal` | hw1/linux/kernel/fork.c:1375-1423 | a thread shares the group; any other task gets a group of one |
| `CopyProcess.CopyMm` | hw1/linux/kernel/fork.c:1207-1251 | a kernel thread has none; CLONE_VM shares and counts; otherwise a complete copy of the parent's areas, which the books carry, or an error and the books as before |
| `CopyProcess.PutMm` | hw1/linux/kernel/fork.c:1898-1900 | a shared address space loses a user; a copy is torn down, and every charge, file reference, mapping count and module is as before the fork |
| `CopyProcess.CopyIo` | hw1/linux/kernel/fork.c:1300-1324 | CLONE_IO shares the context; else a new one carries the priority on exactly if that is valid; one reference is counted for the task |
| `CopyProcess.CopyShared` | hw1/linux/kernel/fork.c:1694-1705 | the four structures from files to signal, or none: each count moves by exactly what the flags share |
| `CopyProcess.CopySetup` | hw1/linux/kernel/fork.c:1679-1693 | accounting, policy, perf, audit and semaphore undo in order, counted one by one; an undo list is shared exactly with CLONE_SYSVSEM |
| `CopyProcess.UnwindShared` | hw1/linux/kernel/fork.c:1901-1909 | the labels give back exactly the structures held, newest first |
| `CopyProcess.UnwindSetup` | hw1/linux/kernel/fork.c:1910-1924 | the labels give back exactly the set-up steps taken |
| `CopyProcess.CopySeccomp` | hw1/linux/kernel/fork.c:1425-1443 | the task takes one reference to the filter of the forking one, if that has one |
| `CopyProcess.Identify` | hw1/linux/kernel/fork.c:1761-1773 | number, exit signal, leader and thread group follow the flags |
| `CopyProcess.LinkTask` | hw1/linux/kernel/fork.c:1835-1868 | a leader joins its leader's process group and session and goes on the lists of processes, of its parent's children and of three kinds of ids, in this order; a thread goes on its group's list and counts there; an idle task on none |
| `CopyProcess.Publish` | hw1/linux/kernel/fork.c:1783-1875 | threadgroup section and both locks are closed again on success and on each failure |
| `CopyProcess.FromNamespaces` | hw1/linux/kernel/fork.c:1709-1898 | from the namespaces on: all counted and linked, or all as before |
| `CopyProcess.FromMm` | hw1/linux/kernel/fork.c:1706-1900 | from the address space on: a failure gives back each area, file reference, count and module |
| `CopyProcess.FromShared` | hw1/linux/kernel/fork.c:1706-1909 | with the structures taken: success shares by the flags, a failure restores counts, slabs and books |
| `CopyProcess.FromCreds` | hw1/linux/kernel/fork.c:1583-1930 | from the credentials on: user processes and credentials return on every failure |
| `CopyProcess.FromLimit` | hw1/linux/kernel/fork.c:1574-1924 | from the process limit on; the flag for an exceeded limit is cleared on success |
| `CopyProcess.FromLimitWithStack` | hw1/linux/kernel/fork.c:1574-1924 | none of it touches the stack of any task or the allocator |
| `CopyProcess.FreeAll` | hw1/linux/kernel/fork.c:1925-1928 | the stack goes back, each zone counter with it, and the filter reference is put |
| `CopyProcess.FromDraft` | hw1/linux/kernel/fork.c:1574-1930 | with the task duplicated: a failure leaves owners, zone counters and everything else as before the duplication |
| `CopyProcess.CheckFlags` | hw1/linux/kernel/fork.c:1515-1554 | -EINVAL exactly for the refused combinations, flag by flag |
| `CopyProcess.CopyProcess` | hw1/linux/kernel/fork.c:1502-1931 | failure at any step leaves every count, list, slab, lock, section, stack owner and zone counter and all books of address spaces as they were; success moves each by exactly what the flags say, and what is not shared is new; a shared fs rules CLONE_NEWNS and CLONE_NEWUSER out, a shared group the pid and user namespaces and unshared handlers, shared handlers an address space of its own; -EINVAL comes for exactly the refused combinations unless a hook returns it; a full thread table is an error |
| `ForkByFlags.IdentityByFlags` | hw1/linux/kernel/fork.c:1761-1842 | number, group, leader, exit signal, parent, process group and session of the new task, flag by flag |
| `ForkByFlags.ListsByFlags` | hw1/linux/kernel/fork.c:1850-1864 | which list gains the task and which pid attachments are made, at the end of each list |
| `ForkByFlags.CountersByFlags` | hw1/linux/kernel/fork.c:1854-1878 | nr_threads, total_forks, the count of one CPU and each service move by one as the task leads, is a thread or is idle; locks and section are as before |
| `ForkByFlags.FailureCounts` | hw1/linux/kernel/fork.c:1883-1930 | after a failure nothing is counted but the filter reference that the task gives back when it is freed |
| `ForkByFlags.GroupsByFlags` | hw1/linux/kernel/fork.c:1843-1858 | the forking task's group gains a thread with CLONE_THREAD and nothing without; a new group has one thread and is an init's exactly for a reaper |
| `ForkByFlags.ExtrasByFlags` | hw1/linux/kernel/fork.c:1300-1324 | the io context is shared, or carries a valid priority on, or there is none; filter inherited, undo list exactly with CLONE_SYSVSEM, no segments |
| `ForkByFlags.StructuresByFlags` | hw1/linux/kernel/fork.c:1253-1423 | of table, fs and handlers either the slab or the use count moves, by one, as the flag says |
| `ForkByFlags.SetupByFlags` | hw1/linux/kernel/fork.c:1583-1693 | each set-up counter moves by one, the undo count only with CLONE_SYSVSEM |
| `ForkByFlags.SharesByFlags` | hw1/linux/kernel/fork.c:1694-1708 | after a success each of the five structures is the forking task's exactly if its flag is given |
| `ForkByFlags.AreasByFlags` | hw1/linux/kernel/fork.c:1207-1251 | without CLONE_VM the child's areas are copies, in order, of exactly the forking task's inheritable ones |
| `Sharing.StepKeepsInv` | hw1/linux/kernel/fork.c:1036-1050 | every atomic step by any task keeps each count equal to its holders |
| `Sharing.ReleaseKeeps` | hw1/linux/kernel/fork.c:931-938 | dropping the last holder tears down and frees in the right order, and touches no other structure |
| `Sharing.SafeInEveryRun` | hw1/linux/kernel/fork.c:894-938 | over every run: counts equal holders, nothing is freed or torn down while held, what nobody holds is freed exactly once, teardown comes once and first |
| `Sharing.SwapFreesTheLastOne` | hw1/linux/kernel/fork.c:2303-2312 | the locked swap frees the old fs exactly when the task is its last holder at that moment |
| `Sharing.PutFreesTheLastOne` | hw1/linux/kernel/fork.c:2314-2334 | the swap of a table frees nothing; the put after it frees the old table exactly when no other holder is left by then |
| `Sharing.AbandonFreesThePrivateCopy` | hw1/linux/kernel/fork.c:2336-2338 | over every run: an fs copy that is not installed has no other holder, so the cleanup may free it without looking at its count |
| `Sharing.EverythingCanBeFreed` | hw1/linux/kernel/fork.c:894-938 | from every state of every run there is a continuation after which every structure has been freed, each exactly once |
| `SharedObjects.IsMmMeansCounted` | hw1/linux/kernel/fork.c:894-938 | the counts and flags of a real address space stand for a structure of the machine exactly if the two-count invariant holds of it |
| `SharedObjects.TakeMm` | hw1/linux/kernel/fork.c:1207-1251 | copy_mm takes the machine's step: parent and child show its next state, in one structure or two by the flag |
| `SharedObjects.PutMm` | hw1/linux/kernel/fork.c:931-938 | mmput takes the machine's step: torn down and freed exactly when the step logs it |
| `SharedObjects.GetTasksMm` | hw1/linux/kernel/fork.c:1036-1050 | get_task_mm takes the machine's step, or none for a kernel thread |
| `SharedObjects.GetMm` | hw1/linux/include/linux/sched.h:2930-2933 | mmget_not_zero takes the machine's step and succeeds exactly if that changes anything |
| `SharedObjects.DropMm` | hw1/linux/include/linux/sched.h:2910-2914 | mmdrop takes the machine's step |
| `SharedObjects.TakeFiles` | hw1/linux/kernel/fork.c:1273-1298 | copy_files takes the machine's step: shared, or a new structure, by the flag |
| `SharedObjects.TakeFs` | hw1/linux/kernel/fork.c:1253-1271 | copy_fs likewise |
| `SharedObjects.TakeSighand` | hw1/linux/kernel/fork.c:1326-1342 | copy_sighand likewise |
| `SharedObjects.DropFiles` | hw1/linux/kernel/fork.c:1908-1909 | exit_files gives the table back to the slab in exactly the step that frees it |
| `SharedObjects.DropFs` | hw1/linux/kernel/fork.c:1906-1907 | exit_fs likewise |
| `SharedObjects.DropSighand` | hw1/linux/kernel/fork.c:1344-1354 | __cleanup_sighand likewise |
| `SharedObjects.CopyOfFs` | hw1/linux/kernel/fork.c:2186-2202 | unshare_fs makes a copy only where the step is enabled, and always there unless it fails; the copy is the step's pending structure |
| `SharedObjects.CopyOfFiles` | hw1/linux/kernel/fork.c:2207-2220 | unshare_fd likewise |
| `SharedObjects.SwapFsOf` | hw1/linux/kernel/fork.c:2303-2312 | the locked swap leaves over for freeing exactly what the machine's step frees |
| `SharedObjects.SwapFilesOf` | hw1/linux/kernel/fork.c:2314-2318 | the swap of the table exchanges what is held and what is pending, both counts unmoved |
| `SharedObjects.AbandonFiles` | hw1/linux/kernel/fork.c:2332-2334 | the put at the end frees exactly when the step does |
| `SharedObjects.AbandonFs` | hw1/linux/kernel/fork.c:2336-2338 | free_fs_struct without a look at the count frees exactly what the step frees |
| `Vfork.StepKeepsInv` | hw1/linux/kernel/fork.c:1073-1103 | every step of parent or child keeps the protocol invariant |
| `Vfork.SafeInEveryRun` | hw1/linux/kernel/fork.c:1073-1103 | in every interleaving the child never touches the completion after the parent returned, it is signalled at most once, and the child's task stays pinned while used |
| `Vfork.ReturnWithoutKillMeansReleased` | hw1/linux/kernel/fork.c:1998-2027 | a return without a kill implies that the child has released its address space |
| `Vfork.NeverStuck` | hw1/linux/kernel/fork.c:1086-1103 | apart from a child that keeps running in user space, somebody can always move |
| `Vfork.NextMoveGetsCloser` | hw1/linux/kernel/fork.c:1086-1103 | and those moves bring the parent's return strictly closer |
| `Vfork.KillEndsTheSleep` | hw1/linux/kernel/fork.c:1086-1103 | from every state of every run in which the parent waits, a kill can end its sleep and it can return; a child that has not released its address space need not |
| `Vfork.SleepCanEndWithoutKill` | hw1/linux/kernel/fork.c:1086-1103 | and from every state it can return without any further kill, after the child's release if there was no kill before |
| `Vfork.TaskCanBeFreed` | hw1/linux/kernel/fork.c:1073-1103 | after the return, the child's task structure can always still be freed |
| `ThreadGroups.WithStopFlags` | hw1/linux/include/linux/sched.h:838-855 | stop-flag updates leave the bit for init, and all bits outside the mask, to what was there or is asked for |
| `ThreadGroups.NrProcesses` | hw1/linux/kernel/fork.c:125-134 | the loop over the CPUs computes the sum of the per-CPU counts as an int that wraps |
| `ThreadGroups.ForkKeepsPairs` | hw1/linux/kernel/fork.c:1761-1773 | a fork keeps: same group shares handlers, same handlers share the address space, group, tgid and leader coincide |
| `ThreadGroups.ForkKeepsCounts` | hw1/linux/kernel/fork.c:1835-1866 | a fork keeps the three counts of every group equal to its members |
| `ThreadGroups.ForkKeepsTotals` | hw1/linux/kernel/fork.c:1854-1865 | a fork keeps nr_threads equal to the hashed tasks and the per-CPU counts summing to the leaders, wrapping included |
| `ThreadGroups.LeaderGoesLast` | hw1/linux/include/linux/sched.h:3084-3090 | no other hashed task is left in its group when a leader is unhashed |
| `ThreadGroups.StepKeepsInv` | hw1/linux/kernel/fork.c:1761-1866 | every fork, exit, reaping, release and flag update keeps the whole invariant |
| `ThreadGroups.HandOverKeepsInv` | hw1/linux/include/linux/sched.h:715-725 | giving the children of a task that has exited to another parent keeps the whole invariant |
| `ThreadGroups.TaskCanGo` | hw1/linux/include/linux/sched.h:3084-3090 | a running task without children can exit, be reaped and be freed, a leader once no other thread of its group is hashed; nothing else about the tasks changes |
| `ThreadGroups.MateMayInherit` | hw1/linux/include/linux/sched.h:1632-1638 | the children of a task that has exited can go to any running thread of its group |
| `ThreadGroups.GroupsInEveryRun` | hw1/linux/include/linux/sched.h:681-694 | over every run from boot: group, leader and tgid coincide, sharing is nested, exit_signal >= 0 exactly for leaders, counts equal members, nr_threads is the hashed tasks and the per-CPU counts add up to the leaders |
| `ThreadGroups.ProcessesAreLeaders` | hw1/linux/kernel/fork.c:125-134 | nr_processes is the number of hashed leaders although single CPUs wrap below zero, as long as it fits an int |
| `ForkRefinement.ForkMirrors` | hw1/linux/kernel/fork.c:1761-1866 | identity, structures, groups and counters that a fork leaves are those of the machine's next state, no two numbers sharing a structure |
| `ForkRefinement.ForkTask` | hw1/linux/kernel/fork.c:1502-1931 | copy_process on real tasks, signal structures, handlers and address spaces: if it succeeds the Fork step was enabled and they mirror the next state, if it fails they mirror the same state |
| `ProcessTree.ChainsEndAtTheRoot` | hw1/linux/kernel/fork.c:1801-1807 | every chain of real parents strictly decreases in the order in which the groups were made, and ends in the first group |
| `ProcessTree.HandOverIsNeverStuck` | hw1/linux/include/linux/sched.h:715-725 | a task that has exited can give its children away as long as the first init above it lives |
| `ProcessTree.HandOverStaysBelow` | hw1/linux/include/linux/sched.h:1632-1638 | no change of parents takes a task out of the tree below an init |
| `ProcessTree.ForkStaysBelow` | hw1/linux/kernel/fork.c:1536-1544 | what a task below an init forks is below it, and a new group has its parent there |
| `ProcessTree.StepKeepsInit` | hw1/linux/include/linux/sched.h:838-855 | no step makes an init killable |
| `ProcessTree.StepKeepsTree` | hw1/linux/kernel/fork.c:1801-1807 | every fork, exit, hand-over, reaping and release keeps the tree |
| `ProcessTree.RunStaysBelow` | hw1/linux/include/linux/sched.h:1632-1638 | over every run, whoever exits: what is below an init stays below it while it is hashed |
| `ProcessTree.SingleRooted` | hw1/linux/kernel/fork.c:1536-1544 | in every run from boot, exits and hand-overs included: no fork below an init makes a group whose parent is a parent of the init at that moment, or is not below the init |
| `Unshare.ImpliedIsLeast` | hw1/linux/kernel/fork.c:2239-2259 | the implication rules, applied once in the code's order, give the least closed flag set |
| `Unshare.ImpliedFlagByFlag` | hw1/linux/kernel/fork.c:2239-2259 | which asked-for flags imply CLONE_FS, CLONE_THREAD and CLONE_SIGHAND; no other flag is implied |
| `Unshare.CheckAsked` | hw1/linux/kernel/fork.c:2239-2263 | what is asked for is accepted exactly if all flags are known, the group has one thread, the handlers one user and the mm no other task wherever that matters |
| `Unshare.NamespacesFlagByFlag` | hw1/linux/kernel/fork.c:2280-2283 | new namespaces are made for exactly six flags |
| `Unshare.CheckUnshareFlags` | hw1/linux/kernel/fork.c:2154-2181 | accepted exactly if all flags are known and what cannot be unshared is not shared |
| `Unshare.UnshareFs` | hw1/linux/kernel/fork.c:2186-2202 | a copy exactly if asked for and the unlocked count differs from 1 |
| `Unshare.UnshareFd` | hw1/linux/kernel/fork.c:2207-2220 | a copy exactly if asked for and the count exceeds 1 |
| `Unshare.SwapFs` | hw1/linux/kernel/fork.c:2303-2312 | the new fs is installed and the old one is left over exactly if its last user left |
| `Unshare.Prepare` | hw1/linux/kernel/fork.c:2271-2283 | all four copies, or an error after which every copy made has been dropped once |
| `Unshare.LeaveIpc` | hw1/linux/kernel/fork.c:2286-2296 | no undo list is left exactly if there was none or CLONE_SYSVSEM or CLONE_NEWIPC is given, and its count falls by one where there was; the segments are let go exactly with CLONE_NEWIPC |
| `Unshare.Install` | hw1/linux/kernel/fork.c:2285-2342 | whatever the other sharers did since the check, the old fs and table count exactly the others and are freed exactly if there are none |
| `Unshare.Unshare` | hw1/linux/kernel/fork.c:2230-2342 | errors change nothing; success gives the task sole copies and gives up its undo list and segments, all of it flag by flag of what was asked for; credentials and namespaces balance |
| `Unshare.UnshareFiles` | hw1/linux/kernel/fork.c:2350-2366 | the displaced table is handed to the caller with its count, or nothing changed |
| `ThreadLimit.GuardIsSafe` | hw1/linux/kernel/fork.c:453-457 | the fls64 guard lets no product overflow 64 bits, and stops none below 2^63 |
| `ThreadLimit.SetMaxThreads` | hw1/linux/kernel/fork.c:445-463 | between 20 and 2^30-1; equals the unbounded formula exactly if the guard passes, or the suggestion is small, or the memory suffices; all stacks fit an eighth of memory exactly in that case; always so for stacks up to 2^30 bytes |
| `ThreadLimit.HugeStacksOverrun` | hw1/linux/kernel/fork.c:453-454 | with 2 GB stacks and 2^51 pages the large-memory branch exceeds the eighth |
| `ThreadLimit.LimitHolds` | hw1/linux/kernel/fork.c:1587-1594 | with at most K forks past the check, nr_threads never exceeds max_threads - 1 + K, over every run |
| `ThreadLimit.LimitIsReached` | hw1/linux/kernel/fork.c:1587-1594 | and some run reaches exactly that |
| `LoadAverage.CalcLoad` | hw1/linux/include/linux/sched.h:176-179 | the wrapping step is the exact weighted mean if and only if the sum fits 64 bits |
| `LoadAverage.SumIsBounded` | hw1/linux/include/linux/sched.h:176-179 | intermediates never exceed 2048 times the larger of load and target |
| `LoadAverage.FromAbove` | hw1/linux/include/linux/sched.h:176-179 | above the target a step strictly decreases without passing it |
| `LoadAverage.FromBelow` | hw1/linux/include/linux/sched.h:176-179 | below it a step strictly increases if and only if distance times (2048 - exp) is at least 2048, without passing it |
| `LoadAverage.FixedPoints` | hw1/linux/include/linux/sched.h:176-179 | the average stands still exactly at the target or less than 2048/(2048-exp) below it |
| `LoadAverage.NeverOvershoots` | hw1/linux/include/linux/sched.h:169-179 | no number of steps passes a steady target from either side |
| `LoadAverage.Settles` | hw1/linux/include/linux/sched.h:169-179 | from above the target is reached exactly, from below a fixed point, within as many steps as the distance |
| `LoadAverage.HowFarShort` | hw1/linux/include/linux/sched.h:172-174 | the three averages may stay 12, 60 and 186 units below a steady load |
| `Terminal.Detector.PostHook` | netfilter/terminal/terminal.c:23-66 | after any outgoing packet the variables are those of the extended history: handshake phase, epoch maximum, packets counted |
| `Terminal.Detector.Judge` | netfilter/terminal/terminal.c:39-55 | the last number becomes the epoch's maximum, or stays all ones in an epoch that began at 0, and the counter moves accordingly |
| `Terminal.Detector.PreHook` | netfilter/terminal/terminal.c:74-91 | after any incoming packet likewise; an answered close ends the epoch |
| `Terminal.PhasesAreOrdered` | netfilter/terminal/terminal.c:32-88 | syn_acked implies syn_require, and an open epoch implies connected |
| `Terminal.ClosingMeansFinUnanswered` | netfilter/terminal/terminal.c:37-88 | fin_require holds exactly if a FIN left and none has arrived since |
| `Terminal.ConnectedMeansEstablished` | netfilter/terminal/terminal.c:32-88 | syn_require, syn_acked and connected in terms of the packets alone: a SYN that left, one that arrived after it, the next packet out, and no answered FIN since |
| `Terminal.EpochIsSinceTheBoundary` | netfilter/terminal/terminal.c:33-88 | an epoch is the numbers of the payload packets sent over a connection since the last SYN left or FIN was answered |
| `Terminal.MiscountsOnlyFromZero` | netfilter/terminal/terminal.c:42-50 | the detector miscounts exactly in histories with an epoch that starts at sequence number 0 |
| `Terminal.ZeroIsMiscounted` | netfilter/terminal/terminal.c:42-50 | a concrete handshake and one packet with number 0 that is wrongly counted |
| `Terminal.DetectorCounts` | netfilter/terminal/terminal.c:23-91 | total_collision is the number of packets not exceeding all earlier ones of their epoch (mod 2^32) exactly if the miscounted are a multiple of 2^32, so whenever no epoch starts at 0 |
| `Hub.Monitor.UpdateTbiIdle` | netfilter/hub/tbi.c:26-35 | the ticks since the last look are added to all three idle counters; only ticks during the call go missing |
| `Hub.Monitor.UpdateTbi` | netfilter/hub/tbi.c:37-57 | one transmission is added to its terminal's t and the other two's b |
| `Hub.Monitor.Hook` | netfilter/hub/hub.c:26-45 | TCP packets from the three addresses are accounted with their time; all others change nothing |
| `Hub.Monitor.TimerHandler` | netfilter/hub/hub.c:55-60 | idle time is brought up to date and the timer re-armed 500 ms ahead |
| `Hub.AccountsBalance` | netfilter/hub/tbi.c:26-57 | after any packets and timer ticks: each t+b is the sum of all t, the idle counters agree, idle plus missed ticks is last_jiffies minus the start, mod 2^64 |
| `DeadProcesses.List.Add` | hw1/linux/kernel/fork.c:411-420 | a recorded death is appended to the circular list, links inverse, in a fresh node |
| `DeadProcesses.List.Clear` | hw1/mod/hw1.c:79-84 | the safe loop unlinks every node in order and frees each exactly once |
| `DeadProcesses.List.PrintModeB` | hw1/mod/hw1.c:129-169 | the lines of all records in order, then an empty list and each node freed once |
| `DeadProcesses.MakeLine` | hw1/mod/hw1.c:145-154 | each printed pair recombines to the total milliseconds with a fraction below 1000 |
| `DeadProcesses.ReportsOnce` | hw1/mod/hw1.c:145-154 | and no other line does |
| `DeadProcesses.Driver.PutTaskStruct` | hw1/linux/kernel/fork.c:409-422 | dead tasks with a command of fewer than 20 characters are recorded, others are not |
| `DeadProcesses.Driver.WriteCallBack` | hw1/mod/hw1.c:62-87 | at most 512 bytes are taken; a fault changes neither mode nor list; an empty write keeps the previous first byte; E clears |
| `DeadProcesses.Driver.OpenSelectedProc` | hw1/mod/hw1.c:418-424 | the mode at the open decides what later reads of that file run |
| `DeadProcesses.Driver.ReadFromStart` | hw1/mod/hw1.c:129-169 | in mode E the pending deaths are shown exactly if their text fits the first buffer; the list is empty afterwards in any case |
| `DeadProcesses.ReadShowsWhatFits` | hw1/mod/hw1.c:157-168 | over every history: a read shows all pending deaths, or loses all of them, by the size of their text |
| `DeadProcesses.APageHolds43` | hw1/mod/hw1.c:135-157 | a buffer of 4096 bytes holds 43 ordinary deaths and not one more |
| `DeadProcesses.ManyDeathsAreLost` | hw1/mod/hw1.c:162-167 | a concrete history of 44 or more deaths and one read: none is shown, all are lost |
| `DeadProcesses.PendingIsSinceTheLastClear` | hw1/mod/hw1.c:78-84 | over every run the list holds the deaths since it was last cleared, in order |
| `DeadProcesses.EveryDeathIsAccountedFor` | hw1/mod/hw1.c:144-167 | over every run each recorded death is shown once, lost once by a read, thrown away once by a write, or still on the list |

## Left out

- AddressSpace.DupMmap: page counts are unbounded integers; the class that an area is counted in is a field of it, as mm/mmap.c is not part of this model; of a mapping's interval tree only the number of areas is kept; locked and pinned pages, hugetlb reservations, userfaultfd contexts, ksm, khugepaged and page tables are not modelled.
- AddressSpace.Rebalance: any tree with the same traversal stands for recolouring and rotation.
- CopyProcess.CopyMm: the active address space that a kernel thread borrows is not modelled.
- CopyProcess.CopySemundo: an undo list that copy_semundo makes for the forking task when it has none is not modelled, as ipc/sem.c is not part of this model; nor are the segments of shared memory beyond how many a task has made.
- CopyProcess.Hook: what functions outside the repository may fail with is a parameter of the kernel (hookErrors), which may contain -EINVAL.
- CopyProcess.CopyIo: a context is its priority and a reference count.
- CopyProcess.LinkTask: the terminal of a session and ptrace are not modelled; CLONE_PARENT_SETTID, CLONE_CHILD_SETTID and CLONE_CHILD_CLEARTID neither.
- ThreadGroups.StepKeepsInv: exec with its change of leader is not part of this model; an exit is an abstract step, with the rules that a leader is unhashed last and only after its children have been handed over.
- ProcessTree.SingleRooted: kernel/exit.c is not part of this model; an heir is any running thread of the task's own group or else of a group above it and not above the nearest init, so subreapers are covered; an init whose own threads have all exited hands nothing over, as its namespace dies with it; children forked into a namespace entered with setns, whose init is not above them, are left out.
- ForkRefinement.ForkTask: mirrors the fork step alone; the exit steps of ThreadGroups stand for code that the repository does not contain.
- SharedObjects.PutMm: the first structures of boot, and explicit getters of anything but an address space, are steps of the machine only.
- Unshare.Unshare: whether other tasks use the mm is a parameter.
- Sharing.SafeInEveryRun: a getter is counted with its object, without saying who it is.
- Hub.AccountsBalance: unsigned long is 64 bits wide, here and in LoadAverage; Terminal leaves its width open.
- Hub.Monitor.Hook: msecs_to_jiffies is a parameter, creating the proc entry is left out, and the idle and transmit counters are updated by one event at a time.
- Terminal.Detector.PostHook: hooks run one at a time; the proc entry is left out; sequence numbers are compared as numbers, as the code does, without the modular order of section 3.4 of RFC 9293.
- DeadProcesses.Driver.PutTaskStruct: the allocation succeeds (the code does not check it); reads, writes, opens and deaths are one at a time, a read with all its runs of the show function included.
- DeadProcesses.Driver.ReadFromStart: fs/seq_file.c is not part of this model, but for its loop that doubles the buffer; it always gets the memory for that; reads that continue where an earlier one ended are left out; jiffies_to_msecs of the two times is a field of the record.
- Real memory ordering, RCU and interrupts: a region under a lock is a single step.
- cgroups, perf, audit, security hooks, futex and uprobes: only whether they succeed, and a count that must balance.
- fork_idle, do_fork wrappers, mm_access, get_task_exe_file, mmput_async and coredump filters: thin wrappers that would add only easy members.
- Listing live processes (mode A), scheduling classes, character-device, delay, probe and signal modules, the Python scripts and the traffic generator: output, wrappers and clients.
