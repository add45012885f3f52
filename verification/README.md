# Models and proofs for the operating-system labs

This project models the delicate parts of five labs on xv6 and proves what they are for:

- the Lab 1 prime sieve pipeline (`primes.c`): `Primes.dfy`, `Sieve.dfy`;
- the Lab 2 lottery scheduler, its random generator and its process table (`rand.c`, `proc.c`): `DivMod.dfy`, `Rand.dfy`,
  `Lottery.dfy`, `ProcTable.dfy`, `ProcInvariant.dfy`, `Ptable.dfy`;
- the Lab 3 page tables and process memory (`vm.c`, `proc.c`, `exec.c`): `PageTable.dfy`, `Memory.dfy`, `Paging.dfy`,
  `Uvm.dfy`, `UserMemory.dfy`, `UserCopy.dfy`, `ProcMem.dfy`, `ProcSlots.dfy`, `ExecImage.dfy`, `ExecStack.dfy`, `Exec.dfy`;
- the Lab 3 process life cycle with `wait_lock` and per-process locks (`proc.c`): `WaitProtocol.dfy`, `WaitLocks.dfy`,
  `WaitInvariant.dfy`, `WaitEffects.dfy`, `WaitProgress.dfy`, `WaitRuns.dfy`;
- the Lab 4 hashed buffer cache (`bio.c`): `BufProtocol.dfy`, `BufInvariant.dfy`, `BufStructure.dfy`, `BufContents.dfy`,
  `BufProgress.dfy`, `BufList.dfy`.

`dafny verify dfyconfig.toml` checks everything.

## How the parts are modelled

**Page tables.** Physical memory (`Memory.Kmem`) is a set of frames that are free, hold a 512-entry table, or hold bytes.
`kalloc` may fail at any call; a ghost count of its refusals (`refusals`) lets a contract say that an operation fails exactly
when an allocation was refused. The simple thing a tree of tables stands for is `PageTable.Flat`, a map from virtual page
numbers to entries; an independent reading of the same tree is `Paging.Translate`, the hardware's. Ghost labels say at which
place of which tree each table sits and whose each data frame is, which makes the tree a tree and the ownership of frames
exclusive. A panic is a `requires`: that callers meet it is the proof that it does not fire. The relations the contracts use:
`OnlyRoot` (one address space changed, exchanging frames with the pool only), `Grown` (tables may have been added, nothing
else), `Populated` (pages added on fresh frames), `Gives` (data frames given back), `Spares` (a process sees no difference).

**Lab 2.** `Ptable.Table` holds the arrays the code scans and overwrites; each method is one critical section under
`ptable.lock`, proved equal to a step function of `ProcTable`. What every run keeps is then proved about sequences of steps.

**Lab 3 life cycle and Lab 4 cache.** These are transition systems with one step between any two accesses to state that another
CPU or process may touch, under sequential consistency. Locks are taken and released by explicit steps, and a step that must
wait is not enabled. In Lab 3 a CPU carries its lock across `swtch`, from scheduler to process and back. `BufList.Bcache` is the
same cache once more as a class whose `prev` and `next` pointers are overwritten in place; the list operations it is proved to
perform (put in front, take out) are the atomic steps of the transition system. Beside the invariants of every step stand laws
about what steps and whole runs achieve: who is woken, which slots a search looks at, when a call ends, that nobody deadlocks.

**Sieve.** A transition system over any number of processes and bounded pipes of any capacity, for any upper limit in place of 35.
Descriptors are held by processes, duplicated by fork and given up by close, and the end of a pipe follows from who holds them.

## What the code does where its comments say otherwise

- `bio.c` announces a list in least-recently-used order (lines 28-29, 121), but a buffer leaves the cache at its last `brelse`
  (lines 135-138). The model follows the code.
- The statement that a free bucket's list holds exactly the used buffers hashing to it is false: between the test-and-set of
  `used` (line 78) and the new block number (line 81) a buffer hashes to the bucket of its old block without being listed there.
  `BufContents.StaleIdentityOccurs` reaches that state; `BufContents.ListsAreExact` states the exact condition.
- `vm.c:253` says `oldsz` may exceed the real size, but `uvmunmap` panics on unmapped pages (lines 180-183), so the pages must be
  mapped.
- `mappages` does not undo a partly mapped range (lines 153-155), and `uvmalloc` and `uvmcopy` leave the tables `walk` added when
  they fail. The contracts say so.
- The clean-up of `proc_pagetable` for a failed USYSCALL mapping (lines 236-237) would unmap a page that is not mapped; it is
  proved unreachable.
- `copyout` does not check `PTE_W`, so nothing is claimed about the USYSCALL page being read-only.
- `growproc` with a negative count larger than the size wraps around in 64 bits and changes nothing, and still returns 0.

## Assumptions

- `riscv.h` and `memlayout.h` are not part of this model. Their constants are xv6's: 4096-byte pages, `MAXVA` 2^38, and
  `TRAMPOLINE`, `TRAPFRAME` and `USYSCALL` as the top three pages in that order. Entries have the flags V, R, W, X and U.
- Nothing in the code compares a size with `USYSCALL`. The pool of frames is assumed smaller than the number of pages below it
  (`ProcMem.SmallMachine`); then memory runs out first.
- A process's memory is changed by one operation at a time, as its lock and `kalloc`'s lock give it.
- The tickets in play sum to less than 2^31, because the sum is a C `int`. A count of draws starts after the last `rand_init`,
  which every CPU calls once.
- Buffers are pinned and unpinned only by their holder, and a holder releases a buffer only if it is pinned or equals the disk.
- `NBUF`, the number of processes and of CPUs are arbitrary in the Lab 3 and Lab 4 transition systems.
- In the sieve `fork` and `pipe` succeed, and a pipe's capacity is a whole number of ints.

## Model

| member | source | states |
|---|---|---|
| Rand.Generator.RandInit | Lab2-彩排调度/rand.c:13-16 | resets the seed, so every CPU that enters its scheduler starts the draws anew |
| Rand.Generator.NextRand | Lab2-彩排调度/rand.c:19-23 | one draw replaces the seed by the next 32-bit state and returns it |
| Rand.Generator.RandomAtMost | Lab2-彩排调度/rand.c:26-33 | a draw reduced to 0..max, with the limit 0 answered without a draw |
| Rand.IterIsUnwrapped | Lab2-彩排调度/rand.c:6-23 | wrapping at every draw or only once at the end gives the same state |
| Rand.UnwrappedClosedForm | Lab2-彩排调度/rand.c:6-23 | n draws move a state x by S_n times ((A-1)x + C), S_n the geometric sum of the multiplier |
| Rand.GeoTwoAdic | Lab2-彩排调度/rand.c:6-11 | S_n and n are divisible by the same powers of two |
| Rand.FullPeriod | Lab2-彩排调度/rand.c:6-23 | from any seed the generator is back at it exactly after the multiples of 2^32 draws |
| Rand.RevisitIff | Lab2-彩排调度/rand.c:6-23 | two states of a run coincide exactly when they lie a multiple of 2^32 draws apart |
| Rand.VisitsEveryValueOnce | Lab2-彩排调度/rand.c:6-23 | every 32-bit value is the state after exactly one number of draws below 2^32 |
| Rand.LandingsOverFullPeriod | Lab2-彩排调度/rand.c:19-33 | over 2^32 draws the results modulo a total that land in an interval are counted exactly, for every seed |
| Lottery.ExactlyOneWinner | Lab2-彩排调度/proc.c:346-378 | every draw has exactly one winner: the slot whose ticket interval holds the ticket |
| Lottery.ExactShare | Lab2-彩排调度/proc.c:346-372 | the wins of a slot over 2^32 equal lotteries, exactly |
| Lottery.ProportionalShare | Lab2-彩排调度/proc.c:346-372 | t of T tickets win between t*floor(2^32/T) and t*(floor(2^32/T)+1) of 2^32 draws, so never none |
| Ptable.Table.AllocProc | Lab2-彩排调度/proc.c:76-120 | takes the first unused slot, with the next pid and the default tickets, or reports there is none |
| Ptable.Table.ForkFail | Lab2-彩排调度/proc.c:197-202 | a slot whose memory could not be allocated is unused again |
| Ptable.Table.ForkCopy | Lab2-彩排调度/proc.c:203-218 | the child gets its parent and its parent's tickets |
| Ptable.Table.ForkCommit | Lab2-彩排调度/proc.c:220-228 | the child becomes RUNNABLE and its pid is returned |
| Ptable.Table.WakeupOne | Lab2-彩排调度/proc.c:498-505 | exactly the sleepers on the channel become RUNNABLE |
| Ptable.Table.Exit | Lab2-彩排调度/proc.c:235-275 | the parent is woken, children pass to init, init is woken for zombies, the process is a ZOMBIE off its CPU |
| Ptable.Table.WaitScan | Lab2-彩排调度/proc.c:280-319 | reaps the first zombie child, or gives up without children or when killed, or goes to sleep |
| Ptable.Table.Sleep | Lab2-彩排调度/proc.c:458-492 | the process sleeps on the channel and leaves its CPU |
| Ptable.Table.Yield | Lab2-彩排调度/proc.c:426-432 | the process is RUNNABLE and off its CPU |
| Ptable.Table.Kill | Lab2-彩排调度/proc.c:520-537 | marks the first slot with the pid and wakes it if asleep, or reports -1 |
| Ptable.Table.SetTickets | Lab2-彩排调度/proc.c:578-590 | sets the caller's tickets, refusing a number below 1 |
| Ptable.Table.Schedule | Lab2-彩排调度/proc.c:330-396 | dispatches the winner of the draw; none only when nothing is RUNNABLE; the not-found branch is dead |
| ProcInvariant.AllocKeeps | Lab2-彩排调度/proc.c:76-120 | allocproc keeps the invariant of the process table |
| ProcInvariant.ForkFailKeeps | Lab2-彩排调度/proc.c:197-202 | so does a fork that fails |
| ProcInvariant.ForkCopyKeeps | Lab2-彩排调度/proc.c:203-218 | so do the stores of fork made without the lock |
| ProcInvariant.ForkCommitKeeps | Lab2-彩排调度/proc.c:220-228 | so does the end of fork |
| ProcInvariant.ExitKeeps | Lab2-彩排调度/proc.c:235-275 | so does exit, with the hand-over of children |
| ProcInvariant.WaitKeeps | Lab2-彩排调度/proc.c:280-319 | so does wait, whether it reaps, gives up or sleeps |
| ProcInvariant.SleepKeeps | Lab2-彩排调度/proc.c:458-492 | so does sleep |
| ProcInvariant.ScheduleKeeps | Lab2-彩排调度/proc.c:330-396 | so does a round of the scheduler |
| ProcInvariant.RunKeeps | Lab2-彩排调度/proc.c:76-590 | every run of all operations on all CPUs keeps it |
| ProcInvariant.TreeRootedAtInit | Lab2-彩排调度/proc.c:75-319 | in every reachable state parents lead to init through live processes of ever smaller pid, and live pids differ |
| ProcInvariant.OneCpuPerRunningProcess | Lab2-彩排调度/proc.c:329-537 | the RUNNING processes are exactly those on a CPU, none on two |
| ProcInvariant.NoLostWakeup | Lab2-彩排调度/proc.c:235-319 | no process asleep on its own slot, as wait sleeps, has a zombie child |
| ProcInvariant.WaitSleepsInWait | Lab2-彩排调度/proc.c:280-319 | wait goes to sleep, in the sense of that law, exactly with a child, without a zombie child and when not killed |
| ProcInvariant.AsleepInWaitUntilWoken | Lab2-彩排调度/proc.c:235-537 | a process asleep in wait stays so until it is made RUNNABLE, and the exit of a child makes it so |
| ProcInvariant.ReapedAtMostOnce | Lab2-彩排调度/proc.c:235-319 | each pid exits and is reaped at most once, and is held by a zombie exactly between the two |
| ProcInvariant.KillHitsThatProcess | Lab2-彩排调度/proc.c:520-537 | kill of a live pid marks its process, never a free slot with a stale pid |
| ProcInvariant.IdleIffNothingRunnable | Lab2-彩排调度/proc.c:346-360 | the ticket total is 0 exactly when nothing is RUNNABLE |
| ProcInvariant.DispatchesTheWinner | Lab2-彩排调度/proc.c:346-388 | a slot is dispatched exactly when it owns the winning ticket |
| ProcInvariant.SchedulerIsProportional | Lab2-彩排调度/proc.c:330-396 | the proportional share, for the dispatches of the kernel itself |
| WaitInvariant.ExitKeeps | Lab3-页表/proc.c:373-428 | no step of exit or reparent, between any two locks, breaks who is whose parent or who will wake whom |
| WaitInvariant.WaitKeeps | Lab3-页表/proc.c:433-477 | nor does a step of wait |
| WaitInvariant.SleepKeeps | Lab3-页表/proc.c:524-604 | nor does a step of sleep, yield or sched |
| WaitInvariant.ForkKeeps | Lab3-页表/proc.c:322-368 | nor does a step of fork |
| WaitInvariant.SignalKeeps | Lab3-页表/proc.c:609-646 | nor does a step of wakeup or kill |
| WaitInvariant.SchedKeeps | Lab3-页表/proc.c:487-514 | nor does a step of a scheduler |
| WaitInvariant.RunKeeps | Lab3-页表/proc.c:322-646 | every interleaving of any number of CPUs and processes keeps the whole invariant |
| WaitInvariant.NoLostWakeup | Lab3-页表/proc.c:372-622 | whenever wait_lock is free no process whose thread sleeps inside wait has a zombie child, inherited ones included; told by the thread's place, not by the stored channel |
| WaitInvariant.ParentsAreAlive | Lab3-页表/proc.c:373-428 | every parent is a live process at every moment |
| WaitInvariant.OneCpuPerProcess | Lab3-页表/proc.c:487-573 | a process runs on at most one CPU, and unless it is switching out under its own lock it is RUNNING |
| WaitInvariant.SchedNeverPanics | Lab3-页表/proc.c:524-541 | a process switching out holds its own lock and no other and is not RUNNING |
| WaitEffects.SleeperHasLiveChild | Lab3-页表/proc.c:433-477 | whenever wait_lock is free, a process asleep in wait has a child that has not exited, so there is someone to wake it |
| WaitEffects.EverySlotAccountedFor | Lab3-页表/proc.c:110-604 | every process but init has a parent, every embryo belongs to a fork under way, and only a process in sleep has a channel |
| WaitProgress.NoDeadlock | Lab3-页表/proc.c:322-646 | wait_lock before process locks: every CPU can step, or waits for a lock at the end of whose short chain of holders a CPU can step |
| WaitProgress.CallsEnd | Lab3-页表/proc.c:322-646 | every uninterrupted step inside a call brings it nearer its end or its sleep, so no lock is held for ever |
| WaitProgress.InterruptionsUnnoticed | Lab3-页表/proc.c:545-573 | preemption, yield and interrupts leave every process at its place in its call |
| WaitLocks.InterruptibleExactly | Lab3-页表/proc.c:322-646 | a process can be interrupted exactly where it holds no lock |
| WaitProgress.HowWaitEnds | Lab3-页表/proc.c:433-477 | wait returns only having reaped a child and freed its slot, when the copy-out failed, without any child, or killed; it sleeps only with a child and not killed |
| WaitRuns.EveryStepObeysSlotLaw | Lab3-页表/proc.c:110-646 | a slot changes only along its life cycle: a parent is stored once and replaced only by init, a zombie ends only in its parent's wait, killed is lifted only with the slot |
| WaitRuns.KillTakesEffect | Lab3-页表/proc.c:628-646 | kill marks its process and makes it RUNNABLE if it slept, and touches no other |
| WaitRuns.InterruptWakes | Lab3-页表/proc.c:609-622 | a device interrupt makes the sleeper it is for RUNNABLE and touches no other |
| WaitRuns.WakeupReachesAll | Lab3-页表/proc.c:609-622 | when wakeup has passed the slot of a process that slept on the channel, that process has been RUNNABLE meanwhile, in every interleaving |
| WaitRuns.SearchLooksEverywhere | Lab3-页表/proc.c:114-125 | fork and kill leave no slot out: fork gives up for want of a slot only having found each one in use |
| WaitRuns.IdleCpuFindsWork | Lab3-页表/proc.c:487-514 | an idle CPU left alone comes to run a process if one is RUNNABLE and no lock is held |
| WaitRuns.RoundRobin | Lab3-页表/proc.c:487-514 | a CPU comes back to a slot whose process it ran only after looking at every other slot |
| WaitRuns.ExitIsFinal | Lab3-页表/proc.c:389-428 | a process that has called exit never runs anything else and in the end has no thread |
| WaitRuns.SleepLasts | Lab3-页表/proc.c:578-604 | sleep returns only after its process was made RUNNABLE and dispatched again |
| WaitRuns.PreemptionGivesUpTheCpu | Lab3-页表/proc.c:545-552 | yield leaves the CPU in its scheduler and the process RUNNABLE, parked where it was |
| BufInvariant.StepKeepsCount | Lab4-Locks/bio.c:58-160 | every step keeps reference counts equal to pins plus referring processes |
| BufStructure.StepKeepsStruct | Lab4-Locks/bio.c:58-160 | every step keeps lists, used flags and identities consistent |
| BufContents.StepKeepsContents | Lab4-Locks/bio.c:58-160 | every step keeps cached and stored contents consistent |
| BufContents.RunKeeps | Lab4-Locks/bio.c:58-160 | every interleaving keeps the whole invariant |
| BufContents.CacheAgreesWithStore | Lab4-Locks/bio.c:58-160 | every block's contents, cached or on disk, are what its holders last wrote |
| BufContents.BreadReturnsContents | Lab4-Locks/bio.c:97-109 | bread returns the block's own buffer, locked for the caller alone, with the block's contents |
| BufContents.OnlyHoldersChangeContents | Lab4-Locks/bio.c:58-160 | no step but a holder's own write changes any block's contents, a buffer leaving the cache included |
| BufContents.RefcntIsExact | Lab4-Locks/bio.c:58-160 | a reference count is exactly the pins plus the processes waiting for, holding or releasing the buffer |
| BufContents.IdentityIsStable | Lab4-Locks/bio.c:75-142 | no step changes the block of a buffer someone waits for, holds or releases |
| BufContents.ListsAreExact | Lab4-Locks/bio.c:65-142 | no block is listed twice, and a free bucket's list is the used buffers hashing to it but for those being re-identified |
| BufContents.StaleIdentityOccurs | Lab4-Locks/bio.c:75-83 | that exception is reachable |
| BufContents.HoldersHoldTheSleepLock | Lab4-Locks/bio.c:112-126 | bwrite and brelse never panic for the caller of bread |
| BufProgress.BwriteReachesDisk | Lab4-Locks/bio.c:112-118 | after bwrite the disk has the buffer's data for its block, no other block changed, and the buffer may be released |
| BufProgress.ModifyTakesEffect | Lab4-Locks/bio.c:97-118 | what a holder writes becomes its block's contents and no other block's |
| BufProgress.HoldersChoices | Lab4-Locks/bio.c:112-160 | a holder may always write, write back and pin; it may release exactly when pinned or equal to the disk, and that frees the sleep-lock |
| BufProgress.RequestIsKept | Lab4-Locks/bio.c:58-142 | from the call of bread to brelse a process works on the block it asked for |
| BufProgress.HashSpreads | Lab4-Locks/bio.c:37-39 | blocks less than thirteen apart are in different buckets |
| BufProgress.PinsAreCounted | Lab4-Locks/bio.c:145-160 | bpin returns with exactly one pin more and bunpin with one less, whatever others do meanwhile |
| BufProgress.PanicsOnlyWhenAllUsed | Lab4-Locks/bio.c:75-94 | bget panics only having found every buffer in use |
| BufProgress.CallsEnd | Lab4-Locks/bio.c:58-160 | every step inside bread, bpin, bunpin or brelse brings the call nearer its end |
| BufProgress.RankStays | Lab4-Locks/bio.c:58-160 | and no step of another process takes it further away |
| BufProgress.NoDeadlock | Lab4-Locks/bio.c:58-160 | every process can step, has panicked, or waits for a lock at the end of whose chain of at most two holders one can step or has panicked |
| BufList.Bcache.constructor | Lab4-Locks/bio.c:42-53 | binit makes every bucket an empty ring and leaves every buffer unused |
| BufList.Bcache.FreshIsValid | Lab4-Locks/bio.c:42-53 | the state binit leaves is consistent: nothing listed, nothing in use |
| BufList.Bcache.Insert | Lab4-Locks/bio.c:85-88 | four pointer writes put the buffer at the head of its bucket's ring and keep every ring |
| BufList.Bcache.Unlink | Lab4-Locks/bio.c:136-137 | two pointer writes take the buffer out of its ring, wherever it is, and keep every ring |
| BufList.Bcache.Find | Lab4-Locks/bio.c:65-73 | following the pointers finds the block's buffer exactly when the block is cached |
| BufList.Bcache.Recycle | Lab4-Locks/bio.c:75-93 | the first unused buffer becomes the block's, and there is no panic while one is unused |
| BufList.Bcache.Bget | Lab4-Locks/bio.c:58-95 | returns the block's buffer with one more reference, or the first unused one at the head of the list; nothing else changes |
| BufList.Bcache.Bread | Lab4-Locks/bio.c:98-109 | the buffer holds the cached data if it was valid and the disk's otherwise |
| BufList.Bcache.Bwrite | Lab4-Locks/bio.c:112-118 | the disk holds the buffer's data for its block, and nothing else changes |
| BufList.Bcache.Brelse | Lab4-Locks/bio.c:123-142 | one reference less; the last one takes the buffer off its list and marks it unused |
| BufList.Bcache.Bpin | Lab4-Locks/bio.c:145-151 | one reference more and nothing else |
| BufList.Bcache.Bunpin | Lab4-Locks/bio.c:154-160 | one reference less and nothing else: the buffer stays listed even at 0 |
| BufList.ReleaseUndoesGet | Lab4-Locks/bio.c:85-137 | the last release restores the list bget found, even after later insertions in front |
| Paging.TranslateIsFlat | Lab3-页表/vm.c:73-103 | the hardware's walk (sections 4.3.2 and 4.4 of the RISC-V Privileged Architecture) finds exactly what the flat map says, in 4096-byte pages only, and nothing from MAXVA up |
| Paging.OthersUnchanged | Lab3-页表/vm.c:85-192 | work on one address space changes no other's map, frames or bytes |
| Paging.Walk | Lab3-页表/vm.c:85-103 | finds the page's entry; adding tables changes no translation; fails exactly when an allocation was refused |
| Paging.Walkaddr | Lab3-页表/vm.c:108-126 | the frame of a valid user page, or 0 |
| Paging.Mappages | Lab3-页表/vm.c:142-165 | each page of the range is valid with the permissions asked for, bit by bit, on its frame, and no other entry changes; on a refused allocation exactly a prefix, ending where a table was missing |
| Paging.Uvmunmap | Lab3-页表/vm.c:170-192 | removes exactly the pages of the range and gives back exactly their frames when asked to |
| Uvm.Uvmcreate | Lab3-页表/vm.c:196-205 | an empty address space of one frame, or no change exactly when that frame was refused |
| Uvm.Freewalk | Lab3-页表/vm.c:271-287 | frees exactly the tables of the subtree, once each, and the leaf panic is unreachable |
| Uvm.Uvmfree | Lab3-页表/vm.c:320-326 | every page and table of the address space goes back to the pool, and no other frame |
| UserMemory.Uvmalloc | Lab3-页表/vm.c:225-249 | adds zeroed readable user pages, writable and executable as asked, on fresh distinct frames; or, when an allocation was refused, leaves the map, the frames and their bytes as they were |
| UserMemory.Uvmdealloc | Lab3-页表/vm.c:255-267 | removes and frees exactly the pages above the new size |
| UserMemory.Uvmcopy | Lab3-页表/vm.c:334-362 | copies the bytes and each permission bit of every page to fresh distinct frames; or, when an allocation was refused, leaves the child's map as it was with every copied frame freed |
| UserMemory.Uvmclear | Lab3-页表/vm.c:366-375 | takes user access away from one page and changes nothing else |
| UserCopy.Copyout | Lab3-页表/vm.c:380-400 | writes exactly the given bytes; on failure exactly those before the first byte that is not user memory |
| UserCopy.Copyin | Lab3-页表/vm.c:405-425 | reads exactly the bytes of the range; on failure exactly those before the first byte that is not user memory |
| UserCopy.RoundTrip | Lab3-页表/vm.c:380-425 | reading back after copyout gives the bytes written |
| UserCopy.Copyinstr | Lab3-页表/vm.c:431-468 | succeeds exactly when a NUL is among the first max bytes with all bytes up to it in user memory, and delivers that string |
| UserCopy.CopyReadsEqual | Lab3-页表/vm.c:334-362 | after uvmcopy both address spaces read the same bytes |
| UserCopy.WriteStaysInside | Lab3-页表/vm.c:334-400 | a later write through one address space never shows in the other's pages |
| ProcMem.ProcPagetable | Lab3-页表/proc.c:193-247 | memory exactly as before, or a table of exactly three pages: TRAMPOLINE executable, TRAPFRAME writable, USYSCALL user-readable and nothing else; the other two mappings cannot fail once TRAMPOLINE is mapped |
| ProcMem.ProcFreepagetable | Lab3-页表/proc.c:252-258 | gives back everything the address space owns and nothing it only shows |
| ProcMem.Restored | Lab3-页表/proc.c:252-258 | an address space that owned nothing before and owns nothing after leaves memory exactly as it was |
| ProcMem.RoomToGrow | Lab3-页表/vm.c:225-249 | on a machine with fewer frames than pages below USYSCALL, memory runs out before the heap reaches it |
| ProcMem.Resize | Lab3-页表/proc.c:302-317 | every request gives the size asked for, unless an allocation was refused, and keeps the layout of the address space |
| ProcMem.Life | Lab3-页表/proc.c:193-317 | creation, any sequence of requests and proc_freepagetable end with memory exactly as it began, whichever allocations fail |
| ProcSlots.Kernel.constructor | Lab3-页表/proc.c:48-60 | procinit leaves every slot unused, with the invariant that processes' pids differ and lie below the next one |
| ProcSlots.PidsAdded | Lab3-页表/proc.c:93-104 | taking the next number keeps all pids distinct and below the next one |
| ProcSlots.Le32RoundTrip | Lab3-页表/proc.c:134-140 | the pid read back from the usyscall page is the pid stored, modulo 2^32 |
| ProcSlots.Kernel.Freeproc | Lab3-页表/proc.c:164-188 | gives back what the slot holds at any stage of its making and leaves it unused with size 0 |
| ProcSlots.Kernel.Allocproc | Lab3-页表/proc.c:110-158 | the first unused slot gets the next pid, two frames with the pid to be read in one, and an empty address space; or, without a slot or with an allocation refused, memory and every slot are exactly as before |
| ProcSlots.Kernel.Reap | Lab3-页表/proc.c:450-462 | freeing a dead child's slot returns each of its frames once and no other process sees a difference |
| ProcSlots.Kernel.Growproc | Lab3-页表/proc.c:302-317 | the size, the map and the frames after growing with zeroed read-write pages, failing to grow exactly on a refusal, shrinking and wrapping around |
| ProcSlots.Kernel.Fork | Lab3-页表/proc.c:322-368 | a runnable copy with equal bytes, permission bits and registers but a0 = 0, and a pid no other process has; or, without a slot or with an allocation refused, memory and every slot exactly as before |
| ProcSlots.RolledBack | Lab3-页表/proc.c:322-339 | giving back what a failed fork took restores all of memory |
| ExecImage.Loadseg | Lab3-页表/exec.c:151-170 | the file's bytes are written at the segment's address and nowhere else; it succeeds exactly when every page's worth lies in the file |
| ExecImage.LoadProgram | Lab3-页表/exec.c:52-70 | user memory holds exactly the image the program headers describe, zero where no segment's file part lies, each page readable and as writable and executable as the header that first needed it; it succeeds exactly when the file is well formed and no allocation is refused |
| ExecStack.Le64RoundTrip | Lab3-页表/exec.c:104-110 | a pointer read back byte by byte is the pointer stored |
| ExecStack.BuildStack | Lab3-页表/exec.c:78-110 | guard page, strings and pointer array inside one writable, not executable stack page, sp exactly as deep as they need, all 16-byte aligned, the image untouched; it succeeds exactly when they fit and no allocation is refused |
| ExecStack.StackReadsBack | Lab3-页表/exec.c:90-110 | each pointer read through the new page table leads to its argument, and the array ends in null |
| Exec.Commit | Lab3-页表/exec.c:112-129 | epc, sp and a1 decode to the entry and the stack pointer and no other register changes; the old address space is given back entirely, the new one and every other process are untouched |
| Exec.Exec | Lab3-页表/exec.c:22-145 | succeeds exactly for a well-formed file, fewer than 32 arguments that fit in a page and no refused allocation; then the new program has its image, its permissions and its arguments, else memory, registers and every slot are exactly as before |
| Primes.HeadsArePrimes | Lab1-Util/primes.c:32-54 | from any starting point the first numbers of successive filters are the primes, in order |
| Primes.Eratosthenes | Lab1-Util/primes.c:12-64 | a chain of filters fed with 2 to n prints exactly the primes up to n |
| Sieve.DescriptorsKept | Lab1-Util/primes.c:9-41 | at every step exactly the processes that should hold a pipe's ends do |
| Sieve.EofIsAll | Lab1-Util/primes.c:50-54 | a filter sees the end of its pipe only after everything that ever goes through it |
| Sieve.ReaderThere | Lab1-Util/primes.c:16-18 | no number is ever written to a pipe without a reader |
| Sieve.DataKept | Lab1-Util/primes.c:32-60 | at every step each pipe has carried a prefix of what it carries in the end |
| Sieve.OutputIsPrefix | Lab1-Util/primes.c:33-33 | what has been printed is a prefix of the primes up to n |
| Sieve.NoDeadlock | Lab1-Util/primes.c:12-64 | until all have exited, some process can take a step |
| Sieve.StepDecreases | Lab1-Util/primes.c:12-64 | every step of every process leaves less work |
| Sieve.SieveIsCorrect | Lab1-Util/primes.c:12-64 | every interleaving is finite, prints only prefixes, and ends with all primes up to n printed and every process gone; the feeder exits last, and no pipe holds more than its capacity |

## Left out

- Physical constants and flags beyond V, R, W, X and U (A, D, G), the width of physical page numbers, TLB flushes and `satp`.
- `kvmmake`, `kvmmap`, `uvmfirst`, `vmprint`, `procdump`, `getpinfo`, boot tables, system-call dispatch and the test programs.
- Disk, inodes, the log and ELF decoding: `readi` delivers bytes of a given file, and a program header is given decoded.
- ExecImage.Loadseg: its loop counter is unbounded, so a segment within a page of 4 GiB, for which the 32-bit counter would wrap
  around, is not modelled; file offsets do wrap.
- Exec.Exec: more than MAXARG arguments fail as in the code; exactly MAXARG, for which the code writes one word past `ustack`, are
  excluded by a precondition. The program name in `p->name` is not modelled.
- Files, current directories and names in fork and exit, and user addresses passed to wait.
- WaitProtocol models no pids: `pid_lock` and the search of `kill` for a pid are an arbitrary choice of slot. Memory in fork and
  wait may fail at any time there and is modelled in ProcSlots instead. An interrupt handler's wakeup is one atomic step per slot.
- ProcSlots: its operations run one at a time; their interleaving is the subject of WaitProtocol.
- BufList: the code between acquiring and releasing a bucket's lock, run by one process at a time; waiting for a lock is a
  precondition. Interleavings are the subject of BufProtocol.
- Fairness: nothing is said about how long a process waits for a lock, a buffer or, in the sieve, its turn.
- Overflow of pids, ticks and 32-bit reference counts; a pid in the usyscall page is stored modulo 2^32.
- Writes of part of an int to a pipe: the pipes of Sieve hold whole numbers.
- `sleep.c`, `pingpong.c`, `find.c`, `xargs.c`: small programs with little state.
