# Xinu on the BeagleBone Black: a verified model

This project models the parts of Xinu that keep the most state and proves what
their callers rely on. Every main result holds for all inputs, all runs or all
reachable states.

* **Local file system** (`Lfs*.dfy`, `LocalFs.dfy`). The disk is a sequence of
  512-byte sectors. `LocalFs` carries the directory in memory, the open-file
  table with one cached index block and one cached data block per file, and the
  three dirty flags. Each call is proved against files that are plain byte
  sequences with a position (`LfsAbs`), and what programs see of them is stated by
  the results of calls alone (`LfsLaws`). The invariant (`LfsModel`) says who owns
  each block, what each chain looks like, and where disk and memory may differ.
* **Process manager** (`QueueTable.dfy`, `Kernel*.dfy`). All process lists live
  in one array of doubly linked nodes. `QueueTab` relinks that array in place and
  is proved to act on plain sequences; `Kernel` holds the process and semaphore
  tables and is proved, call by call, against steps on a value model. Runs are
  arbitrary sequences of those steps: what they keep (`KernelRuns`), when sleepers
  wake (`KernelSleep`), who runs next (`KernelTurns`, `KernelSlices`), that
  semaphores serve in order of arrival (`KernelFifo`) and keep count of their units
  (`KernelCounts`), what each step makes of each process (`KernelEffects`), and from
  that the laws of messages and of killed, created and suspended processes
  (`KernelLaws`).
* **Heap** (`Heap*.dfy`). Block headers in memory, first fit from below, last
  fit from above, coalescing free.
* **Ports and buffer pools** (`Port*.dfy`, `Buf*.dfy`). State machines over the
  pieces of code that run with interrupts disabled, so that blocked processes,
  processes released but not yet run, killed processes and clears that give up
  the processor half way are all there; what their users rely on (`PortLaws.dfy`); their semaphores, shown to be those of
  the kernel (`KernelPorts.dfy`); and the linked lists themselves, changed in
  place and shown to move as the state machines say (`Tables.dfy`).
* **Smaller pieces.** Quicksort on bytes (`Qsort.dfy`), CRC-32 against division
  of polynomials (`Crc32.dfy`, `CrcPolynomial.dfy`), the IPv4 header checksum
  (`IpChecksum.dfy`), all over the bytes of `Bytes.dfy`, and the producer and
  consumer (`ProdCons.dfy`).

How the model reads the source:

* A system call is one step with interrupts off. `ctxsw` is a change of the
  current process. A call that blocks is split into the part before the block
  and a later continuation: `receive` ends in the step `TakeMsg`, the clock
  handler is `Tick` and then `Preempt`, because its second half runs in the
  process that was interrupted, and `kill` is `KillNotify`, up to its message to
  the parent, and `KillRemove`.
* Calls that may block are not made by the null process, nor while rescheduling
  is deferred (system/initialize.c:35-39). This is `Allowed` in `KernelRuns`.
* Memory that the source leaves uninitialised (the rest of a freed data block,
  the table entries of queue nodes) is arbitrary.
* The disk, the ram disk device and `getmem` in callers are parameters.

Where the code does not do what its documentation or its callers expect, the
model follows the code:

* `lfscreate` with no index blocks, or on a disk of two sectors, lays out a
  broken disk (`LfsFormat.LfsCreate`, `LfsFormat.LayoutSound`,
  `LfsFormat.LayoutBroken`).
* `lfsopen` does not mark the directory dirty when it creates a file, so a file
  that is never written is gone after a restart exactly if it is not below the
  count of files on sector 0 (`LocalFileSystem.LocalFs.Restart`,
  `LocalFileSystem.LocalFs.LoseNewFile`).
* `roundmb` wraps around for requests above 0xFFFFFFF8 bytes, and `getmem` and
  `getstk` then hand out memory that stays free (`Heap.GetMemDelivers`,
  `Heap.GetStkDelivers`, `Heap.GetMemWraps`).
* A reset port has the size it was created with only if that size fits 16 bits
  (`PortRuns.ResetKeepsSize`); one of 65536 slots is left with none
  (`PortRuns.ResetShrinks`).
* `ipcksum` folds the carry once and so accepts some headers that are incorrect
  (`IpChecksum.Accepts`, `IpChecksum.AcceptsIncorrect`).

## Model

| member | source | states |
|---|---|---|
| LfsLayout.IbRoundTrip | bbb-xinu/include/lfilesys.h:71-76 | an index block decoded from the 72 bytes it was encoded to is that index block, wherever in a sector they lie |
| LfsLayout.DirRoundTrip | bbb-xinu/include/lfilesys.h:92-116 | a directory decoded from its sector is the directory that was encoded |
| LfsLayout.PutIbSlot | bbb-xinu/include/lfilesys.h:82-87 | overwriting one of the seven slots of a sector changes that index block and none of its neighbours |
| LfsLayout.WriteIbImg | bbb-xinu/device/lfs/lfibput.c:26-42 | on the whole disk, writing an index block changes exactly that block in the meaning of the disk |
| LfsLayout.WriteDataImg | bbb-xinu/include/lfilesys.h:12-28 | writing a data sector changes neither directory nor any index block nor another data block |
| LfsModel.GiveOK | bbb-xinu/device/lfs/lfdballoc.c:21-39 | after an allocation every block is still in exactly one place: once on the free list or once in one file's chain |
| LfsModel.ReleaseOK | bbb-xinu/device/lfs/lftruncate.c:41-101 | after a whole chain has gone back to the free list every block is still in exactly one place |
| LfsModel.BlocksConserved | bbb-xinu/device/lfs/lfscreate.c:29-71 | the free blocks and the blocks of all files together are always all the blocks there are |
| LfsSteps.GrowIndexKeeps | bbb-xinu/device/lfs/lfsetup.c:78-94 | extending a chain by an index block, with the rewrite of its predecessor on disk, keeps the whole invariant |
| LfsGrow.GrowDataKeeps | bbb-xinu/device/lfs/lfsetup.c:100-114 | giving a file its next data block keeps the whole invariant |
| LfsGrow.PutByteKeeps | bbb-xinu/device/lfs/lflputc.c:41-60 | storing a byte in the cached block, with size and dirty flags, keeps the whole invariant |
| LfsFiles.TruncKeeps | bbb-xinu/device/lfs/lftruncate.c:41-101 | what lftruncate leaves on the disk and in memory satisfies the whole invariant, with exactly the file's blocks on the free lists |
| LfsImage.FollowChain | bbb-xinu/device/lfs/lfsetup.c:78-114 | walking the index chain from the directory entry reaches, for each position, the byte of the file |
| LfsImage.Persisted | bbb-xinu/device/lfs/lflclose.c:29-35 | once written back, a non-empty file is exactly what following the bare disk gives |
| LfsImage.RemountKeeps | bbb-xinu/device/lfs/lfsopen.c:80-91 | with all files closed, the disk alone is a consistent file system with the same files, but for files never written |
| LfsImage.EmptyInv | bbb-xinu/device/lfs/lfscreate.c:29-71 | the disk that lfscreate lays down satisfies the invariant |
| LfsAbs.AbsPutByte | bbb-xinu/device/lfs/lflputc.c:41-60 | storing the byte through the cache writes, or appends, that byte in the file as its users see it, and changes no other file |
| LfsAbs.AbsGetByte | bbb-xinu/device/lfs/lflgetc.c:46-51 | the byte under the cache's pointer is the byte of the file at its position |
| LfsAbs.FreeCount | bbb-xinu/device/lfs/lfsckfmt.c:33-56 | the lengths of both free lists are determined by the sizes of the files alone |
| LfsAbs.WriteMeaning | bbb-xinu/device/lfs/lflwrite.c:17-28 | a write that does not run out of blocks lays the whole buffer over the file at the position, extending it if need be |
| LfsLaws.SeekRead | bbb-xinu/device/lfs/lflseek.c:25-40 | after a seek to any position of the file a read returns the bytes from there on, or end of file at its end; a seek beyond the end fails and does nothing |
| LfsLaws.SeekGetc | bbb-xinu/device/lfs/lflgetc.c:9-52 | after a seek the next character is the byte at that position |
| LfsLaws.ReadOn | bbb-xinu/device/lfs/lflread.c:22-38 | a read goes on where the one before it ended |
| LfsLaws.GetcsRead | bbb-xinu/device/lfs/lflread.c:22-38 | reading byte by byte gives what a read of as many bytes gives |
| LfsLaws.WriteReadBack | bbb-xinu/device/lfs/lflwrite.c:17-28 | what is written at a position is read back from it, and the rest of the file is as it was |
| LfsLaws.PutcGetc | bbb-xinu/device/lfs/lflputc.c:41-60 | a character put at a position is got back from it, and every other byte is as it was |
| LfsLaws.TruncateEmpties | bbb-xinu/device/lfs/lftruncate.c:10-104 | a truncated file has nothing to read and no position but zero |
| LfsLaws.OpenOutcome | bbb-xinu/device/lfs/lfsopen.c:9-180 | exactly when lfsopen fails, and what it opens or creates otherwise; nothing else changes |
| LfsLaws.ClosedRefuses | bbb-xinu/device/lfs/lflclose.c:9-38 | a closed file refuses all calls |
| LfsLaws.Reopen | bbb-xinu/device/lfs/lfsopen.c:93-139 | a file that is closed and opened again by its name has the contents it had |
| LfsLaws.CallOnlyAt | bbb-xinu/device/lfs/lflputc.c:9-64 | a call on one open file touches no other open file and no other file's contents |
| LfsLaws.RunAInv | bbb-xinu/device/lfs/lfsopen.c:60-74 | in any run names are distinct, each file is open once at most, and positions lie within files |
| LfsLaws.ReadLater | bbb-xinu/device/lfs/lflread.c:9-39 | however many calls later, a read returns what the file had there when it was last written |
| LfsLaws.AbsAInv | bbb-xinu/device/lfs/lfsopen.c:60-74 | the files of every disk that satisfies the invariant have distinct names, one opener and positions within them |
| LfsSetup.PanicMeaning | bbb-xinu/device/lfs/lfdballoc.c:21-25 | lflputc would find an empty free list exactly when the files, by their sizes, already use every block of that kind |
| LfsSetup.ClosedOnDisk | bbb-xinu/device/lfs/lflclose.c:27-37 | after a close the disk alone gives the contents of the closed file |
| LfsSetup.AbsRemount | bbb-xinu/device/lfs/lfsopen.c:80-91 | a restart keeps exactly the files below the count in the directory on the disk, with their contents; all others were never written |
| LfsTrunc.TruncDone | bbb-xinu/device/lfs/lftruncate.c:54-97 | the state after the loops of lftruncate is the file system with that file emptied |
| LfsNames.NameLength | bbb-xinu/device/lfs/lfsopen.c:29-37 | finds the length of a name, or that it has no null within sixteen characters |
| LfsNames.SameName | bbb-xinu/device/lfs/lfsopen.c:60-74 | tells exactly whether two null-terminated names are equal |
| LfsNames.CopyName | bbb-xinu/device/lfs/lfsopen.c:134-138 | the copy reads back as the same null-terminated name |
| LfsFormat.LfsCreate | bbb-xinu/device/lfs/lfscreate.c:10-74 | fails exactly when the index area would take more than half of the disk; otherwise leaves an empty directory and both free lists complete and in order, or, for a request that rounds to no index sector, index block 0 and the first data block in the same bytes |
| LfsFormat.LayoutSound | bbb-xinu/device/lfs/lfscreate.c:33-71 | index block 0 and the data blocks get different sectors, and all data blocks lie on the disk, exactly if an index sector was asked for and the disk has three sectors |
| LfsFormat.LayoutBroken | bbb-xinu/device/lfs/lfscreate.c:33-71 | two accepted requests for which they do not: index block 0 in the first data sector, and a loop that writes sectors up to 0x100000001 |
| LfsFormat.LfsCkFmt | bbb-xinu/device/lfs/lfsckfmt.c:23-57 | counts exactly the index blocks and data blocks on the two lists of the disk |
| LocalFileSystem.LfIbClear | bbb-xinu/device/lfs/lfibclear.c:9-22 | an index block with the given offset, no successor and no data blocks |
| LocalFileSystem.LocalFs.constructor | bbb-xinu/device/lfs/lflinit.c:11-46 | on a fresh disk the invariant holds and there are no files |
| LocalFileSystem.LocalFs.Restart | bbb-xinu/device/lfs/lfsopen.c:80-91 | starting again from the disk keeps a file exactly if it is below the count on sector 0, in order and with its contents; the others were never written |
| LocalFileSystem.LocalFs.LoseNewFile | bbb-xinu/device/lfs/lfsopen.c:130-139 | a file that is created, closed and not written is gone after a restart |
| LocalFileSystem.LocalFs.CountFree | bbb-xinu/device/lfs/lfsckfmt.c:10-58 | with all files closed, lfsckfmt counts all blocks of each kind less those that the sizes of the files account for |
| LocalFileSystem.LocalFs.LfIbGet | bbb-xinu/device/lfs/lfibget.c:10-31 | yields the index block that the disk holds under the number |
| LocalFileSystem.LocalFs.LfIbPut | bbb-xinu/device/lfs/lfibput.c:10-43 | replaces that index block on the disk and nothing else |
| LocalFileSystem.LocalFs.LfFlush | bbb-xinu/device/lfs/lfflush.c:10-42 | writes directory, data block and index block back where they are dirty; no file changes |
| LocalFileSystem.LocalFs.LfIbAlloc | bbb-xinu/device/lfs/lfiballoc.c:10-33 | takes the first index block off its free list, on disk as in memory |
| LocalFileSystem.LocalFs.LfDbAlloc | bbb-xinu/device/lfs/lfdballoc.c:12-40 | takes the first data block off its free list and fills the buffer |
| LocalFileSystem.LocalFs.SetupWalk | bbb-xinu/device/lfs/lfsetup.c:78-94 | walks or extends the chain until the cached index block covers the position |
| LocalFileSystem.LocalFs.LfSetup | bbb-xinu/device/lfs/lfsetup.c:26-121 | afterwards the right index and data blocks are cached and the pointer is at the position; no file's contents have changed |
| LocalFileSystem.LocalFs.LflGetc | bbb-xinu/device/lfs/lflgetc.c:9-52 | returns the byte of the file at the position and advances, or end of file, or an error if not open |
| LocalFileSystem.LocalFs.LflPutc | bbb-xinu/device/lfs/lflputc.c:9-64 | overwrites or appends one byte of the byte sequence and advances |
| LocalFileSystem.LocalFs.LflSeek | bbb-xinu/device/lfs/lflseek.c:9-41 | moves the position within the file, and fails beyond its end; `SeekRead` and `WriteReadBack` say what is then read |
| LocalFileSystem.LocalFs.LflClose | bbb-xinu/device/lfs/lflclose.c:9-38 | closes the file; the directory is clean and the disk alone gives the file if it is not empty |
| LocalFileSystem.LocalFs.LfDbFree | bbb-xinu/device/lfs/lfdbfree.c:10-25 | puts a data block in front of its free list, on disk as in memory |
| LocalFileSystem.LocalFs.LfTruncate | bbb-xinu/device/lfs/lftruncate.c:10-104 | empties the file; the free lists are the old ones with exactly the blocks of that file in front, and no other block changes hands |
| LocalFileSystem.LocalFs.LflControl | bbb-xinu/device/lfs/lflcontrol.c:9-47 | LF_CTL_TRUNC on an open file empties it and gives exactly its blocks back; every other function is an error that changes nothing |
| LocalFileSystem.LocalFs.LflRead | bbb-xinu/device/lfs/lflread.c:9-39 | returns the bytes from the position to the end of the buffer or of the file |
| LocalFileSystem.LocalFs.LflWrite | bbb-xinu/device/lfs/lflwrite.c:9-29 | writes byte by byte, up to the point where the disk is full |
| LocalFileSystem.LocalFs.LfsOpen | bbb-xinu/device/lfs/lfsopen.c:9-180 | opens or creates the named file as its mode demands, with every error case; the disk does not change |
| LocalFileSystem.LocalFs.Run | bbb-xinu/device/lfs/lfsetup.c:26-121 | for any sequence of calls on any files, all results and the final files are those of plain byte sequences |
| QueueTable.LinkInsert | bbb-xinu/system/insert.c:29-34 | the writes that insert a node keep the list well linked in both directions |
| QueueTable.LinkRemove | bbb-xinu/system/getitem.c:53-57 | the writes that unlink a node keep the list well linked in both directions |
| QueueTable.TableInsert | bbb-xinu/system/queue.c:11-30 | inserting into one list disturbs none of the other lists in the same table |
| QueueTable.TableRemove | bbb-xinu/system/getitem.c:47-58 | removing from one list disturbs none of the others |
| QueueTable.QueueTab.constructor | bbb-xinu/system/newqueue.c:9-30 | every list is empty, with its sentinel keys |
| QueueTable.QueueTab.Enqueue | bbb-xinu/system/queue.c:11-30 | the process is the last of its list |
| QueueTable.QueueTab.Dequeue | bbb-xinu/system/queue.c:36-52 | the first process of the list, or EMPTY |
| QueueTable.QueueTab.GetItem | bbb-xinu/system/getitem.c:47-58 | the process leaves whichever list it is on |
| QueueTable.QueueTab.GetFirst | bbb-xinu/system/getitem.c:9-22 | the first process of the list, or EMPTY |
| QueueTable.QueueTab.GetLast | bbb-xinu/system/getitem.c:28-41 | the last process of the list, or EMPTY |
| QueueTable.QueueTab.Insert | bbb-xinu/system/insert.c:9-36 | the process stands behind all with keys as large and before all with smaller ones |
| QueueTable.QueueTab.InsertD | bbb-xinu/system/insertd.c:9-42 | the delta list with the new process, its key reduced and that of its successor adjusted |
| QueueTable.QueueTab.IsEmpty | bbb-xinu/include/queue.h:29-29 | whether the list is empty |
| QueueTable.QueueTab.FirstKey | bbb-xinu/include/queue.h:31-31 | the key of the first process, or the smallest key |
| KernelModel.SortedInsert | bbb-xinu/system/insert.c:22-35 | insertion keeps the list in descending order of keys |
| KernelModel.DeltaInsert | bbb-xinu/system/insertd.c:22-39 | insertion into the delta list keeps every sleeper's due time and gives the new one its own |
| KernelModel.DeltaRemove | bbb-xinu/system/unsleep.c:39-44 | early removal with the key repair keeps every other sleeper's due time |
| KernelSteps.ReadyNonempty | bbb-xinu/system/resched.c:39-44 | when the current process cannot go on, resched finds another one |
| KernelSteps.ReschedCore | bbb-xinu/system/resched.c:11-49 | resched keeps all tables consistent and leaves a process of highest priority running |
| KernelCalls.DeferStopInv | bbb-xinu/system/resched.c:68-75 | the end of a deferral keeps the invariant, including that of priorities |
| KernelCalls.DrainProcs | bbb-xinu/system/signaln.c:28-33 | releasing n waiters makes exactly the first n of the queue ready |
| KernelCalls.WaitInv | bbb-xinu/system/wait.c:17-38 | wait keeps the invariant |
| KernelCalls.SignalInv | bbb-xinu/system/signal.c:16-30 | signal keeps the invariant |
| KernelCalls.SignalNInv | bbb-xinu/system/signaln.c:17-36 | signaln keeps the invariant |
| KernelCalls.SemDeleteInv | bbb-xinu/system/semdelete.c:16-35 | semdelete keeps the invariant; a freed semaphore has an empty queue |
| KernelCalls.SemResetInv | bbb-xinu/system/semreset.c:19-34 | semreset keeps the invariant |
| KernelCalls.SendInv | bbb-xinu/system/send.c:17-40 | send keeps the invariant; a process that waits for a message has none |
| KernelCalls.DozeInv | bbb-xinu/system/sleep.c:41-47 | going to sleep keeps the invariant |
| KernelClock.LeadDue | bbb-xinu/system/wakeup.c:13-18 | the sleepers at the head without time left are exactly those due now |
| KernelClock.TickInv | bbb-xinu/system/clkhandler.c:39-48 | a clock tick keeps the invariant |
| KernelClock.KillWaiter | bbb-xinu/system/kill.c:45-50 | killing a waiting process keeps semaphore count and queue in step |
| KernelClock.KillRemoveInv | bbb-xinu/system/kill.c:34-55 | kill takes a process off whichever list its state puts it on and keeps the invariant |
| KernelRuns.StepInv | bbb-xinu/system/resched.c:11-49 | every call and every tick keeps the invariant |
| KernelRuns.InitInv | bbb-xinu/system/initialize.c:131-173 | the tables that sysinit leaves satisfy it |
| KernelRuns.RunSafety | bbb-xinu/system/queue.c:11-52 | at every point of every run: lists disjoint and fixed by process state, one current process, counts equal to queue lengths, no message where one is awaited, the current process of highest priority |
| KernelSleep.TickReleases | bbb-xinu/system/clkhandler.c:39-48 | a tick makes exactly the sleepers that are due ready |
| KernelSleep.StepSleep | bbb-xinu/system/insertd.c:22-39 | no call by any process changes when another one is due |
| KernelSleep.SleepExactly | bbb-xinu/system/sleep.c:26-50 | a process that sleeps for d ticks and is left alone is asleep through d - 1 ticks and awake after the d-th, in every run |
| KernelSleep.KeysFit | bbb-xinu/system/insertd.c:22-39 | no key of the delta list overflows, and the first is positive between ticks |
| KernelSlices.TimeSlices | bbb-xinu/system/clkhandler.c:53-56 | while the processes of top priority make no calls, the clock ends the running slice when its count is used up and every later one after QUANTUM counts, and each time the next process of the ring runs |
| KernelSlices.YieldsTurn | bbb-xinu/system/yield.c:9-17 | yield, and a sleep of no time, let the next process of the ring run |
| KernelTurns.RoundRobin | bbb-xinu/system/resched.c:25-44 | successive rescheds dispatch the processes of equal top priority in cyclic order |
| KernelTurns.DeferredTurn | bbb-xinu/system/resched.c:59-76 | the end of the outermost deferral makes up for the attempts with one turn of the ring |
| KernelTurns.WaitJoins | bbb-xinu/system/wait.c:29-35 | a process that must wait goes to the end of the queue and another one runs |
| KernelTurns.SignalReleases | bbb-xinu/system/signal.c:26-29 | signal releases the process that has waited longest |
| KernelFifo.StepMoves | bbb-xinu/system/kill.c:45-55 | a step moves the queue of a semaphore in one of three ways only: processes join at its end, processes leave from its front, or the killed process leaves; so nobody overtakes |
| KernelFifo.FirstCome | bbb-xinu/system/wait.c:29-35 | over any run, as long as neither of two waiters is killed, the later one is not released while the earlier one waits |
| KernelCounts.UnitsConserved | bbb-xinu/system/wait.c:29-35 | over any run a semaphore's count is what it was, plus signals, less waits, plus waiters killed, and as many processes wait as it is below zero |
| KernelCounts.CallUnits | bbb-xinu/system/signaln.c:28-34 | signal adds one, signaln adds its argument and wait takes one |
| KernelCounts.StartsWith | bbb-xinu/system/semcreate.c:18-27 | a semaphore starts with the count given to semcreate or semreset |
| KernelCounts.ProcsCounted | bbb-xinu/system/kill.c:24-26 | over any run the number of processes follows creations and kills |
| KernelCounts.DeferredStays | bbb-xinu/system/resched.c:52-80 | while rescheduling is deferred nobody else runs, and the deferral ends with the stop that balances its start |
| KernelEffects.StepProc | bbb-xinu/system/ready.c:11-29 | what each of the calls and ticks makes of each entry of the process table, with no list involved |
| KernelLaws.SendArrives | bbb-xinu/system/send.c:17-40 | a message is stored exactly if the process exists and has none, and frees a process that waits for it; otherwise nothing changes |
| KernelLaws.ParentLearns | bbb-xinu/system/kill.c:28-28 | the parent of a process that ends gets its process ID |
| KernelLaws.MessageKept | bbb-xinu/system/receive.c:15-24 | whatever happens, a message stays unchanged until its process takes it or is killed |
| KernelLaws.SendReceive | bbb-xinu/system/receive.c:21-22 | at any later point of any run the receiver's message is the one sent; once taken, the next one can be sent |
| KernelLaws.KillFrees | bbb-xinu/system/kill.c:34-55 | a killed process is free, on no list and not running; every list is as it was without it, and no other process changes but for the one dispatched |
| KernelLaws.StaysFree | bbb-xinu/system/create.c:41-54 | over any run the slot stays free until a creation takes it |
| KernelLaws.CreateMakes | bbb-xinu/system/create.c:41-54 | a new process is suspended, with the priority given, the caller as parent and no message; no other process changes |
| KernelLaws.SuspendResume | bbb-xinu/system/suspend.c:17-40 | suspend stops exactly a ready or running process other than the null process, and resume lets exactly a suspended one go on |
| KernelLaws.StaysSuspended | bbb-xinu/system/resume.c:17-30 | over any run a created or suspended process stays as it is until it is resumed or killed |
| KernelLaws.LivesOn | bbb-xinu/system/create.c:45-53 | over any run a process keeps its priority and its parent until it is killed |
| KernelLaws.StaysBlocked | bbb-xinu/system/ready.c:11-29 | a process that waits, sleeps or is suspended stays so through every step but the ones it waits for |
| KernelLaws.CallerStops | bbb-xinu/system/receive.c:17-20 | a call that must wait stops its caller in the state that says for what, and another process runs |
| KernelLaws.FailsQuietly | bbb-xinu/system/signaln.c:17-26 | a call that returns an error changes nothing |
| ProcessManager.Kernel.constructor | bbb-xinu/system/initialize.c:131-173 | the initial process, semaphore and queue tables |
| ProcessManager.Kernel.Resched | bbb-xinu/system/resched.c:11-49 | when deferred only the attempt is recorded, and otherwise the first of the ready list runs unless the current process has a higher priority |
| ProcessManager.Kernel.ReschedCntl | bbb-xinu/system/resched.c:55-80 | nested deferral, and SYSERR for an unmatched stop or an unknown request |
| ProcessManager.Kernel.Ready | bbb-xinu/system/ready.c:11-29 | the process joins the ready list by priority, then resched |
| ProcessManager.Kernel.Wait | bbb-xinu/system/wait.c:9-39 | the count goes down, and if it was not positive the caller joins the end of the semaphore's queue in the linked table and another process runs; invariant kept |
| ProcessManager.Kernel.Signal | bbb-xinu/system/signal.c:9-31 | the count goes up, and if it was negative the first waiter becomes ready by priority; invariant kept |
| ProcessManager.Kernel.SignalN | bbb-xinu/system/signaln.c:9-37 | the loop releases exactly the first waiters and ends with the count raised by the argument |
| ProcessManager.Kernel.SemDelete | bbb-xinu/system/semdelete.c:9-36 | the loop releases all waiters |
| ProcessManager.Kernel.SemReset | bbb-xinu/system/semreset.c:9-35 | the loop releases all waiters and the count is as given |
| ProcessManager.Kernel.NewSem | bbb-xinu/system/semcreate.c:34-50 | finds a free entry if there is one, round robin |
| ProcessManager.Kernel.SemCreate | bbb-xinu/system/semcreate.c:11-28 | fails exactly for a negative count or a full table |
| ProcessManager.Kernel.Suspend | bbb-xinu/system/suspend.c:9-41 | a ready process leaves the ready list, the current one stops and another runs, any other state is an error; invariant kept |
| ProcessManager.Kernel.Resume | bbb-xinu/system/resume.c:9-31 | a suspended process becomes ready by priority, any other state is an error; invariant kept |
| ProcessManager.Kernel.Yield | bbb-xinu/system/yield.c:9-17 | the current process takes its turn behind its equals; invariant kept |
| ProcessManager.Kernel.SleepMs | bbb-xinu/system/sleep.c:26-50 | the caller enters the delta list due after exactly the delay, a delay of zero yields; invariant kept |
| ProcessManager.Kernel.Unsleep | bbb-xinu/system/unsleep.c:11-47 | the sleeper leaves and its delay goes to the next one |
| ProcessManager.Kernel.Wakeup | bbb-xinu/system/wakeup.c:9-20 | releases exactly the sleepers without time left |
| ProcessManager.Kernel.ClkTick | bbb-xinu/system/clkhandler.c:39-48 | the first sleeper's key counts down, and at zero every sleeper that is due becomes ready; invariant kept |
| ProcessManager.Kernel.ClkPreempt | bbb-xinu/system/clkhandler.c:53-56 | the time slice counts down, and at its end the current process takes its turn behind its equals (`TimeSlices`); invariant kept |
| ProcessManager.Kernel.Send | bbb-xinu/system/send.c:9-41 | the message is delivered unless one is pending, and a receiver waiting for it, with or without a time limit, becomes ready; invariant kept; `SendReceive` follows the message |
| ProcessManager.Kernel.Receive | bbb-xinu/system/receive.c:9-25 | returns the pending message, or blocks the caller until one is sent; invariant kept |
| ProcessManager.Kernel.RecvTime | bbb-xinu/system/recvtime.c:9-44 | returns the pending message, or blocks the caller until one is sent or the time is up; invariant kept |
| ProcessManager.Kernel.RecvClr | bbb-xinu/system/recvclr.c:9-25 | takes the message, if there is one |
| ProcessManager.Kernel.KillNotify | bbb-xinu/system/kill.c:17-28 | kill up to its message to the parent |
| ProcessManager.Kernel.KillRemove | bbb-xinu/system/kill.c:34-55 | the process leaves its list and its slot is free, whatever state it was in (`KillFrees`); invariant kept |
| ProcessManager.Kernel.NewPid | bbb-xinu/system/create.c:121-138 | finds a free slot if there is one, round robin |
| ProcessManager.Kernel.Create | bbb-xinu/system/create.c:13-61 | fails exactly without a stack, without a slot or for a priority below one |
| ProcessManager.Kernel.Run | bbb-xinu/system/resched.c:11-80 | any sequence of calls and ticks takes the linked tables through a run of the value model, so that all results about runs hold of the tables |
| ProcessManager.Kernel.SendAndCollect | bbb-xinu/system/send.c:28-29 | on the tables: a message sent, anything at all happening, and the receiver asking for its message gives the message sent, unless it took one before or was killed |
| HeapModel.RoundCovers | bbb-xinu/include/memory.h:9-9 | rounding covers the request exactly if it does not wrap around |
| HeapModel.CanonUnique | bbb-xinu/system/freemem.c:25-67 | an ordered, disjoint, coalesced free list is determined by the set of free bytes |
| HeapModel.TakeLowTook | bbb-xinu/system/getmem.c:28-43 | getmem takes exactly the region it returns out of the free bytes and keeps the list canonical |
| HeapModel.TakeHighTook | bbb-xinu/system/getstk.c:43-49 | the same for getstk |
| HeapModel.ClashIffOverlap | bbb-xinu/system/freemem.c:35-47 | the test of two neighbours rejects a region exactly if any of its bytes is free |
| HeapModel.FreedGave | bbb-xinu/system/freemem.c:49-67 | freemem adds exactly the region to the free bytes and keeps the list canonical |
| HeapModel.TakeFree | bbb-xinu/system/freemem.c:25-67 | what is taken and then freed leaves the list as it was |
| HeapRuns.StepKeeps | bbb-xinu/system/getmem.c:22-47 | every call keeps free memory and live regions a partition of the heap |
| HeapRuns.RunSafety | bbb-xinu/system/freemem.c:25-67 | in every run live regions overlap neither each other nor free memory, and when all is freed, in any order, the list is the single initial block |
| Heap.StackRoundTrip | bbb-xinu/include/memory.h:16-19 | freestk of a stack from getstk is accepted and restores the free list |
| Heap.GetMemDelivers | bbb-xinu/system/getmem.c:22-47 | a successful getmem hands out memory that is no longer free exactly for requests up to 0xFFFFFFF8 |
| Heap.GetStkDelivers | bbb-xinu/system/getstk.c:23-51 | the same for getstk |
| Heap.GetMemWraps | bbb-xinu/include/memory.h:9-9 | a request for 0xFFFFFFFF bytes takes nothing off the list and hands out memory that is free |
| Heap.LinkSplice | bbb-xinu/system/freemem.c:51-67 | the header writes that replace blocks keep the list well linked |
| Heap.Memory.constructor | bbb-xinu/system/meminit.c:12-28 | one block that spans the heap |
| Heap.Memory.GetMem | bbb-xinu/system/getmem.c:9-50 | fails exactly if no block fits, and otherwise takes the lowest one that does from its bottom; mlength follows the total |
| Heap.Memory.GetStk | bbb-xinu/system/getstk.c:9-52 | fails exactly if no block fits, and otherwise takes the highest one that does from its top; mlength follows the total |
| Heap.Memory.FreeMem | bbb-xinu/system/freemem.c:9-70 | accepts exactly regions of the heap without a free byte, and merges them on both sides; mlength follows the total |
| Heap.Memory.FreeStk | bbb-xinu/include/memory.h:16-19 | the same for the region below a stack address |
| Heap.Memory.Run | bbb-xinu/system/getmem.c:22-47 | any run of calls on the headers in memory is the run of the value model, so live regions and free blocks partition the heap, and the list is the initial block once all is freed |
| PortModel.SignalOK | bbb-xinu/system/signal.c:26-29 | a unit passed on by signal is accounted for, whether it goes to the count or to a waiter |
| PortSteps.TakeKeeps | bbb-xinu/system/ptrecv.c:37-44 | a receiver with a unit in its hands finds a message, the oldest one |
| PortSteps.PutOK | bbb-xinu/system/ptsend.c:40-56 | appending a message and signalling keeps the accounts of the port |
| PortSteps.EmptyOK | bbb-xinu/system/ptclear.c:26-46 | giving the nodes back and resetting or deleting the first semaphore keeps the accounts |
| PortSteps.FinishOK | bbb-xinu/system/ptclear.c:48-48 | a cleared port is ready for use or free, with nobody left in its queues |
| PortRuns.StepInv | bbb-xinu/system/ptsend.c:20-58 | every piece of every port call keeps the invariant and every node in its one place |
| PortRuns.RunSafety | bbb-xinu/system/ptrecv.c:28-45 | in every run nodes are conserved, ports bounded and first-in first-out, and a receiver past the sequence check finds a message |
| PortRuns.ClearLeavesBehind | bbb-xinu/system/ptclear.c:21-23 | a reset or delete makes everybody who waits at the port out of date |
| PortRuns.BehindRun | bbb-xinu/system/ptrecv.c:28-33 | a process that waited across a reset or delete never touches the list, whatever happens before it runs |
| PortRuns.ClearDisposes | bbb-xinu/system/ptclear.c:24-38 | every message sent to a cleared port was received or disposed of, once, in order |
| PortRuns.ExactAccounts | bbb-xinu/system/ptsend.c:27-36 | in runs that kill no released process before it has run, the send count, the released senders and the queued messages add up to the size of the port, and likewise for receivers |
| PortRuns.OnlyKillLoses | bbb-xinu/system/kill.c:45-55 | only killing a process that was released and has not run loses a slot or a message; killing one that is still blocked loses none |
| PortRuns.ResetKeepsSize | bbb-xinu/system/ptclear.c:40-43 | at any point of any run a reset leaves the port with its size modulo 65536, and so unchanged exactly if 16 bits hold it |
| PortRuns.ResetShrinks | bbb-xinu/system/ptclear.c:40-43 | a port made with 65536 slots, then reset, has size zero and a send semaphore of count zero |
| PortRuns.SizeStays | bbb-xinu/system/ptcreate.c:33-41 | nothing but a creation and the reset itself changes the size of a port |
| PortLaws.EnterSends | bbb-xinu/system/ptsend.c:20-58 | a ptsend that finds room sends its argument at once, one that does not waits with it |
| PortLaws.ResumeSends | bbb-xinu/system/ptsend.c:29-56 | after its wait a ptsend sends the argument it came with, unless the port was cleared |
| PortLaws.CarriesArgument | bbb-xinu/system/ptsend.c:27-34 | over any run a blocked ptsend keeps its argument until it runs or is killed |
| PortLaws.FirstInFirstOut | bbb-xinu/system/ptrecv.c:37-44 | in every run what was received from a port, followed by what is in it, are the arguments of the completed ptsends in order of completion |
| PortLaws.BlocksIff | bbb-xinu/system/ptsend.c:27-34 | a sender waits exactly if the port is full, and a receiver exactly if every message has its receiver |
| PortLaws.GetsOldest | bbb-xinu/system/ptrecv.c:37-45 | a ptrecv gets the oldest message, before or after a wait |
| PortLaws.NewPortSize | bbb-xinu/system/ptcreate.c:33-41 | a port has the size that ptcreate was asked for, over any run until it is made anew |
| PortLaws.ClearEnds | bbb-xinu/system/ptclear.c:40-48 | at its end a reset leaves the port in use and a delete leaves it free, empty and with nobody waiting |
| KernelPorts.WaitAgrees | bbb-xinu/system/wait.c:29-35 | the wait of the port machine is the wait of the kernel on that semaphore, and changes no other |
| KernelPorts.SignalAgrees | bbb-xinu/system/signal.c:26-28 | the signal of the port machine is the signal of the kernel |
| KernelPorts.SendPasses | bbb-xinu/system/ptsend.c:29-56 | a ptsend that does not block does to the two semaphores of its port what the kernel does |
| KernelPorts.RecvPasses | bbb-xinu/system/ptrecv.c:28-45 | the same for ptrecv |
| KernelPorts.EnterBlocks | bbb-xinu/system/ptsend.c:29-34 | the same for either call when it blocks |
| KernelPorts.ResumeAgrees | bbb-xinu/system/ptsend.c:36-56 | the same for the rest of either call, and the process marked as released is the one that the kernel makes ready |
| KernelPorts.ClearAgrees | bbb-xinu/system/ptclear.c:40-47 | the same for the semaphore calls of _ptclear |
| Ports.PortTab.constructor | bbb-xinu/system/ptinit.c:13-45 | all nodes on the free list in order, all ports free |
| Ports.PortTab.Append | bbb-xinu/system/ptsend.c:36-55 | the first free node, with the message, ends the port's list; no other list changes |
| Ports.PortTab.Remove | bbb-xinu/system/ptrecv.c:37-44 | the first message leaves and its node heads the free list; no other list changes |
| Ports.PortTab.PtClear | bbb-xinu/system/ptclear.c:11-50 | disposes of exactly the port's messages in order and gives all its nodes back |
| Ports.PortTab.PtReset | bbb-xinu/system/ptreset.c:10-27 | an error unless the port is in use; otherwise empty, in use, of the same size and one sequence number on; no other port changes |
| Ports.PortTab.PtDelete | bbb-xinu/system/ptdelete.c:9-27 | an error unless the port is in use; otherwise free and the next to be tried; no other port changes |
| Ports.PortTab.NewPort | bbb-xinu/system/ptcreate.c:9-46 | finds a free entry if there is one, round robin, and fails exactly otherwise or for a negative count |
| Tables.SendEnd | bbb-xinu/system/ptsend.c:36-56 | the end of ptsend on the linked table is that of the state machine, and finds no free node exactly when the machine does |
| Tables.RecvEnd | bbb-xinu/system/ptrecv.c:37-45 | the end of ptrecv on the linked table returns the first message and is that of the state machine |
| Tables.ClearAll | bbb-xinu/system/ptclear.c:11-50 | _ptclear on the linked table leaves the port and the free nodes that the pieces of the state machine leave |
| Tables.CreateEntry | bbb-xinu/system/ptcreate.c:9-46 | ptcreate on the table makes the port that the state machine makes, in a free entry |
| BufferPools.FindsOne | bbb-xinu/system/getbuf.c:28-35 | a getter past its wait finds a buffer |
| BufferPools.MakeOnce | bbb-xinu/system/mkbufpool.c:37-52 | mkbufpool puts each of its slots into exactly one place |
| BufferPools.RunSafety | bbb-xinu/system/getbuf.c:26-42 | in every run from bufinit every slot of every pool is on the free list or with one caller, once; the length of a free list is the non-negative part of the count plus the getters released and not yet run, plus those killed in between; and no getter past its wait meets an empty list |
| BufferPools.EverySlotOnce | bbb-xinu/system/freebuf.c:21-38 | whatever came before and comes after, the slots given to mkbufpool are those of the new pool and each stays in exactly one place |
| BufTab.BufTable.MkBufPool | bbb-xinu/system/mkbufpool.c:9-54 | all buffers of the pool, one behind the other, are on its list and belong to it; with every error case |
| BufTab.StaysUnowned | bbb-xinu/system/mkbufpool.c:30-34 | memory apart from that of one pool can be made into another |
| BufTab.BufTable.GetBuf | bbb-xinu/system/getbuf.c:9-43 | the first buffer leaves the list of its pool and carries its pool's ID |
| BufTab.BufTable.FreeBuf | bbb-xinu/system/freebuf.c:9-39 | a buffer from getbuf finds its pool by itself and heads its list again |
| Tables.MakePool | bbb-xinu/system/mkbufpool.c:9-54 | mkbufpool on the linked table makes the pool of the state machine, and fails when that has no room |
| Tables.GetPool | bbb-xinu/system/getbuf.c:30-42 | getbuf past its wait hands out the buffer that the state machine hands out, and leaves the same lists |
| Tables.FreePool | bbb-xinu/system/freebuf.c:19-38 | freebuf is accepted and puts the buffer where the state machine puts it |
| Qsort.QsExc | bbb-xinu/lib/qsort.c:109-124 | exchanges two elements byte by byte, also one with itself |
| Qsort.QsTexc | bbb-xinu/lib/qsort.c:126-144 | rotates three elements byte by byte, also when two coincide |
| Qsort.Partition | bbb-xinu/lib/qsort.c:44-105 | ends with smaller elements below, equal ones in the middle and larger ones above, all of them a permutation of the range |
| Qsort.Qs1 | bbb-xinu/lib/qsort.c:29-107 | sorts its range, permutes nothing else, and nests at most floor(log2 n) + 1 calls |
| Qsort.Log2Is | bbb-xinu/lib/qsort.c:89-102 | the bound on the nesting is the k with 2^k <= n < 2^(k + 1) |
| Qsort.QSort | bbb-xinu/lib/qsort.c:22-27 | for any element size and any total preorder the array is a sorted permutation of its input |
| Crc32.MakePoly | bbb-xinu/compile/uboot-tool/crc32.c:60-63 | the exponents give the pattern 0xEDB88320 |
| Crc32.MakeCrcTable | bbb-xinu/compile/uboot-tool/crc32.c:65-71 | entry n is the register after eight steps from n |
| Crc32.EightSteps | bbb-xinu/compile/uboot-tool/crc32.c:149-149 | eight steps at once: the table entry of the low byte, added to the rest shifted down |
| Crc32.CalcCrc32 | bbb-xinu/compile/uboot-tool/crc32.c:155-177 | the loop over eight bytes at a time computes the register bit by bit |
| Crc32.Continues | bbb-xinu/compile/uboot-tool/crc32.c:155-177 | crc32(crc32(c, a), b) is crc32(c, a followed by b), as in section 8 of RFC 1952 |
| CrcPolynomial.RegisterDivides | bbb-xinu/compile/uboot-tool/crc32.c:27-50 | the shift register computes the remainder of the division of polynomials |
| CrcPolynomial.DivisionLaw | bbb-xinu/compile/uboot-tool/crc32.c:27-37 | every polynomial is its quotient times the divisor plus its remainder, of degree below 32 |
| CrcPolynomial.DivisionUnique | bbb-xinu/compile/uboot-tool/crc32.c:27-37 | and in no other way |
| CrcPolynomial.CrcIsRemainder | bbb-xinu/compile/uboot-tool/crc32.c:155-177 | crc32 of every byte string is that remainder, with first coefficients and result complemented |
| IpChecksum.IpCksum | bbb-xinu/net/ip.c:286-316 | the loop of ten words gives the folded, complemented sum of the header |
| IpChecksum.StoreCksum | bbb-xinu/net/ip.c:261-263 | the header with its checksum computed over a zero field and stored |
| IpChecksum.StoredIsAccepted | bbb-xinu/net/ip.c:261-263 | whatever the header, ip_in accepts what ip_out has stored, also when the fold drops a carry |
| IpChecksum.CorrectAccepted | bbb-xinu/net/ip.c:21-25 | every header correct under section 3.1 of RFC 791 is accepted |
| IpChecksum.Accepts | bbb-xinu/net/ip.c:286-316 | exactly which headers are accepted |
| IpChecksum.AcceptsIncorrect | bbb-xinu/net/ip.c:305-314 | a header that is accepted and not correct |
| ProdCons.RunInv | bbb-xinu/apps/produce.c:7-16 | every interleaving keeps the invariant of the pair and is bounded in length |
| ProdCons.NoDeadlock | bbb-xinu/apps/consume.c:6-18 | somebody can move until both have finished |
| ProdCons.ReadsInOrder | bbb-xinu/apps/consume.c:6-18 | in every interleaving the consumer reads 1, 2, ..., count, each once, and both finish |

## Left out

- Crash consistency of the file system, and several callers at once on one file: the calls are atomic, as the mutexes make them.
- lfgetmode: the parsing of mode strings; `LfsOpen` takes the mode bits it yields. Read and write modes are recorded and never checked by the code.
- LfsFormat.LfsCreate: asks that the data blocks end on the disk, which fails only for a disk with no room for one data block; there the loop counts past the end of the disk, as `LayoutSound` and `LayoutBroken` say.
- LocalFileSystem.LocalFs.LflPutc: asks that a block is left if the byte needs one, because the code panics otherwise; `PanicMeaning` says when that is, and `LflWrite` and `Run` carry the panic as a result.
- LocalFileSystem.LocalFs.LfIbAlloc: asks for a free index block, for the same reason.
- LocalFileSystem.LocalFs.LfDbAlloc: asks for a free data block, for the same reason.
- LocalFileSystem.LocalFs.SetupWalk: asks for a free index block if the chain must grow, for the same reason.
- LocalFileSystem.LocalFs.LfSetup: asks for a free block of each kind that it must add, for the same reason.
- Disk errors: reads and writes of sectors succeed.
- Heap.Memory.FreeMem: asks that a region which overlaps no free memory is aligned and ends inside the heap, and that any region with an address inside the heap ends below 2^32 and has a size that does not round to zero; the code checks none of this.
- Heap.Memory.FreeStk: asks the same of the region below the stack address.
- Heap.Memory.constructor: asks for an 8-aligned heap, because meminit does not round.
- QueueTable.QueueTab.Enqueue: asks for valid queue and process IDs; the code answers others with SYSERR, and every caller passes valid ones.
- QueueTable.QueueTab.Dequeue: asks for a valid queue ID, likewise.
- QueueTable.QueueTab.Insert: asks for valid queue and process IDs, likewise, and for a key above the smallest, which every priority is.
- QueueTable.QueueTab.InsertD: asks for valid queue and process IDs, likewise.
- ProcessManager.Kernel.Ready: asks for a valid process ID, likewise.
- Overflow of 32-bit semaphore counts, of prcount and of port sequence numbers.
- ProcessManager.Kernel.SleepMs: asks for a delay below 2^31 ticks, since keys are signed.
- ProcessManager.Kernel.RecvTime: asks for a positive time below 2^31 ticks, unless a message is pending or the time is negative: the clock tests the first key for equality with zero after counting it down, so such a sleeper is not woken by its own delay.
- `chprio`: it changes a priority without moving the process in the ready list.
- ProcessManager.Kernel.KillNotify: does not model xdone, which ends the system with its last user process.
- ProcessManager.Kernel.KillRemove: the other half of kill; nobody else kills the same process in between. Closing descriptors and freeing the stack are not modelled.
- ProcessManager.Kernel.Create: names, stack contents and the arguments of the new process are not modelled; whether getstk found a stack is a parameter.
- Killing a process inside _ptclear, which would leave the port in limbo.
- Ports.PortTab.PtClear: the semaphores of a port are part of the state machine in `PortRuns` and of `KernelPorts`, not of this table.
- Ports.PortTab.PtReset: does not model the two semaphores, which are reset there.
- Ports.PortTab.PtDelete: does not model the two semaphores, which are deleted there.
- Ports.PortTab.NewPort: does not model the two semaphores, which are made there.
- Enough semaphores exist for every port that is created.
- BufTab.BufTable.MkBufPool: asks that the memory from getmem belongs to no other pool, which the heap results give.
- BufTab.BufTable.GetBuf: does not model the wait on the pool's semaphore, which is in `BufferPools`.
- BufTab.BufTable.FreeBuf: does not model the signal of that semaphore, and asks that a buffer whose first word names a pool came from getbuf.
- Qsort.QSort: the comparison function is a function of the two elements, and the array is smaller than the address space.
- The literal table in compile/uboot-tool/crc32.c:78-131; the model computes the table as make_crc_table does.
- The producer and consumer with a deleted semaphore reused by another process, and with a count of zero, which the shell command refuses.
- Futures, the remote disk and remote files, the terminal line discipline, ICMP, the namespace, DHCP, DNS, TFTP, ARP and UDP, the shell, formatted input and output, string functions, the configuration tools, device drivers and the context switch itself.
