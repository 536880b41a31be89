# xv6: a verified model

A Dafny model of the kernel and user code of xv6 with copy-on-write fork, and
proofs of what its parts are for. Check it with `dafny verify dfyconfig.toml`.

| part | source | files |
|---|---|---|
| redo log, group commit | `log.c`, `memide.c` | BlockDevice, LogFormat, GroupCommit, LogBooks, LogRoom, GroupCommitProof, LogProgress, LogCapacity, RedoLog |
| copy-on-write memory | `vm.c`, `kalloc.c`, `proc.c` | Paging, Frames, Spaces, Eager, CowSteps, CowMemory, CowView, CowVm, CowKernel |
| files and directories | `fs.c`, `string.c` | FsFormat, FsState, FsSteps, FsBytes, FsTrunc, FileSystem, DirFormat, Directory, PathFormat, PathName |
| user allocator | `umalloc.c` | HeapState, HeapSteps, UserHeap |
| processes, sleep and wakeup | `proc.c`, `sleeplock.c` | Monitors, ProcState, ProcSteps, ProcProof, ProcTableProof, ProcRuns, ProcEffects, ProcProgress, ProcTable |
| code that sleeps under spin locks | `pipe.c`, `log.c` | MonitorActs, MonitorRuns, MonitorTheorems, ForgottenReader |
| shell parser | `sh.c` | ShellSyntax, ShellGrammar, ShellRoundTrip, ShellParser |
| buffer cache | `bio.c` | BufRing, BufferCache |
| regular expressions | `grep.c` | Grep |
| pipes | `pipe.c` | Pipe |

Objects the source updates in place are classes (`Log`, `Vm`, `Fs`, `Inodes`,
`Heap`, `Parser`, `Cache`, `Pipe`). Each has a ghost value of its state; a method
says how that value changes, and the lemmas are about such values. Code that runs
on several CPUs is a machine of atomic steps, and the theorems are about every run.

Where a promise fails, the failing case and the exact condition are stated:

- mkfs makes a log region of LOGSIZE blocks (`xv6/mkfs.c:25`), which has one slot too
  few, and log_write tests the length before it takes log.lock. Three operations that
  keep to MAXOPBLOCKS then reach the panic, or a corrupted home block. The log is free
  of the panic, of overflow, crash-safe and read correctly in every run if and only if
  the region is larger than LOGSIZE (`LogCapacity.PanicFreeExactly`, `LogFitsExactly`,
  `CrashSafeExactly`, `ReadsRightExactly`). A single commit that fits is crash-atomic
  in a region of any size, and operations are all or nothing in any.
- filewrite puts more blocks into an operation than begin_op reserves for
  (`xv6/file.c:133`). The header never overflows if and only if operations keep to
  MAXOPBLOCKS or the region has fewer than LOGSIZE blocks
  (`LogCapacity.HeaderFitsExactly`, `LogCapacity.FileWriteOverflows`).
- pipewrite returns without a wakeup when it gives up on a full pipe. It forgets readers
  if and only if the pipe was empty and open, more than PIPESIZE bytes are to be written,
  and the writer has been killed or no reader is left (`Pipe.Pipe.Write`,
  `MonitorTheorems.PipewriteRuns`). `ForgottenReader.ReaderForgotten` is a state reached
  from boot with a reader asleep on a full pipe. The other code modelled makes every
  wakeup due, and where that is so nobody sleeps in vain (`MonitorTheorems.PipereadRuns`,
  `PipecloseRuns`, `LogRuns`, `ProcTheorems.SleepLockSettled`, `NoLostWakeup`).
- malloc's size computation wraps for the largest requests (`HeapState.UnitsHold`,
  `HeapState.UnitsWrap`), and morecore's request to sbrk for 2^28 units or more
  (`HeapState.SbrkExact`, `HeapState.SbrkWrap`).

What the theorems take for granted:

- A block write is atomic, and blocks outside the log region are written through
  the log only. A process that changes a buffer writes or logs it before brelse.
- Nothing is asked of a run of the process machine for what concerns stacks, locks, the
  table and sleep-locks. That no wakeup is lost in another monitor is shown for runs in
  which whoever leaves that monitor, or sleeps in it, has made the wakeups due there.
- Each virtual-memory routine is one step, since pg_refcount has no lock.
  Address spaces come from inituvm, allocuvm and copyuvmcow.
- Each file-system routine is one step; directories hold whole entries, no name
  twice and no holes, which dirlink keeps.

## Model

| member | source | states |
|---|---|---|
| LogFormat.CommitPoint | xv6/log.c:192-202 | once the header is written, recovery of the disk yields the old contents with every block of the transaction replaced |
| LogFormat.CommitIsRecovery | xv6/log.c:68-122 | after the header write, each disk image that commit leaves is the image recovery would leave at the same point |
| LogFormat.RecoveryRestarts | xv6/log.c:68-122 | recovery cut off after any number of block writes and started again produces the same home blocks |
| LogFormat.CrashesInRecovery | xv6/log.c:115-122 | the same for any sequence of cut-off recoveries |
| LogFormat.CrashBeforeHeader | xv6/log.c:176-202 | a commit cut off before its header write recovers to the old home blocks |
| LogFormat.CrashAfterHeader | xv6/log.c:176-202 | a commit cut off at or after its header write recovers to the whole transaction |
| LogFormat.CrashAtomicity | xv6/log.c:68-202 | for every transaction that fits the log region, every crash point of commit and every sequence of crashes inside recovery, the recovered disk has all old home blocks (header not written) or all new ones (written), every other home block unchanged, and an empty header |
| GroupCommitProof.StepKeeps | xv6/log.c:124-233 | every step of begin_op, log_write, end_op, commit, recovery, eviction and crash keeps what makes the disk safe, in a region larger than LOGSIZE |
| GroupCommitProof.RunKeeps | xv6/log.c:124-233 | so does every run in which no operation enters more than MAXOPBLOCKS new blocks |
| GroupCommitProof.CrashSafety | xv6/log.c:115-202 | in every such run, with any number of crashes, the disk recovers to the starting contents with exactly the committed writes replayed in order; CrashSafeExactly shows that the size of the region is what it takes |
| LogBooks.AllOrNothing | xv6/log.c:143-174 | in every run, in a region of any size and with operations of any length: of the writes an operation issued, all are committed in order or none is; a discarded operation has none, a finished one outside the open transaction has all |
| GroupCommitProof.ReadsSeeLoggedWrites | xv6/bio.c:95-106 | between commits a read of a block nobody is modifying returns the last logged contents, wherever they are kept; ReadsRightExactly shows that the size of the region is what it takes |
| LogProgress.Settles | xv6/log.c:68-202 | wherever a commit or a recovery is, its own steps lead on to an idle log with an empty header, the whole transaction committed and every committed write at home |
| LogProgress.CrashSettles | xv6/log.c:115-202 | so after a crash at any point of a run: nothing committed is lost, nothing else is there |
| LogRoom.ReservationHolds | xv6/log.c:125-141 | in a region of any size, with operations that enter at most MAXOPBLOCKS blocks: the header lists home blocks, none twice, never overflows, and leaves room for all that the operations in progress may still add |
| LogRoom.NoPanic | xv6/log.c:213-219 | an operation with fewer than MAXOPBLOCKS log_write calls does not panic in the next one, if the region is larger than LOGSIZE |
| LogRoom.SmallRegionFits | xv6/log.c:213-233 | in a region of fewer than LOGSIZE blocks the header never overflows, whatever operations enter |
| LogCapacity.PanicReachable | xv6/log.c:213-219 | with a region of LOGSIZE blocks or fewer, operations that keep to MAXOPBLOCKS calls reach the panic |
| LogCapacity.OverflowReachable | xv6/log.c:218-233 | with such a region two operations that both pass the unlocked test overflow the log region |
| LogCapacity.PanicFreeExactly | xv6/log.c:213-233 | no operation that keeps to its calls panics in any run if and only if the region is larger than LOGSIZE |
| LogCapacity.LogFitsExactly | xv6/log.c:213-233 | the transaction fits the region in every run if and only if the region is larger than LOGSIZE |
| LogCapacity.CorruptReachable | xv6/log.c:176-202 | with a region of LOGSIZE blocks or fewer, a run of well-behaved operations and a crash in write_log leave a home block with the contents of another, nothing having been committed |
| LogCapacity.CrashSafeExactly | xv6/log.c:115-233 | every reachable state recovers to the replayed contents if and only if the region is larger than LOGSIZE |
| LogCapacity.ReadsRightExactly | xv6/log.c:115-233 | between commits blocks read as last logged in every run if and only if the region is larger than LOGSIZE |
| LogCapacity.HeaderOverflow | xv6/log.c:213-233 | operations that enter more than MAXOPBLOCKS blocks overflow the header in a region of LOGSIZE blocks or more |
| LogCapacity.HeaderFitsExactly | xv6/log.c:125-141 | the header never overflows in any run if and only if no operation enters more than MAXOPBLOCKS blocks or the region has fewer than LOGSIZE |
| LogCapacity.FileWriteOverflows | xv6/file.c:126-147 | the operations filewrite makes enter more than begin_op reserves for, and overflow the header on the disk mkfs makes |
| RedoLog.CommitTrailAt | xv6/log.c:176-202 | the i-th image of the trail of a commit is the image that CrashAtomicity speaks of |
| RedoLog.CommitTrailSafe | xv6/log.c:176-202 | each image on that trail recovers to all of the transaction or to none of it |
| RedoLog.CommitTrailEnds | xv6/log.c:192-202 | the last image has an empty header and the whole transaction at home |
| RedoLog.Log.Bread | xv6/bio.c:95-106 | returns what users of the block see and caches it |
| RedoLog.Log.Bwrite | xv6/bio.c:108-116 | one atomic block write; the buffer is clean afterwards |
| RedoLog.Log.ReadHead | xv6/log.c:84-96 | the in-memory header becomes the entries of the header block |
| RedoLog.Log.WriteHead | xv6/log.c:98-113 | one block write puts count and entries into the header block and leaves the rest of it |
| RedoLog.Log.InstallTrans | xv6/log.c:68-82 | the loop copies every log block home, with the trail of images it leaves on the way |
| RedoLog.Log.WriteLog | xv6/log.c:176-190 | the loop writes every pinned buffer to its log slot, with the trail of images |
| RedoLog.Log.Commit | xv6/log.c:192-202 | its disk writes are exactly the commit trail; afterwards the disk is the old one with the transaction applied, the header is empty and nothing is pinned |
| RedoLog.Log.RecoverFromLog | xv6/log.c:115-122 | the disk becomes the recovered one, through exactly the images of recovery |
| RedoLog.Log.BeginOp | xv6/log.c:125-141 | an operation is admitted if and only if no commit is under way and its reservation fits; else the caller sleeps; what it does under log.lock is BeginActs and leaves no wakeup due |
| RedoLog.Log.EndOp | xv6/log.c:145-162 | the operation ends, and commits if it was the last; what it does under log.lock is EndActs and leaves no wakeup due |
| RedoLog.Log.LogWrite | xv6/log.c:213-233 | panics if and only if the header is full or no operation is in progress; otherwise enters the block once, pins it, keeps header and pinned set equal, and makes no wakeup due |
| RedoLog.Log.EndCommit | xv6/log.c:164-173 | the commit is over; what it does under log.lock is CommittedActs and leaves no wakeup due |
| RedoLog.BeginStep | xv6/log.c:125-141 | begin_op is the Begin step of the group-commit machine, admitted exactly when that is enabled |
| RedoLog.WriteStep | xv6/log.c:213-233 | a change and log_write are its Store, Check and Append steps, or its Panic |
| RedoLog.EndStep | xv6/log.c:145-162 | end_op is its End step |
| Monitors.CommitQuiet | xv6/log.c:192-202 | emptying the header without log.lock makes no wakeup due while a commit is under way |
| BlockDevice.Disk.Write | xv6/memide.c:38-60 | one block changes, atomically, and the image is recorded |
| Paging.SplitJoin | xv6/mmu.h:113-132 | directory index, table index and offset determine the address |
| Paging.JoinSplit | xv6/mmu.h:113-132 | every such triple is the split of exactly one address |
| Paging.PageLoop | xv6/vm.c:235-249 | a loop from PGROUNDUP(a) below b in steps of PGSIZE visits exactly the pages from Pages(a) up to Pages(b) |
| Paging.SetEntryFlat | xv6/vm.c:33-81 | storing an entry in the two-level table is updating the flat map at that page |
| Paging.AddTableFlat | xv6/vm.c:43-54 | a fresh zeroed table leaves the flat map as it is |
| Frames.CountBounded | xv6/vm.c:407-421 | a frame has at most one user per address space, so with NPROC spaces a signed char never overflows |
| Frames.WritableOnce | xv6/vm.c:398-481 | a frame with a writable user entry has no other user entry |
| Frames.MapUserKeeps | xv6/vm.c:61-81 | mapping a frame and counting it keeps free list, tables, mappings and counts in order |
| Frames.UnmapUserKeeps | xv6/vm.c:258-284 | unmapping a page and uncounting it keeps them in order |
| Spaces.ClearedTable | xv6/vm.c:267-271 | the jump over an absent directory entry skips no mapped page |
| CowSteps.AllocUndo | xv6/vm.c:237-248 | unmapping what was added so far restores every user entry |
| CowSteps.SealedRoles | xv6/vm.c:425-428 | a failed fork leaks nothing: the counts, the use of every frame and the set of free frames are as before |
| CowSteps.BreakSharing | xv6/vm.c:465-475 | the private copy of a shared page takes one user from the old frame and gives one to the new, and no process sees a difference |
| CowMemory.CopyStarved | xv6/vm.c:398-429 | copyuvmcow runs out of frames only if at most 1025 were free |
| CowMemory.GrowStarved | xv6/vm.c:223-252 | allocuvm runs out of frames only if hardly more were free than pages done and page tables |
| CowVm.Vm.constructor | xv6/kalloc.c:31-53 | after the boot loop exactly the frames from the first on are free |
| CowVm.Vm.Kalloc | xv6/kalloc.c:82-95 | takes the first free frame; 0 if and only if there is none |
| CowVm.Vm.Kfree | xv6/kalloc.c:59-77 | fills every byte of the frame with 1 and puts it first |
| CowVm.Vm.Walk | xv6/vm.c:36-56 | finds or makes the table; fails if and only if there is neither a table nor a free frame; no user entry, count or page changes |
| CowVm.Vm.MapKernelPages | xv6/vm.c:61-81 | maps exactly the given range, without the remap panic, and changes nothing else |
| CowVm.Vm.DeallocStep | xv6/vm.c:268-282 | one round, jumping over an absent table in one go, clears exactly the pages it passes |
| CowVm.Vm.DeallocUvm | xv6/vm.c:258-284 | unmaps exactly the pages from PGROUNDUP(newsz) up to oldsz, uncounts their frames and frees those without users |
| CowVm.Vm.FreeVm | xv6/vm.c:288-303 | the space is gone with all its pages, tables and directory; all other spaces and what they see are as before |
| CowVm.Vm.SetupKvm | xv6/vm.c:119-137 | a space with the kernel ranges and no user pages; on failure nothing is left of it, and at most 1025 frames were free |
| Spaces.KmapIsOk | xv6/vm.c:104-116 | the kernel ranges of the source are disjoint ranges above KERNBASE, as SetupKvm asks |
| CowVm.Vm.AllocUvm | xv6/vm.c:223-252 | adds writable pages from oldsz to newsz, every byte of them 0, and nothing else; on failure, for want of frames only, counts, user entries and views are restored |
| CowVm.Vm.CopyUvmCow | xv6/vm.c:398-429 | the child shares all pages of the parent read-only; on failure, for want of frames only, the child is gone and only write permissions of the parent differ |
| CowVm.Vm.PageFault | xv6/vm.c:432-481 | kills on an illegal access, kills for want of memory if and only if the page is shared and no frame is free, and else makes the page writable with no process seeing a difference, at the price of one frame if the page is shared and of none if not |
| CowVm.Vm.CopyPage | xv6/vm.c:465-475 | the faulting process gets a writable copy; out of memory if and only if no frame is free |
| CowVm.Vm.UserRead | xv6/vm.c:432-481 | a load returns the byte seen, or kills |
| CowVm.Vm.UserWrite | xv6/vm.c:432-481 | a store, with its fault, changes that byte of that process and nothing else, or kills |
| CowVm.Vm.InitUvm | xv6/vm.c:183-195 | page 0 holds the code followed by zeros; nothing else changes |
| CowVm.Vm.ClearPteU | xv6/vm.c:307-316 | closes one page to user code and keeps its contents |
| CowView.ViewCopied | xv6/vm.c:398-429 | a finished lazy copy shows what an eager copy would |
| CowView.ViewStored | xv6/vm.c:432-481 | a store shows as the store into a private copy |
| CowKernel.UserInit | xv6/proc.c:120-154 | the first process has one page: byte by byte its code, and zeros after it |
| CowKernel.Fork | xv6/proc.c:536-578 | succeeds as an eager fork, or fails with nothing to see, no count or frame changed, and at most 1025 frames free |
| CowKernel.Grow | xv6/proc.c:158-175 | grows as with private pages, and every byte of the new ones reads as 0, or changes nothing to see; fails only past KERNBASE or for want of frames |
| CowKernel.Shrink | xv6/proc.c:158-175 | shrinks as with private pages |
| CowKernel.Read | xv6/vm.c:432-481 | reads what a private copy holds |
| CowKernel.Write | xv6/vm.c:432-481 | writes into what amounts to a private copy; killed for want of memory only with no frame free |
| CowKernel.Exit | xv6/proc.c:287-300 | the process is gone and nobody else sees a difference |
| CowKernel.Execute | xv6/vm.c:398-481 | for every sequence of forks, growth, shrinking, loads, stores, guard pages and exits, the reports and what each process sees afterwards are those of a machine with eager private copies; out of memory is reported only by commands that allocate, and only in states with too few free frames |
| Eager.GrowReads | xv6/vm.c:223-252 | in the reference machine: memory a process grows into reads as 0, the old memory as before |
| Eager.ForkReads | xv6/proc.c:536-578 | a child has the size of its parent, reads what it reads, and is not killed |
| Eager.ShrinkReads | xv6/vm.c:258-284 | exactly the pages above the new size are gone |
| Eager.GuardReads | xv6/exec.c:66-71 | exactly the guard page cannot be touched |
| Eager.PokePeek | xv6/vm.c:432-481 | a store is seen at its address by its process, and nowhere else |
| FsFormat.BitUpdate | xv6/fs.c:66-93 | setting or clearing a bit by arithmetic touches that bit only |
| FsFormat.BitInWith | xv6/fs.c:81-96 | changing the bit of a block changes the bit of no other block |
| FsFormat.WordPut | xv6/fs.c:390-395 | storing one word of an indirect block changes no other word |
| FsFormat.WordBytes | xv6/fs.c:390-395 | the bytes of a word are its digits to base 256, the lowest first |
| FsFormat.TestBit | xv6/fs.c:66-93 | the bit of 1 << k is the digit of 2^k |
| FsState.BitsAreOwners | xv6/fs.c:56-96 | between operations a bitmap bit is set if and only if the block is metadata or some inode owns it |
| FsState.OwnedOnce | xv6/fs.c:373-401 | no block is in two slots, or both a data and an indirect block |
| FsSteps.TakeKeeps | xv6/fs.c:56-78 | taking a free block and zeroing it keeps bitmap and ownership in order and changes no file |
| FsSteps.DropKeeps | xv6/fs.c:81-96 | freeing a block without owner keeps them in order |
| FsSteps.PlaceEntryKeeps | xv6/fs.c:390-395 | entering a zeroed block in an indirect block keeps them in order and changes no file |
| FileSystem.Fs.constructor | xv6/fs.c:31-39 | a fresh file system is consistent |
| FileSystem.Fs.Balloc | xv6/fs.c:56-78 | the first free block, zeroed and marked; the panic only if no block is free |
| FileSystem.Fs.Bfree | xv6/fs.c:81-96 | clears exactly that bit; the panic if and only if it is clear already, which no caller can reach |
| FileSystem.Fs.Bmap | xv6/fs.c:373-401 | the address of the block, allocated if need be across the direct and indirect parts; no file changes, every allocated block ends up owned; fails only if no block is free |
| FileSystem.Fs.Itrunc | xv6/fs.c:408-436 | frees exactly the blocks the inode owned, indirect block included, and touches no other file; no free block is freed again and none is lost |
| FileSystem.Fs.Readi | xv6/fs.c:453-477 | returns the clipped slice of the contents; -1 if and only if the offset is past the end or the sum wraps |
| FileSystem.Fs.Writei | xv6/fs.c:482-512 | splices the bytes into the contents and changes no other file; -1 if and only if the source says so; panics only if no block is free |
| FsBytes.WriteEnds | xv6/fs.c:507-511 | with the size updated at the end, the contents are the old ones with the bytes spliced in, and no hole arises |
| DirFormat.Strncmp | xv6/string.c:58-66 | zero if and only if the parts of the strings that count are equal |
| DirFormat.Strncpy | xv6/string.c:68-79 | what counts of the string, then zeros |
| DirFormat.PadPrefix | xv6/string.c:68-79 | the padded copy compares equal to the original |
| DirFormat.DecodeEncode | xv6/fs.h:51-56 | a directory entry survives being written and read |
| DirFormat.EntryBytes | xv6/fs.h:51-56 | an entry is sixteen bytes: the inode number, low byte first, and the name |
| DirFormat.LinkMap | xv6/fs.c:552-579 | a new name in a free slot or at the end adds one pair to the map and keeps names unique |
| DirFormat.EntrySplice | xv6/fs.c:570-577 | writing 16 bytes at an entry boundary replaces that entry, or appends one |
| Directory.FindName | xv6/fs.c:533-548 | the loop finds the first used entry with the name |
| Directory.Dirlookup | xv6/fs.c:525-549 | looks the name up in the map of 14-byte names, in both directions, and returns its place |
| Directory.Dirlink | xv6/fs.c:552-579 | refuses a name that is there, and otherwise puts it into the first free entry, or at the end if none is free, extends the map by exactly that pair and changes no other entry and no other file; never fails if an entry is free, and else only on a full disk or directory |
| Directory.AddEntry | xv6/fs.c:565-578 | a new name goes into the first free entry, with the size unchanged, or to the end; the map is extended by exactly its pair, no other file changes and all other directories stay directories; never fails if an entry is free |
| PathFormat.JoinSplit | xv6/fs.c:582-595 | splitting a path at slashes loses nothing |
| PathFormat.CompsJoin | xv6/fs.c:582-595 | components joined with slashes are read back |
| PathFormat.CutPrefix | xv6/fs.c:608-614 | what counts of a component is its first 14 bytes |
| PathFormat.CopyName | xv6/fs.c:608-614 | the name buffer compares equal to the component, whatever it held before |
| PathFormat.SkipElem | xv6/fs.c:596-619 | takes exactly the first component off, leaves no leading slash, reaches the end if and only if it was the last, and fails if and only if there is none |
| PathName.Inodes.Iget | xv6/fs.c:242-273 | one more reference on the only entry for the inode, or the first free entry with one, not valid; fails if and only if it is not cached and none is free |
| PathName.Inodes.Idup | xv6/fs.c:277-284 | one more reference |
| PathName.Inodes.Ilock | xv6/fs.c:288-313 | loads the inode; panics if and only if it is free |
| PathName.Inodes.Iput | xv6/fs.c:332-353 | gives a reference back; frees inode and blocks exactly when it was the last to an inode without links, and keeps every such inode referenced |
| PathName.Inodes.Lookup | xv6/fs.c:525-549 | dirlookup with iget: exactly the inode found has one more reference |
| PathName.Inodes.AddLink | xv6/fs.c:552-579 | dirlink with its iget and iput: the counts are as before, the directory maps the name to the inode afterwards, in its first free entry or a new one |
| InodeState.BorrowedStays | xv6/fs.c:332-353 | giving back a borrowed reference never frees an inode |
| InodeState.ParentChild | xv6/fs.c:660-671 | looking the last name up in the parent found gives what the whole path names |
| InodeState.WalkStuck | xv6/fs.c:635-651 | a lookup that fails at some component fails as a whole, in the same way |
| PathName.Inodes.Hop | xv6/fs.c:635-651 | one turn of the loop exchanges the reference for that of the next inode, or gives it back |
| PathName.Inodes.Namex | xv6/fs.c:625-658 | returns the fold of the directory maps over the components, or the parent and last name; on every return exactly the inode returned has one more reference; the cache-full panic needs at most one free entry |
| HeapState.FreeOrLive | xv6/umalloc.c:24-90 | no unit is both free and handed out |
| HeapState.UnitsHold | xv6/umalloc.c:69 | the payload holds the bytes asked for, and is less than a unit larger, if and only if nbytes + 7 does not wrap |
| HeapState.UnitsWrap | xv6/umalloc.c:69 | malloc(0xFFFFFFFF) asks for a bare header |
| HeapState.SbrkExact | xv6/umalloc.c:52-58 | the units recorded are those asked of sbrk if and only if there are fewer than 2^28 |
| HeapState.SbrkWrap | xv6/umalloc.c:52-58 | for 2^28 units sbrk is asked to shrink by 2^31 bytes |
| HeapSteps.InsertKeeps | xv6/umalloc.c:30-43 | inserting a block keeps the ring in address order, apart and conserving |
| HeapSteps.MergeKeeps | xv6/umalloc.c:33-42 | joining two blocks that touch keeps it so |
| HeapSteps.SearchMoves | xv6/umalloc.c:30-32 | the search for the place goes on only where it has not arrived |
| UserHeap.Heap.FindPlace | xv6/umalloc.c:30-32 | terminates at the free block next below |
| UserHeap.Heap.Free | xv6/umalloc.c:24-44 | the block is live no more; ring circular, ordered with one wrap point, coalesced, apart from live blocks; every unit is accounted for; freep is the free block below |
| UserHeap.Heap.Morecore | xv6/umalloc.c:46-61 | adds exactly the units obtained, the number asked for but at least 4096, or nothing |
| UserHeap.Heap.Carve | xv6/umalloc.c:75-85 | takes the units from the end of the block, or the whole block, and leaves freep at the one before |
| UserHeap.Heap.Malloc | xv6/umalloc.c:63-90 | the end of the first block after freep that is large enough; terminates with at most one morecore call, made only if no free block fits; hands out a new block of the right size apart from all others; 0 only if sbrk failed |
| ProcRuns.StepKeeps | xv6/proc.c:73-497 | every step of every CPU and thread keeps the core of the invariant, with timer interrupts anywhere outside the locks, and what it says of sleep-locks; and what it says of any set of other monitors, if the step keeps the rule for those |
| ProcRuns.RunKeeps | xv6/proc.c:73-497 | so does every run |
| ProcRuns.ReachableInv | xv6/proc.c:73-497 | every state that any run from boot can reach has the core, and sleep-locks lose no wakeup there; no rule is asked of the run |
| ProcRuns.KeepingInv | xv6/proc.c:73-497 | with what it says of the monitors in a set, in every run that keeps the rule for that set |
| ProcTheorems.RunningOnOneCpu | xv6/proc.c:322-382 | whenever ptable.lock is free, a process is RUNNING if and only if a CPU has it as proc, and then only one |
| ProcTheorems.NoForgottenChild | xv6/proc.c:227-312 | nobody sleeps in wait with a ZOMBIE child, and every ZOMBIE has a living parent |
| ProcTheorems.StackAllocated | xv6/proc.c:287-300 | no CPU runs on a freed kernel stack |
| ProcTheorems.ReapedOnce | xv6/proc.c:272-312 | wait returns no pid twice, and frees a stack only when its process is on no CPU |
| ProcTheorems.SleepLockExclusive | xv6/sleeplock.c:22-42 | a sleep-lock has at most one holder, and is locked while it has one |
| ProcTheorems.NoLostWakeup | xv6/proc.c:417-452 | for any value under any spin lock and any condition on it, whatever is done in other monitors: if the users of this one make the wakeups due, or it is a sleep-lock, who sleeps on a channel, or has found its condition and is about to, faces the condition whenever the lock is free, and else the condition or a wakeup the holder has yet to make |
| ProcTheorems.WakeupWakes | xv6/proc.c:457-474 | the wakeup makes all of them RUNNABLE, and none is left asleep or about to sleep |
| ProcTheorems.LockerNotForgotten | xv6/sleeplock.c:22-42 | in every run: nobody sleeps in acquiresleep on a sleep-lock that is not locked, while its spin lock is free |
| ProcTheorems.SleepLockSettled | xv6/sleeplock.c:22-42 | in every run acquiresleep and releasesleep make every wakeup due before they leave or sleep |
| ProcTheorems.ReaderNotForgotten | xv6/pipe.c:100-121 | nobody sleeps in piperead on a pipe that has bytes or no writers, if the wakeups due in this pipe are made; PipewriteRuns says when they are |
| ProcTheorems.WriterNotForgotten | xv6/pipe.c:78-98 | nobody sleeps in pipewrite on a pipe that has room or no readers, if the wakeups due in this pipe are made |
| ProcTheorems.BeginNotForgotten | xv6/log.c:125-141 | nobody sleeps in begin_op with room in the log and no commit under way, if the wakeups due in the log are made; LogRuns says that they are |
| MonitorActs.PutsPlay | xv6/pipe.c:93 | bytes stored make the wakeup of readers due, if the pipe was empty, and no other |
| MonitorActs.GetsPlay | xv6/pipe.c:113-117 | bytes delivered make at most the wakeup of writers due |
| MonitorActs.WriteOwes | xv6/pipe.c:78-98 | pipewrite leaves the wakeup of readers due exactly when the pipe was empty and open, more is to be written than fits, and the writer has been killed or no reader is left; else it leaves none |
| MonitorActs.ReadOwes | xv6/pipe.c:100-121 | piperead leaves no wakeup due |
| MonitorActs.CloseOwes | xv6/pipe.c:59-75 | pipeclose leaves no wakeup due |
| MonitorActs.EndOwes | xv6/log.c:145-162 | the operation that starts a commit need not wake anyone, and the others do |
| MonitorTheorems.CodeRuns | xv6/proc.c:417-474 | code under a spin lock is a run of the process machine: the value changes as played, those asleep on a channel are awake afterwards if and only if it was notified, and the run keeps the rule if and only if no wakeup is left due |
| MonitorTheorems.PipewriteRuns | xv6/pipe.c:78-98 | from every reachable state: a pipewrite keeps the rule, if and only if not (empty pipe, more than PIPESIZE bytes, killed or no reader); a process asleep in piperead sleeps on if and only if the writer gives up |
| MonitorTheorems.PipereadRuns | xv6/pipe.c:100-121 | from every reachable state: a piperead keeps the rule and wakes everyone asleep in pipewrite, but on an empty open pipe |
| MonitorTheorems.PipecloseRuns | xv6/pipe.c:59-75 | from every reachable state: a pipeclose keeps the rule and wakes everyone asleep at the other end |
| MonitorTheorems.LogRuns | xv6/log.c:125-173 | from every reachable state: begin_op and both halves of end_op keep the rule |
| MonitorTheorems.HolderAlone | xv6/proc.c:417-474 | while a process holds a spin lock no step of anybody else moves it or changes what the lock protects, but for changes that end no condition |
| ForgottenReader.ReaderForgotten | xv6/pipe.c:84-93 | a state that a run from boot reaches: the pipe is full, its lock is free, and a process sleeps in piperead; a killed process has written |
| ProcTheorems.SchedNoPanic | xv6/proc.c:365-382 | who switches holds ptable.lock and no other spin lock, is the current process and is not RUNNING, so those panics of sched are unreachable |
| ProcTableProof.ReapSafe | xv6/proc.c:287-300 | a child being reaped is past its last switch, and its pid was never returned |
| ProcTable.WakeupAll | xv6/proc.c:457-465 | the loop wakes exactly the sleepers on the channel |
| ProcTable.PassChildren | xv6/proc.c:252-262 | the loop with its wakeups amounts to the one step of the machine |
| ProcTable.ScanChildren | xv6/proc.c:281-302 | the first exited child, or none and whether there are children |
| ProcTable.FindUnused | xv6/proc.c:81-86 | the first unused entry |
| ProcTable.KillPid | xv6/proc.c:484-496 | the first process with the pid is marked killed and, if it sleeps, RUNNABLE, field by field; nothing else changes |
| ProcEffects.KillEffect | xv6/proc.c:479-497 | the same of the step of the machine, on whatever channel the process sleeps |
| ProcEffects.EndWaitEffect | xv6/proc.c:304-310 | wait without an exited child gives up if and only if no entry has the caller for a parent or the caller has been killed; else it goes on to sleep |
| ProcEffects.SleepEffect | xv6/proc.c:417-452 | what yield and sleep do to state and channel, going and coming back |
| ProcEffects.ExitTableAt | xv6/proc.c:247-262 | children become init's, and exactly the parent, and init if it gets an exited child, are woken from wait |
| ProcEffects.ExitEffect | xv6/proc.c:227-268 | exit does that and leaves a ZOMBIE |
| ProcEffects.ReapEffect | xv6/proc.c:287-300 | wait leaves an UNUSED entry without pid, parent, stack or mark of a kill |
| ProcEffects.AllocEffect | xv6/proc.c:73-94 | allocproc takes an UNUSED entry and the next pid |
| ProcEffects.ForkEffect | xv6/proc.c:536-578 | the child gets a stack, then its parent, then the state RUNNABLE |
| ProcEffects.PickEffect | xv6/proc.c:322-357 | the scheduler runs a RUNNABLE process where it left off |
| ProcEffects.WakeEffect | xv6/proc.c:457-474 | wakeup changes the state of the sleepers on the channel, and no more |
| ProcProgress.Progress | xv6/proc.c:322-497 | in every reachable state every CPU has a step to take, other than an interrupt, unless it spins for a lock that somebody else has |
| ProcProgress.NoDeadlock | xv6/proc.c:322-497 | in every reachable state some CPU has a step to take: the holder of ptable.lock never waits, and the holder of another spin lock at most for ptable.lock |
| ProcProgress.MayChoose | xv6/proc.c:322-497 | outside the locks a thread may be interrupted anywhere and may begin exit, wait, fork, kill or a monitor |
| ShellComplete.AtomParses | xv6/sh.c:374-446 | every way to type a simple or parenthesised command, with any blanks, > or >>, and redirections before, between and after the arguments, is parsed into its tree |
| ShellComplete.PipeParses | xv6/sh.c:361-372 | the same for pipelines |
| ShellComplete.LineParses | xv6/sh.c:344-359 | the same for lists and background commands |
| ShellSound.LineSound | xv6/sh.c:344-446 | whatever the parser accepts was typed in one of those ways, and its tree is the one meant |
| ShellSound.ParsesExactly | xv6/sh.c:327-446 | for every line: it is parsed if and only if it is in the language of a grammar that does not mention the parser, and then into the tree the grammar gives it |
| ShellRoundTrip.RoundTrip | xv6/sh.c:327-493 | every command tree with legal words and at most MAXARGS-1 arguments can be typed, and survives printing and parsing, with no leftovers |
| ShellWords.CmdStands | xv6/sh.c:265-342 | every word of a parsed command is a whole word of the line, where it says; only descriptors 0 and 1 are redirected |
| ShellParser.Parser.NextToken | xv6/sh.c:265-308 | the cursor loops compute the token function |
| ShellParser.Parser.PeekAt | xv6/sh.c:310-320 | skips blanks and tests the next character |
| ShellParser.Parser.ParseRedirections | xv6/sh.c:374-397 | the loop computes the redirection function, which ShellSound.ParsesExactly ties to the grammar |
| ShellParser.Parser.ParseExecCmd | xv6/sh.c:415-446 | the loop computes the parser function; terminates |
| ShellParser.Parser.ParseBlockCmd | xv6/sh.c:399-413 | the same for blocks |
| ShellParser.Parser.ParsePipeCmd | xv6/sh.c:361-372 | the same for pipelines |
| ShellParser.Parser.ParseLineCmd | xv6/sh.c:344-359 | the same for lines |
| ShellParser.Parser.ParseAll | xv6/sh.c:327-342 | on every input the methods end; they accept exactly the lines of the grammar, with the tree the grammar gives |
| ShellParser.NulTerminate | xv6/sh.c:449-493 | writes a NUL after every word and nowhere else |
| ShellParser.ReadsBack | xv6/sh.c:449-493 | after it every argument and file name, read as a C string, is exactly its token |
| ShellParser.ParsedLegal | xv6/sh.c:265-446 | every tree the parser builds is legal |
| ShellParser.ParsePrintParse | xv6/sh.c:327-446 | parsing, printing and parsing again gives the same tree |
| BufRing.RemoveOk | xv6/bio.c:132-133 | unlinking a buffer leaves a well-formed doubly linked ring in release order |
| BufRing.PutFirstOk | xv6/bio.c:134-137 | inserting at the head does too |
| BufState.RecycleKeeps | xv6/bio.c:78-91 | recycling an eligible buffer for an uncached block changes the contents of no block |
| BufferCache.Cache.constructor | xv6/bio.c:38-56 | all buffers are in the ring and every block reads as on disk |
| BufferCache.Cache.Lookup | xv6/bio.c:68-76 | the buffer of the block, or proof that there is none |
| BufferCache.Cache.FindVictim | xv6/bio.c:78-91 | the least recently released buffer with refcnt 0 and not dirty; none only if every buffer has refcnt > 0 or is dirty |
| BufferCache.Cache.Bget | xv6/bio.c:61-93 | the buffer of the block with one reference more, or the least recently released one with refcnt 0 and not dirty, now with one reference and not valid; at most one per block; fails only if the block is not cached and every buffer has refcnt > 0 or is dirty |
| BufferCache.Cache.Iderw | xv6/memide.c:38-60 | one transfer between buffer and disk, visible to nobody |
| BufferCache.Cache.Bread | xv6/bio.c:96-106 | the buffer holds the contents last written to the block and has one reference more; fails as bget does |
| BufferCache.Cache.Bwrite | xv6/bio.c:109-116 | the contents are on disk |
| BufferCache.Cache.Brelse | xv6/bio.c:120-141 | the last reference makes the buffer the most recently released; no block changes |
| BufferCache.Cache.Store | xv6/bio.c:96-141 | a block read, changed, logged or written, and released: it alone reads differently from then on, and all reference counts are as before; fails only if every buffer has refcnt > 0 or is dirty |
| BufferCache.Cache.Serve | xv6/bio.c:61-141 | any sequence of reads and changes by users that log or write what they change: they read what they would on a disk without the cache, and leave all reference counts as they were; it stops only if every buffer has refcnt > 0 or is dirty |
| Grep.BeginsStar | xv6/grep.c:98-106 | the language of a starred item unfolds as the loop does |
| Grep.HereDecides | xv6/grep.c:84-96 | matchhere accepts if and only if a beginning of the text is in the language of the parsed pattern |
| Grep.HereStarDecides | xv6/grep.c:98-106 | the same for matchstar |
| Grep.MatchHere | xv6/grep.c:84-96 | the code computes that decision; terminates |
| Grep.MatchStar | xv6/grep.c:98-106 | the loop computes that decision; terminates |
| Grep.Match | xv6/grep.c:72-82 | true if and only if the text has a substring in the language, a prefix for ^, a suffix for $ |
| GrepLaws.FindsChar | xv6/grep.c:84-96 | a character finds itself and . any character |
| GrepLaws.FindsWord | xv6/grep.c:72-96 | a pattern without special characters finds exactly the texts it occurs in |
| GrepLaws.FindsPrefix | xv6/grep.c:72-96 | after ^ exactly those it starts |
| GrepLaws.FindsSuffix | xv6/grep.c:84-96 | before $ exactly those it ends |
| GrepLaws.FindsRun | xv6/grep.c:98-106 | ^c*$ finds exactly the texts made of c, and ^.*$ all |
| PipeState.Tests | xv6/pipe.c:84-117 | the tests for full and empty, and the slot, are right after the counters have wrapped |
| PipeState.ViewFilled | xv6/pipe.c:84-117 | the counters, as they wrap, say how many bytes are stored and not delivered |
| Pipe.Pipe.Put | xv6/pipe.c:93 | one more byte stored |
| Pipe.Pipe.Get | xv6/pipe.c:113-117 | the oldest byte not delivered |
| Pipe.Pipe.Write | xv6/pipe.c:78-98 | stores a part of the source, in order; stops short only on a full pipe; what it does under the lock is WriteActs; it leaves the wakeup of readers due if and only if the pipe was empty and open, more than PIPESIZE bytes were to be written, and the writer has been killed or no reader is left |
| Pipe.Pipe.Read | xv6/pipe.c:100-121 | delivers the next bytes, in order; sleeps or fails only on an empty pipe that is open for writing; what it does under the lock is ReadActs and leaves no wakeup due |
| Pipe.Pipe.Close | xv6/pipe.c:59-75 | the pipe is freed if and only if both ends are closed; what it does under the lock is CloseActs and leaves no wakeup due |
| Pipe.Pipe.Interleave | xv6/pipe.c:78-121 | in every interleaving the bytes delivered are a prefix of the bytes stored, and the counter difference modulo 2^32 stays within PIPESIZE |

## Left out

- copyuvm and the original fork: they map frames without counting them, so the counts do not survive them.
- copyout writes through the kernel mapping and does not break sharing; it is not a step of the memory model.
- exec's loading of ELF files and loaduvm: plumbing over allocuvm and readi. exec's guard page is modelled.
- Kernel stacks, pipes and other kernel pages are not tracked frame by frame in the memory model; they are frames of the kernel.
- Page-table entries are records and shifts are divisions; the free list is a sequence, not linked through the frames.
- Hardware and boot code, spin-lock internals, interrupts and segment setup: a spin lock is an atomic lock and TLB flushes take effect at once.
- vm2.c is not built. The sysproc.c wrappers have no property of their own.
- Link counts in sysfile.c (create, unlink, link) and ialloc: the global invariant needs side conditions the code does not check.
- On-disk inode blocks and iupdate: types, sizes and addresses are kept in one place, so an inode in memory and on disk agree. There is one device.
- Sleep and wakeup in the console, the disk driver and sys_sleep: the protocol is proved for any monitor, and its rule for sleep-locks, pipes and the log.
- Loops under ptable.lock are one step of the process machine; ProcTable proves that the loops compute those steps.
- Wrap-around of nextpid: pids are unbounded numbers in the process machine.
- The panic of bget when every buffer is in use is a result of the method; that it is unreachable is not claimed.
- grep's line buffer: it drops overlong lines and an unterminated last line. mkfs, user utilities and tests are not modelled.
- UserHeap.Heap.Malloc: does not model requests of 2^28 units or more, because sbrk then gets another size than morecore records (HeapState.SbrkExact); sbrk's answers are multiples of the header size at or above the break.
- CowVm.Vm.InitUvm: requires two free frames, because the source uses the results of both allocations unchecked.
- CowKernel.Shrink: does not model shrinking to size 0, because growproc then takes the result for a failure and keeps the old size without the pages.
- Directory.Dirlookup: does not take the reference that iget takes; PathName.Inodes.Lookup does.
- Faults in kernel mode: the memory model has accesses in user mode only, where a process that finds no frame is killed and exits. In kernel mode it is marked killed, does not exit (`xv6/trap.c:103`) and faults again.
- MonitorTheorems.CodeRuns: the run holds no step of another CPU, and starts with ptable.lock free; MonitorTheorems.HolderAlone says what such steps leave alone.
- LogCapacity.FileWriteOverflows: does not follow writei, because any operation that enters as many distinct blocks as filewrite allows has the same effect.
- ProcTheorems.SchedNoPanic: does not model the interrupt flag, so the panic on it is not covered.
- BufferCache.Cache.Brelse: requires that a change has been written or logged, because a change that was not is lost with the buffer.
- UserHeap.Heap.Morecore: does not model requests of 2^28 units or more, for the same reason.
- PathName.Inodes.Namex: runs alone, so the locks on inodes and their order are not part of it.
- FileSystem.Fs.Readi: leaves out the device branch, which calls code outside fs.c.
- Directory.Dirlink: does not describe a link to inode number 0 modulo 2^16, because the entry then reads as free.
- PathName.Inodes.AddLink: excludes such a link, for the same reason.
- FileSystem.Fs.Writei: leaves out the device branch, and the state after balloc's panic, because the kernel stops there.
