# Verified models of a small 32-bit kernel

The kernel manages memory in layers (bitmaps, frame pools, a recursively mapped two-level page
table, page allocation, an arena allocator), schedules threads with counting semaphores and
re-entrant locks on intrusive lists, switches between per-thread stacks, and buffers keys in a ring.
Each layer is an efficient form of something simple. The project models the code of each layer and
proves that it is that simple thing, in every state of every run.

| file | models | stands for |
|---|---|---|
| `Bitmap.dfy` | `bitmap.c` on bytes of one shared array | a set of integers, first fit |
| `FramePools.dfy` | the two frame pools as adjacent bitmaps | disjoint sets of frames |
| `LinkedList.dfy` | `list.c` on a flat word memory | sequences |
| `Paging.dfy` | page walks, the self-map, `PageMapping` | a partial map from pages to frames |
| `Spaces.dfy` | the tables of all address spaces, and who owns each frame | disjoint maps that share the kernel |
| `Vmem.dfy`, `VmemCode.dfy`, `VmemUndo.dfy`, `VmemData.dfy`, `VmemClash.dfy`, `VmemOutcome.dfy` | `palloc`, `pfree`, boot, `CreatPDE`, `ActivePDE`, down to the bitmaps' bytes | runs over those maps, and exact answers |
| `VmemAccess.dfy` | the access bits of all entries | pages that user mode reads and writes |
| `HeapSpec.dfy`, `HeapStores.dfy`, `HeapRuns.dfy`, `HeapOrder.dfy` | arenas, free lists, blocks, and runs of calls and stores on physical memory | a set of disjoint blocks that hold what was stored |
| `HeapMemory.dfy`, `HeapSteps.dfy`, `HeapPages.dfy`, `HeapCode.dfy` | `sys_malloc` and `sys_free` on memory, lists and page tables | the arenas of `HeapSpec` |
| `Threads.dfy`, `ThreadProofs.dfy`, `ThreadOrder.dfy`, `ThreadLists.dfy`, `ThreadCode.dfy` | scheduler, timer, semaphores, locks as interleaved steps, on intrusive lists in memory | one owner per lock, no lost wakeup, bounded waiting, exact turns, first come first served |
| `Switch.dfy` | `switch_to` and new threads' first frames | threads that keep their registers and stacks |
| `IoQueue.dfy` | the keyboard ring buffer under its two callers | a FIFO of at most 63 bytes |

Conventions. Words are unbounded integers; masks and shifts are written as `/` and `%`, and
wrap-around is written out where the source can meet it (the 8-bit semaphore value, the 32-bit lock
count, the arena count). Memory is a map from word index to word. A failed `ASSERT` spins for ever
(`source/kernel/debug.h:3`) and is an outcome of its own (`Halted`, `Stuck`, `Spins`, `Halt(line)`). A page fault
inside the kernel is another (`Fault`, `Trap`). Code that updates state in place is a class whose methods are
proved against functions of the old state; the theorems are about those functions.

What the code does not do as evidently intended is modelled as it is, with the exact condition:

- `ReturnOnePhysicPage` clears another frame's bit for the first user frame unless the number of
  kernel pages is a multiple of 8. `Frames.ExclusiveIff`: no run ever hands out a held frame exactly
  when it is such a multiple; `Frames.SecondOwner` gives a run that does, and
  `VmemClash.TwoPagesOneFrame` three calls of a process that leave two of its pages on one frame.
  `Vmem.PfreeSoundIff`: a single pfree does no harm exactly when it gives back no such frame.
  `VmemUndo.UndoneIff`: what palloc hands out can be given back exactly when the kernel asks, or the
  number is such a multiple, or the first user frame was in use before.
- `ThreadStart` and `ExecProcess` scan the ready list with interrupts on (`source/thread/thread.c:126`,
  `source/userprog/process.c:88`), and the thread whose tag the scan stands on can block meanwhile. The
  scan then leaves the list and stops at the ASSERT of `source/lib/kernel/list.c:77`.
  `ThreadCode.Cpu.ResumeStart`: resumed on a thread's tag it comes through exactly when that thread is
  READY; `ScanRun.BlockedUnderScan` is a run in which it is not.
- `BitmapScan` for several bits also looks at the bit just past the end. `BitSets.ScanManyExactIff`
  says exactly when its answer differs from first fit.
- A process's run of pages may therefore reach the kernel's first page, where `PageMapping` stops at its
  ASSERT; `VmemOutcome.PallocPastTheEnd` says exactly when.
- `SetupPage` does not clear the kernel page tables behind the first 256 entries. `VmemCode.Machine.Boot`:
  the booted state is sound exactly when the memory happened to map no heap page.
- With a consumer asleep, `ioqueue_putchar` wakes the producer slot, sleeps itself or stops
  (`IoQueue.PutNeverWakesConsumer`); under the guarded callers no one sleeps.
- The flags of the entries that boot and `CreatPDE` write are decimal in `boot.inc` and `global.h`: 111, so
  that they have the present, write and user bits all the same, and three more.
- A full bitmap fails the ASSERT in `BitmapScan`, so `palloc` never reaches its rollback.
- `ThreadCreate` subtracts byte sizes from a pointer to words, so the first frame lies 108 words, not
  27, below the top of the stack page; it still works (`Switch.FreshThread`).

## Model

| member | source | states |
|---|---|---|
| BitSets.FirstRun | source/lib/kernel/bitmap.c:21-68 | reference first fit: the lowest start of `cnt` consecutive clear bits below the limit, or none exists |
| BitSets.FirstRunUnique | source/lib/kernel/bitmap.c:21-68 | a clear run with no clear run before it is the first-fit answer |
| BitSets.ScanOneExact | source/lib/kernel/bitmap.c:23-44 | for one bit the scan halts exactly when all bits are set, never answers -1, and otherwise returns the lowest clear bit |
| BitSets.ScanManyExactIff | source/lib/kernel/bitmap.c:46-67 | for two or more bits the scan equals first fit if and only if the bit past the end is set, or first fit finds a run, or the last `cnt - 1` bits are not all clear; when it differs it returns the run ending at that bit |
| BitSets.ScanFoundIsClear | source/lib/kernel/bitmap.c:50-66 | what a scan returns is a clear run within the bitmap and the one bit past it |
| BitSets.ScanDependsOn | source/lib/kernel/bitmap.c:21-68 | the result depends on the bitmap's bits and the one past it only |
| Bitmaps.WithBit | source/lib/kernel/bitmap.c:70-83 | the or/and-not masks change bit k and no other bit of the byte |
| Bitmaps.BitsMeaning | source/lib/kernel/bitmap.c:14-19 | the set of bits of a byte array is that of its byte/bit positions |
| Bitmaps.Bitmap.TestBit | source/lib/kernel/bitmap.c:14-19 | the mask test is membership in the bit set |
| Bitmaps.Bitmap.Init | source/lib/kernel/bitmap.c:8-12 | clears exactly this bitmap's bits of the shared array |
| Bitmaps.Bitmap.SetBit | source/lib/kernel/bitmap.c:70-83 | adds or removes exactly one element of the shared array's bit set, also past the bitmap's end |
| Bitmaps.Bitmap.BitmapScan | source/lib/kernel/bitmap.c:21-68 | the byte-level loops compute the scan of the bit set, the early read of `bits[len]` included |
| Bitmaps.Bitmap.FirstClearBit | source/lib/kernel/bitmap.c:34-38 | in a byte that is not 0xFF, the bit loop stops at the lowest clear bit |
| Bitmaps.Bitmap.ScanFrom | source/lib/kernel/bitmap.c:46-67 | the counting loop computes the scan from the first clear bit on |
| Frames.PoolsLieInMemory | source/kernel/memory.c:190-237 | for every memory of at least 2 MiB, frames a pool bitmap can name lie in that pool, inside memory, above the boot directory and tables, in one pool only |
| Frames.PoolsCoverMemory | source/kernel/memory.c:190-222 | the kernel pool starts right behind the boot tables, the user pool behind it, of equal size up to a page, to within a page of the end of memory; each bitmap names all frames of its pool but at most 7 |
| Frames.BitmapsBelowMainPcb | source/kernel/memory.c:200-222 | the largest memory sizes for which the three bitmaps, and the byte read past them, stay below the main thread's PCB page |
| Frames.GetFrameMarks | source/kernel/memory.c:93-106 | the frame taken was free, lies in its pool, and is the only frame newly marked |
| Frames.PutFrameMarks | source/kernel/memory.c:109-124 | a returnable frame is the only one unmarked |
| Frames.ReturnUndoesGet | source/kernel/memory.c:93-124 | returning inverts taking if and only if it is not the first user frame or the kernel pages are a multiple of 8 |
| Frames.BalancedRun | source/kernel/memory.c:93-124 | with a multiple of 8, over every run the marked frames are exactly the held ones |
| Frames.SecondOwner | source/kernel/memory.c:113-122 | otherwise ten requests hand out a frame that is still held |
| Frames.ExclusiveIff | source/kernel/memory.c:93-124 | frames are handed out exclusively over all runs if and only if the kernel pages are a multiple of 8 |
| FramePools.PhysicalPools.constructor | source/kernel/memory.c:190-240 | lays out three adjacent bitmaps, all clear, and touches no byte outside them |
| FramePools.PhysicalPools.GetOnePhysicPage | source/kernel/memory.c:93-106 | the byte-level code is the set-level request, and leaves the virtual bitmap alone |
| FramePools.PhysicalPools.ReturnOnePhysicPage | source/kernel/memory.c:109-124 | the byte-level code is the set-level return, including the spill into the user bitmap |
| LinkedList.LinkedUnique | source/lib/kernel/list.c:11-128 | a memory holds at most one sequence at a list head |
| LinkedList.LinkedFrame | source/lib/kernel/list.c:11-128 | a list depends on its own words only |
| LinkedList.SplicedLinks | source/lib/kernel/list.c:20-38 | the four stores insert the element at the place, with prev and next inverse, and change no word outside the list and the element |
| LinkedList.UnlinkedLinks | source/lib/kernel/list.c:53-61 | the two stores remove the k-th element and change nothing outside the list |
| LinkedList.Ram.ListInit | source/lib/kernel/list.c:11-17 | an empty list in four words, nothing else written |
| LinkedList.Ram.ListInsertBefore | source/lib/kernel/list.c:20-38 | the memory is the spliced one |
| LinkedList.Ram.ListPush | source/lib/kernel/list.c:41-44 | prepend, other words untouched |
| LinkedList.Ram.ListAppend | source/lib/kernel/list.c:47-50 | append, other words untouched |
| LinkedList.Ram.ListRemove | source/lib/kernel/list.c:53-61 | remove the given element, other words untouched |
| LinkedList.Ram.ListPop | source/lib/kernel/list.c:64-69 | take the first of a non-empty list |
| LinkedList.Ram.ElemFind | source/lib/kernel/list.c:72-85 | terminates and decides membership |
| LinkedList.Ram.ListLen | source/lib/kernel/list.c:112-122 | terminates with the length |
| LinkedList.Ram.ListEmpty | source/lib/kernel/list.c:125-128 | decides emptiness |
| Paging.PtePointerWalk | source/kernel/memory.c:78-84 | for every 32-bit address with a table, a hardware walk of its PTE pointer reaches exactly its table entry |
| Paging.PdePointerWalk | source/kernel/memory.c:86-90 | for every 32-bit address, a walk of its PDE pointer reaches exactly its directory entry |
| Paging.PageMappingIs | source/kernel/memory.c:127-153 | through the self-map, the code sets one table entry, or adds a cleared table and sets one, or stops where the page is mapped; what the entries are is `VmemAccess.PageMappingEntries` |
| Paging.PageUnmappingIs | source/kernel/memory.c:156-162 | through the self-map, the code zeroes one table entry |
| Paging.TranslateIs | source/kernel/memory.c:372-376 | the translation of a mapped page is its frame plus the offset |
| Paging.MapThenTranslate | source/kernel/memory.c:127-153 | after mapping, translation and hardware walk give the new frame plus offset |
| Paging.MapElsewhere | source/kernel/memory.c:127-153 | mapping leaves every other page outside the window as it was |
| Spaces.SpacesAgree | source/boot/loader.S:152-180 | every address space translates every kernel address below the window like the boot directory |
| Spaces.NoSharedFrame | source/kernel/memory.c:93-153 | no frame backs two managed pages, in one address space or in two |
| Spaces.TablesArePrivate | source/kernel/memory.c:146-152 | no page-table frame backs a managed page |
| Spaces.OwnedIffUsed | source/kernel/memory.c:93-153 | owned frames are exactly those backing a managed page or serving as a table |
| Spaces.MapKernelOk | source/kernel/memory.c:127-153 | mapping a kernel page keeps all address spaces in order |
| Spaces.UnmapKernelOk | source/kernel/memory.c:156-162 | unmapping one does too |
| Spaces.AddTableOk | source/kernel/memory.c:146-152 | giving a process a fresh page table changes no translation and keeps all spaces in order |
| Spaces.MapUserOk | source/kernel/memory.c:127-153 | mapping a page of one process keeps all spaces in order |
| Spaces.UnmapUserOk | source/kernel/memory.c:156-162 | unmapping one does too |
| Spaces.NewDirectoryOk | source/userprog/process.c:39-60 | a new directory shares the kernel's entries, maps no user page, and keeps all spaces in order |
| Spaces.DataWrite | source/kernel/memory.c:417-564 | a write to the frame of a managed page that is no directory changes no table |
| Vmem.LayoutFits | source/kernel/memory.c:193-222 | memory sizes whose bitmaps fit keep the kernel's virtual range below the window |
| Vmem.MapRunOk | source/kernel/memory.c:254-265 | the mapping loop never faults, and if it comes through exactly the run is mapped |
| Vmem.PallocOk | source/kernel/memory.c:242-268 | every palloc: no fault; pages returned were unmapped and are mapped, nothing else changed, invariant kept; when it returns pages is `VmemOutcome.KernelAnswered` and `VmemOutcome.ProcessAnswered` |
| Vmem.PfreeOk | source/kernel/memory.c:270-307 | every valid pfree comes through, unmaps exactly the run and keeps the invariant |
| Vmem.PfreeGuards | source/kernel/memory.c:275-279 | pfree comes through exactly for one page or more, the first at a physical address above 0x102000, when its loop does |
| Vmem.PfreeSoundIff | source/kernel/memory.c:270-307 | pfree of mapped pages always comes through, and keeps the invariant if and only if every frame of the run is returnable |
| Vmem.CreatPDEOk | source/userprog/process.c:39-60 | a new address space keeps the invariant and disturbs no kernel page |
| Vmem.ActivePDEOk | source/userprog/process.c:96-106 | whichever process is current, the wanted directory's frame is loaded |
| Vmem.BootSound | source/boot/loader.S:136-181 | the booted tables with empty pools satisfy the invariant |
| Vmem.OpKeeps | source/kernel/memory.c:242-307 | every operation keeps the invariant and none faults; freeing and switching always come through |
| Vmem.PoolBitsExact | source/kernel/memory.c:93-153 | each pool's set bits are exactly the frames backing a page or used as a table |
| Vmem.SoundIsolation | source/kernel/memory.c:242-307 | in every sound state no frame backs two managed pages |
| Vmem.SoundKernelShared | source/userprog/process.c:96-106 | in every sound state all spaces agree on kernel addresses |
| Vmem.RunSound | source/kernel/memory.c:242-307 | over every run, every state reached is sound |
| VmemOutcome.KernelAnswered | source/kernel/memory.c:36-56 | the kernel asks for 1 to 3839 pages and its bitmap has such a run: exactly when the kernel pool has as many free frames it gets the lowest run, from 0xC0100000 on, and that many frames leave the pool; otherwise the call never returns |
| VmemOutcome.KernelRefused | source/kernel/memory.c:242-268 | the bitmap has no such run: the run up to the bit past the end if that is clear, NULL if not, and no return from a full bitmap |
| VmemOutcome.ProcessAnswered | source/kernel/memory.c:57-76 | a process asks and its bitmap has such a run: exactly when there are as many free user frames, and a free kernel frame for each missing page table, it gets the lowest run, from 0x8048000 on, and those frames leave the pools; otherwise the call never returns |
| VmemOutcome.PallocPastTheEnd | source/kernel/memory.c:242-268 | a process's request for 2 or more pages, with some page free but no run of that length: never returns if the last cnt - 1 pages of user space are free, is answered NULL otherwise |
| VmemOutcome.NeverAnswered | source/kernel/memory.c:244 | requests for 3840 pages or more, and of a process whose bitmap is full, never return |
| VmemOutcome.GetCounts | source/kernel/memory.c:93-106 | a frame is found exactly when the pool has a free one, and one fewer is free afterwards |
| VmemOutcome.SpaceCost | source/userprog/process.c:39-74 | a new address space takes 24 frames of the kernel pool: 23 for 94199 bytes of bitmap, one for the directory |
| VmemCode.Machine.SetupPage | source/boot/loader.S:136-181 | word by word: the boot directory at 0x100000 with its kernel entries, self-map and empty user entries, and the first-megabyte map behind it, all with flags 111; no other word written |
| VmemCode.Machine.Boot | source/boot/loader.S:136-181 | the state after boot is sound if and only if no heap page starts out mapped, and then all its entries are open to user mode |
| VmemCode.Machine.GetVirtualPage | source/kernel/memory.c:36-76 | on the bytes of the kernel's or the process's bitmap: the scan, then exactly the run's bits set |
| VmemCode.Machine.MapPage | source/kernel/memory.c:127-153 | the stores through the self-map are `PageMapping`, whose entries `VmemAccess.PageMappingEntries` gives, and a pool frame is taken from the byte-level pool exactly when a table is missing |
| VmemCode.Machine.PallocPages | source/kernel/memory.c:242-268 | the loops over bytes and page tables are `Palloc`, answered as `VmemOutcome` says; NULL leaves the state as it was |
| VmemCode.Machine.PfreePages | source/kernel/memory.c:270-307 | the loops over bytes and page tables are `Pfree` |
| VmemCode.Machine.ReturnVirtualPage | source/kernel/memory.c:165-188 | exactly the run's bits cleared, in the bytes |
| VmemCode.Machine.CreateSpace | source/userprog/process.c:62-84 | the pages for the virtual bitmap, then the directory: never faults; it stops, or returns with a new address space in a sound state, the ASSERT at 71 holding |
| VmemCode.Machine.CreateDirectory | source/userprog/process.c:39-60 | one kernel page filled through the window is `CreatPDE` |
| VmemCode.Machine.FillDirectory | source/userprog/process.c:46-59 | copying entries through the window and the new page yields the new directory |
| VmemCode.Machine.SwitchDirectory | source/userprog/process.c:96-106 | in a sound state never faults, loads the frame of the wanted directory whichever process is current, and leaves every kernel address translated as before |
| VmemUndo.PfreeUndoesPalloc | source/kernel/memory.c:242-307 | pfree after palloc restores bitmaps, every page's mapping and the pools, except page tables a process keeps |
| VmemUndo.UndoneIff | source/kernel/memory.c:242-307 | pfree undoes palloc if and only if the kernel asked, or the kernel pages are a multiple of 8, or the first user frame was in use before the call |
| VmemUndo.ReturnableIff | source/kernel/memory.c:93-124 | that condition on the state before palloc says exactly whether every frame handed out is returnable |
| VmemUndo.PallocTables | source/kernel/memory.c:146-152 | palloc keeps every page table in its place; a kernel request adds none |
| VmemUndo.PfreeTables | source/kernel/memory.c:270-307 | pfree neither adds nor removes a page table |
| VmemData.PallocData | source/kernel/memory.c:127-153 | palloc leaves every mapped page that is no directory on its frame, with its contents |
| VmemData.PfreeData | source/kernel/memory.c:270-307 | pfree does too for every page outside the run, whatever the frames |
| VmemData.OpKeepsData | source/kernel/memory.c:242-307 | every operation of anyone leaves every data page that it does not release on its frame, with its contents |
| VmemData.StoreThrough | source/kernel/memory.c:417-564 | a store through the page tables to a data page changes exactly that word of that page: no translation, no bitmap's agreement and no other word of any page of anyone |
| VmemAccess.PageMappingEntries | source/kernel/memory.c:136-151 | the page's new entry, and the directory's for a new table, lead to the given frames with the present, write and user bits and no other flag |
| VmemAccess.UserSees | source/kernel/memory.c:127-153 | where all entries are open, user mode translates every address below the window, for reading and for writing, as the supervisor does |
| VmemAccess.PallocForUser | source/kernel/memory.c:242-268 | every page palloc gives a process can be read and written in user mode at once, and none of them could before |
| VmemAccess.UserReaches | source/kernel/memory.c:127-153 | user mode reads and writes, in every process, exactly the pages that are mapped there, at their frames |
| VmemAccess.OpKeepsAccess | source/kernel/memory.c:242-307 | every operation keeps all entries open, new tables and directories included |
| VmemAccess.RunAccess | source/kernel/memory.c:242-307 | over every run they are open in every state |
| VmemAccess.StoreKeepsAccess | source/kernel/memory.c:417-564 | a store to a data page keeps them open |
| VmemClash.TwoPagesOneFrame | source/kernel/memory.c:109-124 | with kernel pages no multiple of 8, a process that takes 8 pages, gives back the first and takes one more has two pages on one frame, and the state is no longer sound |
| VmemClash.MapRunTakes | source/kernel/memory.c:254-265 | a run of user pages gets the lowest free user frames, in order |
| HeapSpec.BlockPlace | source/kernel/memory.c:407-415 | `block2arena` inverts `arena2block`, and every block fits between header and page end |
| HeapSpec.AsManyAsFit | source/kernel/memory.c:384 | an arena has (4096 - 12) / size blocks, which is as many as fit |
| HeapSpec.LiveInside | source/kernel/memory.c:407-415 | a live block lies inside its arena behind the header |
| HeapSpec.LiveDisjoint | source/kernel/memory.c:417-564 | live blocks are pairwise disjoint |
| HeapSpec.LiveAvoidsHeader | source/kernel/memory.c:417-564 | live blocks overlap no arena header |
| HeapSpec.LiveAvoidsFree | source/kernel/memory.c:417-564 | live blocks overlap no free block |
| HeapSpec.FullIff | source/kernel/memory.c:551 | the count reaches the number of blocks exactly when every block is free |
| HeapSpec.MallocSmallOk | source/kernel/memory.c:472-514 | keeps the heap and makes exactly one new block of the class live |
| HeapSpec.MallocLargeOk | source/kernel/memory.c:450-468 | keeps the heap and makes exactly one new block live |
| HeapSpec.FreeOk | source/kernel/memory.c:540-561 | keeps the heap and makes exactly the freed block dead |
| HeapSpec.ReleasedIff | source/kernel/memory.c:551-560 | the page is released if and only if its last live block is freed |
| HeapSpec.FreeUndoesMallocSmall | source/kernel/memory.c:472-561 | free after a small malloc restores arenas, counts and free-list sets |
| HeapSpec.FreeUndoesMallocLarge | source/kernel/memory.c:450-546 | free after a large malloc restores the heap exactly |
| HeapSpec.NoLiveIsEmpty | source/kernel/memory.c:417-564 | a heap without live blocks is the initial heap |
| HeapSpec.Drain | source/kernel/memory.c:519-564 | freeing all live blocks in any order ends in the initial heap |
| HeapRuns.MallocIsStep | source/kernel/memory.c:417-517 | what `SysMalloc` promises of a returned pointer is a step of the runs below, its writes made as stores through the page tables |
| HeapRuns.FreeIsStep | source/kernel/memory.c:519-564 | and so is what `SysFree` promises |
| HeapRuns.StepKeeps | source/kernel/memory.c:417-564 | every malloc, every free of returnable frames, every store by an owner or by others and every foreign page operation keeps bitmaps, pools, tables, heap and account in agreement, and every word of the heap equal to the word of the frame behind it |
| HeapRuns.RunOk | source/kernel/memory.c:417-564 | over every run: page tables and pools sound, heap in order on pages it holds, live blocks exactly those handed out and not freed, heap words those of physical memory |
| HeapRuns.RunSafe | source/kernel/memory.c:417-564 | over every run with real palloc and pfree and others' stores and page operations in between, blocks handed out are as large as was asked, lie wholly in mapped pages and overlap neither each other, nor headers, nor free blocks |
| HeapRuns.RunDrains | source/kernel/memory.c:417-564 | such a run that has freed everything is back in the initial heap |
| HeapRuns.LiveHolds | source/kernel/memory.c:417-564 | a word of a block handed out, read through the page tables, is the heap's word |
| HeapRuns.HandedIsZero | source/kernel/memory.c:454-514 | a block just handed out reads zero in physical memory |
| HeapRuns.HoldsUntilWritten | source/kernel/memory.c:417-564 | in every step, a word of a block that stays handed out, read through the page tables, is what it was, unless its owner wrote it |
| HeapRuns.HeldThroughOps | source/kernel/memory.c:242-307 | a heap keeps its pages through every page operation of anyone, process creation and switching included, but its own release of them |
| HeapRuns.FreeUndoesTake | source/kernel/memory.c:508-550 | a block from a free list: free restores lists and counts, no page moves |
| HeapRuns.FreeUndoesNewPages | source/kernel/memory.c:450-561 | a block on new pages: free restores the heap; bitmaps, mappings and pools, page tables aside, are restored if and only if the kernel asked, or the kernel pages are a multiple of 8, or the first user frame was in use before |
| HeapOrder.Rounded | source/kernel/memory.c:450-514 | a request up to 1024 bytes gets the least power of two from 16 on that holds it, a larger one the fewest pages less 12 bytes |
| HeapOrder.ServedInOrder | source/kernel/memory.c:508-514 | n requests of a class with free blocks get the first n on its list, in order |
| HeapOrder.FreedLast | source/kernel/memory.c:549-550 | a freed block is handed out again after exactly the blocks of its class that were free before it |
| HeapOrder.FreshInOrder | source/kernel/memory.c:490-514 | on a fresh page, the requests of the class get block after block from the header upwards |
| HeapOrder.FreshUsedUp | source/kernel/memory.c:490-514 | after (4096 - 12) / size of them the list is empty again |
| HeapStores.StoreAllIs | source/kernel/memory.c:417-564 | any sequence of stores through the page tables to data pages leaves each word with its last value, every other word and every translation as before |
| HeapStores.MirrorStores | source/kernel/memory.c:417-564 | stores on the heap's pages that match a change of the heap's words keep those words equal to physical memory |
| HeapStores.MirrorKept | source/kernel/memory.c:242-307 | page operations that keep the arenas' pages keep them equal |
| HeapStores.Realise | source/kernel/memory.c:417-564 | every change of the heap's words on its arenas is a finite sequence of such stores |
| HeapPages.HeldIsMapped | source/kernel/memory.c:242-268 | a page with its bit set is mapped |
| HeapPages.PallocNewPages | source/kernel/memory.c:450-490 | pages palloc hands the heap are new to it and held from then on |
| HeapPages.PfreeHeld | source/kernel/memory.c:545-559 | pfree of a heap's pages comes through and takes exactly those pages; the memory manager stays sound if and only if every frame is returnable |
| HeapPages.PallocKeepsPages | source/kernel/memory.c:450-490 | the page tables still lead to the heap's pages and their contents after its palloc |
| HeapPages.PfreeKeepsPages | source/kernel/memory.c:545-559 | and to those of its other arenas after its pfree |
| HeapMemory.LiveIsNoNode | source/kernel/memory.c:417-564 | no free-list node occupies a word of a live block |
| HeapMemory.RepButKept | source/kernel/memory.c:417-564 | list work of one size class disturbs no other list, header or descriptor |
| HeapSteps.TakeRep | source/kernel/memory.c:508-512 | pop, clear and count-down leave lists, headers and counts in agreement |
| HeapSteps.GiveRep | source/kernel/memory.c:549-550 | append and count-up do, and the count is the number of free blocks |
| HeapSteps.GrownRep | source/kernel/memory.c:490-506 | a fresh arena with all its blocks listed does |
| HeapSteps.LargeRep | source/kernel/memory.c:454-462 | a large header on new pages does |
| HeapSteps.DropAll | source/kernel/memory.c:553-558 | removing an arena's blocks one by one removes exactly them, order kept |
| HeapSteps.ForgetRep | source/kernel/memory.c:553-559 | an arena whose blocks are off the list can be given up |
| HeapCode.ClassOf | source/kernel/memory.c:472-479 | the smallest class that holds the request |
| HeapCode.PagesFor | source/kernel/memory.c:452 | the fewest pages that hold a large request and its header |
| HeapCode.ArenaInit | source/kernel/memory.c:378-388 | the descriptor array represents the empty heap: sizes 16, doubling, to 1024, and (4096 - 12) / size blocks for each |
| HeapCode.Heap.SysMalloc | source/kernel/memory.c:417-517 | NULL for a bad size; otherwise answered as palloc answers; a pointer is one new live block of at least the requested size, all zero, on the heap's own pages; no other live block's words change, nor the pages they are on; nothing outside descriptors and arenas is written |
| HeapCode.Heap.MallocLargeRequest | source/kernel/memory.c:450-468 | the same for requests over 1024 bytes |
| HeapCode.Heap.MallocSmallRequest | source/kernel/memory.c:472-514 | the same for requests up to 1024 bytes |
| HeapCode.Heap.FreshBlock | source/kernel/memory.c:482-512 | the same when the class has no free block |
| HeapCode.Heap.NewArena | source/kernel/memory.c:490-506 | the page becomes an arena with all blocks on the list; the ASSERT that a block is not listed holds |
| HeapCode.Heap.TakeBlock | source/kernel/memory.c:508-512 | the list is not empty; its head is taken and cleared |
| HeapCode.Heap.FindClass | source/kernel/memory.c:473-479 | the loop over the descriptors finds the class |
| HeapCode.Heap.SysFree | source/kernel/memory.c:519-564 | NULL is ignored; every live block is freed without any ASSERT failing, the pages returned are exactly those of a released arena, no other live block's words change, nor the pages they are on, and nothing outside descriptors and arenas is written; the memory manager stays sound if and only if no page goes back or every frame is returnable |
| HeapCode.Heap.FreeLarge | source/kernel/memory.c:543-546 | gives back all pages of a large block; sound afterwards if and only if every frame is returnable |
| HeapCode.Heap.FreeSmall | source/kernel/memory.c:549-560 | lists the block, and releases the page when the count is full; sound afterwards if and only if the page stays or its frame is returnable |
| HeapCode.Heap.RemoveBlocks | source/kernel/memory.c:553-558 | every block of the arena is found on the list and removed |
| SchedulerProofs.OneListEach | source/thread/thread.c:47-75 | one running thread, each tag on at most one list, the running thread's on none |
| SchedulerProofs.ScheduleKeeps | source/thread/thread.c:47-75 | keeps the scheduler's invariant, or stops at line 65 exactly with a blocked thread and nobody ready |
| SchedulerProofs.StepKeepsSched | source/thread/thread.c:47-176 | every step keeps it: ready list = READY threads, waiting lists = blocked threads |
| SemaphoreProofs.NoLostWakeup | source/thread/sync.c:23-52 | while someone waits and the value is positive, a woken thread is ready or running to re-test |
| SemaphoreProofs.StepKeepsWake | source/thread/sync.c:23-52 | every step keeps at least `value` woken threads pending while someone waits |
| LockProofs.StepKeepsLock | source/thread/sync.c:54-81 | every step of balanced callers keeps the lock invariant; the ASSERTs at 60, 71 and 77 hold |
| LockProofs.MutualExclusion | source/thread/sync.c:54-81 | one thread at most inside, gaps included; the unsynchronised holder test is sound; the count is the nesting depth |
| ThreadRuns.SomeoneReady | source/thread/thread.c:64-65 | with one thread that never blocks, whatever locks and semaphores it uses, the ready list is never empty at line 65 |
| ThreadRuns.StepSafe | source/thread/thread.c:47-176 | with such a thread no ASSERT of scheduler, semaphores or locks fails |
| ThreadRuns.RunSafe | source/thread/sync.c:23-81 | the same over every run and interleaving |
| ThreadRuns.StartInv | source/thread/sync.c:10-21 | the initial state satisfies all invariants |
| WaitingTime.StepBudget | source/device/timer.c:36-54 | every tick lowers a ready thread's remaining wait; an unblock raises it by one turn at most |
| WaitingTime.BoundedWaiting | source/device/timer.c:36-54 | a thread not yet dispatched has seen fewer ticks than the turns of the running thread and those ahead of it, plus one turn per unblock |
| Turns.StepClock | source/device/timer.c:36-54 | in every step, only the running thread's clock moves, at a tick, by one; at zero it gets its priority again |
| Turns.StepRunner | source/thread/thread.c:47-75 | after every step the same thread runs, unless it has blocked or its turn was over at a tick; then the first of the queue, which it joins at the end in the second case |
| Turns.KeepsTheCpu | source/device/timer.c:45-53 | over every run, a thread that does not block keeps the CPU for as many ticks as it has left |
| Turns.LosesTheCpu | source/device/timer.c:45-53 | and the next tick delivered puts it at the end of the ready list, with its priority in ticks again, and runs the first of that list |
| Turns.ClockStands | source/thread/thread.c:47-75 | over every run, a thread that does not run keeps the rest of its turn |
| Turns.WholeTurns | source/thread/thread.c:53-58 | from preemption to preemption a thread that does not block runs for exactly its priority in ticks |
| Turns.NewcomerTurn | source/thread/thread.c:94-133 | a new thread has a whole turn and queues up at the end |
| Turns.WokenRunsNext | source/thread/sync.c:41-52 | the thread an up wakes is the next to run, unless another is woken first |
| WaitingOrder.FirstComeFirstServed | source/thread/sync.c:23-52 | over every run, those asleep on a semaphore at first and those who joined are, in order, those who left and those asleep at last |
| WaitingOrder.WokenInTurn | source/thread/sync.c:41-52 | over every run, a thread with n others before it sleeps through n ups and is woken by the next |
| WaitingOrder.ValueCounts | source/thread/sync.c:23-52 | over every run, the value is what it was, plus ups, minus takes, in 8 bits |
| ThreadLists.OthersKept | source/thread/thread.h:58-76 | work on one list with a tag that is on no other list touches no other list's words |
| ThreadLists.Queues.Append | source/lib/kernel/list.c:47-50 | a tag on no list joins the end of one list; all other lists in memory are as before |
| ThreadLists.Queues.Push | source/lib/kernel/list.c:41-44 | the same at the front |
| ThreadLists.Queues.Pop | source/lib/kernel/list.c:64-69 | the first tag leaves a non-empty list and is on none; `elem2entry` gives its thread |
| ThreadCode.Cpu.ScheduleThread | source/thread/thread.c:47-75 | the stores to PCBs and linked tags carry out the scheduling step and keep the scheduler's invariant, or stop at line 65 with everything unchanged; line 54 holds |
| ThreadCode.Cpu.UnblockThread | source/thread/thread.c:157-176 | the blocked thread's tag, on no list, is linked in at the front of the ready list; line 165 holds |
| ThreadCode.Cpu.IntTimerHandler | source/device/timer.c:36-54 | a tick on memory never stops and keeps the scheduler's invariant; it takes one tick from a clock that is not zero, and otherwise puts the thread at the end of the queue with its priority in ticks |
| ThreadCode.Cpu.SemaphoreDown | source/thread/sync.c:23-39 | one test of the loop on memory: the caller joins the end of the waiting list and another thread runs, or the semaphore is taken; line 29 holds |
| ThreadCode.Cpu.SemaphoreUp | source/thread/sync.c:41-52 | on memory, the first waiting tag moves to the front of the ready list and the value rises; no ASSERT on the way fails |
| ThreadCode.Cpu.LockStatement | source/thread/sync.c:54-81 | for balanced callers each statement of lock and unlock keeps the lock invariant, and the ASSERTs at 60, 71 and 77 hold |
| ThreadCode.Cpu.ThreadStart | source/thread/thread.c:117-133 | with interrupts off: a new PCB's tag, on no list, is linked in at the end of the ready list; line 126 and its scan come through |
| ThreadCode.Cpu.ResumeStart | source/thread/thread.c:126 | with interrupts on: the scan preempted on a thread's tag and resumed without further interruption finds the newcomer absent if and only if that thread is READY, and stops at the ASSERT of list.c:77 if and only if it is blocked |
| ThreadLists.Queues.ResumeScan | source/lib/kernel/list.c:72-85 | a scan for one list resumed on a tag comes to its end if the tag is on that list, and runs into NULL if it is on another |
| ScanRun.BlockedUnderScan | source/thread/thread.c:126 | a run from an initial state in which a thread is READY when the main thread is preempted in that scan, and blocked on a lock when it runs again |
| ThreadCode.Cpu.TakeStep | source/thread/sync.c:23-81 | any action of any thread or of the timer, carried out on memory, is the step of the model, fails no ASSERT and keeps all invariants while one thread never blocks; thread start counts as one action, its scan with interrupts on is `ResumeStart` |
| ThreadCode.Cpu.constructor | source/thread/thread.c:179-188 | main thread running and all lists empty satisfies all invariants |
| Switch.Processor.SwitchTo | source/thread/switch.S:4-20 | the pushes, the two loads and stores of esp and the pops are `Switched` |
| Switch.Processor.ThreadCreate | source/thread/thread.c:78-91 | the first frame, where the pointer arithmetic puts it |
| Switch.Processor.NewThread | source/thread/thread.c:117-124 | a cleared page becomes a PCB that a switch resumes in `KernelThread` with its function and argument; no word outside the page changes |
| Switch.StartedAt | source/thread/thread.c:78-124 | a new thread's page holds, 108 words below its top, a frame with zero registers, `KernelThread`, the function and the argument, where the saved pointer says, and no word outside the page changed |
| Switch.SwitchResumes | source/thread/switch.S:4-20 | whoever is switched to gets the registers, return point, stack pointer and stack it is owed |
| Switch.AlwaysOk | source/thread/thread.c:25-30 | over every schedule, masking esp gives the running thread's PCB |
| Switch.ResumedThread | source/thread/switch.S:4-20 | over every schedule, a resumed thread finds ebp, ebx, edi, esi, return point, esp and every stack word as it left them |
| Switch.FreshThread | source/thread/thread.c:78-115 | over every schedule, a new thread first runs `KernelThread` with its own function and argument |
| IoQueue.FullAndEmpty | source/device/ioqueue.c:14-29 | the index tests mean 63 bytes and no bytes |
| IoQueue.PutAppends | source/device/ioqueue.c:69-90 | with room, appends and wakes nobody |
| IoQueue.GetTakesFirst | source/device/ioqueue.c:47-67 | with a byte, takes the oldest and wakes nobody |
| IoQueue.PutNeverWakesConsumer | source/device/ioqueue.c:69-90 | with a consumer asleep, stops exactly when the queue is full and a producer sleeps or it has room and none does, and never wakes the consumer |
| IoQueue.GetWakesProducer | source/device/ioqueue.c:47-67 | every get: with a byte, takes the oldest and wakes the sleeping producer, if any; without, sleeps in the consumer slot or stops when it is taken |
| IoQueue.PutWaits | source/device/ioqueue.c:69-90 | every put with no consumer asleep: appends while fewer than 63 are queued; otherwise sleeps in the producer slot or stops when it is taken |
| IoQueue.RunIsFifo | source/device/keyboard.c:198-201 | over every run of guarded puts and gets: at most 63 bytes, sleeper slots NULL, bytes read are a prefix of bytes accepted |
| IoQueue.RunIsSimple | source/device/keyboard.c:198-201 | over every run of guarded puts and gets, the ring buffer does what a simple queue does that accepts a key whenever fewer than 63 are queued |
| IoQueue.Queue.constructor | source/device/ioqueue.c:6-12 | an empty queue whatever the buffer holds |
| IoQueue.Queue.PutChar | source/device/ioqueue.c:69-90 | the in-place code is `Put`: one test of the wait loop, ending asleep in the producer slot, at an ASSERT, or returned |
| IoQueue.Queue.GetChar | source/device/ioqueue.c:47-67 | the in-place code is `Get`: one test of the wait loop, ending asleep in the consumer slot, at an ASSERT, or with the byte |
| IoQueue.Queue.HandleKey | source/device/keyboard.c:198-201 | the byte is appended whenever fewer than 63 are queued, and dropped otherwise |
| IoQueue.Queue.PollKey | source/kernel/main.c:214-219 | the oldest byte, or none exactly when the queue is empty |

## Left out

- HeapCode.Heap.SysMalloc: `sys_malloc` and `sys_free` run as one step under the pool lock; the lock itself is the one of `Threads.dfy`.
- HeapCode.Heap.SysMalloc: the code works on the heap's words by virtual address; `HeapRuns.StepKeeps` keeps them equal to physical memory, for the words of the arenas. The descriptors, in kernel data or in the PCB, are words of their own.
- HeapCode.Heap.MallocLargeRequest: the same.
- HeapCode.Heap.MallocSmallRequest: the same.
- HeapCode.Heap.FreshBlock: the same.
- HeapRuns.MallocIsStep: the stores of a call stand in the run as a sequence with the call's effect, in no particular order.
- VmemCode.Machine.CreateSpace: the bytes of a process's bitmap are an array beside the physical memory, although its pages are taken; the PCB page that `ExecProcess` takes first is not.
- Vmem.RunSound: `palloc` and `pfree` are atomic steps, although `PageMapping` takes page-table frames from the kernel pool under the caller's pool lock only.
- ThreadCode.Cpu.ThreadStart: one step, although its scans run with interrupts on, where the ASSERT of `source/lib/kernel/list.c:77` can fail (`ThreadCode.Cpu.ResumeStart`); the list of all threads, which nothing reads, is not kept.
- ThreadCode.Cpu.TakeStep: the same for its thread start.
- ThreadCode.Cpu.ResumeStart: one preemption of the scan, not several; and `list_append` after it, which also runs with interrupts on, is not interrupted.
- ThreadRuns.RunSafe: thread start is one step here too.
- ThreadCode.Cpu.LockStatement: PCB fields, semaphore values and lock variables are variables of the model; the lists are words of memory.
- LockProofs.StepKeepsLock: balanced callers nest a lock less than 2^32 deep, so the count does not wrap.
- Switch.FreshThread: PCB fields other than the stack pointer are arbitrary; the stack pages are kernel pages, the same in all address spaces by `Vmem.SoundKernelShared`.
- IoQueue.Queue.GetChar: the lock that a waiting caller holds while it sleeps (`source/device/ioqueue.c:53-56`).
- IoQueue.Queue.PutChar: the same (`source/device/ioqueue.c:76-79`).
- The TLB and `invlpg`: every translation is a fresh walk.
- `VirtualAddrMapping` and `StartProcess`: one page mapped at a given address, and inline assembly into user mode.
- Interrupt gates, descriptor tables, the TSS, disk and console drivers, the keyboard decode table, string routines and system-call wrappers: easy members, or hardware.
- Uniqueness of pids: `AllocatePid` reads the counter after releasing its lock, and it has 16 bits.
- `cpu_ticks_elapsed`, `ticks` and the stack canary of the timer handler.
