# Kernel memory stack and FAT16 lookup: a Dafny model

The project models three layers of a small x86-64 kernel, each built on the one before, and the
processes that use them:

- **Physical blocks** (`mm/pm.c`, `arch/x86/pm.c`): three free lists threaded through the free blocks
  themselves, recursive 1-to-128 splits, and the carving loops that seed them.
- **Slabs** (`mm/slab.c`): 14 classes of slots with 64-bit bitmaps, whose headers live in blocks the
  allocator itself hands out.
- **Page tables** (`arch/x86/vm.c`): the 4-level tree, its identity mapping, demand mapping, switching and
  teardown.
- **Processes** (`arch/x86/proc.c`): creation, switching and the first process, on all three layers at once.

A second, independent part models the two loops of the FAT16 reader (`fs/fat16`).

## How it is built

One object, `Memory.Ram`, is all of physical memory; a cell is the 64-bit word that starts at a byte
address. The classes `PhysMem`, `SlabAllocator`, `PageDir` and `Kernel` follow the C code, read and write
that memory, and carry a ghost abstract state. Each method is proved against a deterministic transition on
abstract states; the pure modules (`Blocks`, `Slabs`, `Heap`, `PageWalk`, `PageFree`, `Procs`, `Runs`,
`Isolation`) prove what those transitions keep, over single calls and over every run. `panic` never
returns, so a routine yields `Outcome.Panic` or `Outcome.Done`, and contracts say exactly when it panics.

| files | content |
|---|---|
| `Bits`, `Memory` | C bit operations on naturals; memory |
| `Blocks`, `BlockRuns`, `Supply`, `PhysAlloc` | physical allocator: states, runs, counts of free memory, code |
| `Slabs`, `Heap`, `SlabSupply` | slab allocator: states, transitions, runs, quiescence, when it succeeds |
| `SlabMem`, `SlabSteps`, `SlabStart`, `SlabAlloc` | slab allocator: layout in memory, steps, `slab_init`, code |
| `PageTables`, `PageWalk`, `PageInit`, `PageFree`, `PageSupply` | page tables: tree, walk, `vm_init`, teardown, frames needed |
| `PageMem`, `Access`, `Vm` | page tables: layout in memory, rights and entries, code |
| `Procs`, `Runs`, `Isolation`, `Boot`, `ProcSupply` | processes: states, runs, isolation, memory needed to start and to go on |
| `ProcMem`, `Contents`, `ProcSteps`, `CallSteps`, `Proc` | processes: layers side by side in memory, contents of frames, steps, code |
| `FatRead`, `FatName` | FAT16: reading, path lookup |

Main results:

- `Proc.Kernel.Execute`: every run of the operations on memory refines the abstract run, panics exactly when
  it does, keeps address spaces apart and leaves every user page as it was until its tree is torn down.
- `ProcSupply.PanicsExactly`: when each operation panics, counted in clear bits, free frames and missing
  tables.
- `Heap.QuiescentWhenAllFreed`: once no client block is left, in whatever order they were freed, every slab
  list is back to its empty static head.
- `PageFree.FreesExactlyTheTree` with `Vm.PageDir.FreeUvm`: the teardown reads each table before its frame
  becomes a free-list link, and gives back exactly the frames of the process.
- `Vm.PageDir.WalkPgdir` with `PageTables.TranslateIsLookup`: after a walk the processor translates the
  address, and every other page as before; the cell it answers is the entry of that page alone.
- `BlockRuns.Conservation` and `PhysAlloc.PhysMem.PmInit`: the carved interval is tiled exactly, from the
  carving on and through every run.
- `SlabAlloc.LiveFreeable` and `FatRead.ReadiExact`: exactly when the code does not do what it promises.

Names in the table: a *client block* is a block handed out by `kmalloc` and not yet freed; a block is
*in use* if it is on no free list; *slot 2* is the PML4 entry of the user range.

Where the code departs from what it seems to intend, the code is modelled:

- `kmfree` never gives back the page of an emptied slab above 64 bytes (`Heap.PageAccounting`).
- `kmfree` tests the absolute address against the slot size. Slots above 4K are laid out downwards from the
  top of memory, so unless that is a multiple of the slot size every live block of the class is rejected
  (`SlabAlloc.LiveFreeable`, with a machine where it happens in `Boot.RejectedBlock`).
- `free_uvm` of the process linked in slot 2 leaves that slot naming a frame on the free list
  (`Vm.PageDir.FreeUvm`); for every other process the tables stay consistent (`PageFree.FreeUvmOk`).
- No code but `switch_proc` sets a status to READY, so `switch_proc` cannot succeed as the repository
  stands (`Isolation.NoSwitchWithoutReady`); runs therefore include a step by which a scheduler marks a
  process READY.
- `fat16_readi` ignores the partial first cluster when it places later clusters (`FatRead.ReadiExact`
  gives the exact condition).

## Model

| member | source | states |
|---|---|---|
| `PhysAlloc.SizeToIdx` | mm/pm.c:69-79 | the three block sizes are the only ones accepted: a panic means the size is no block size |
| `PhysAlloc.PhysMem.Pmfree` | mm/pm.c:39-47 | panics if and only if the size or the address is invalid; otherwise the block becomes the head of its list, in memory and abstractly, and nothing else changes |
| `PhysAlloc.PhysMem.Pmalloc` | mm/pm.c:10-37 | panics if and only if the size is invalid or no block that large can be had; otherwise hands out a zeroed block, splitting larger ones as needed, and changes no block in use |
| `PhysAlloc.PhysMem.TakeHead` | mm/pm.c:33-36 | unlinks the head of a list through the link word inside it and zeroes the block |
| `PhysAlloc.PhysMem.FreePieces` | mm/pm.c:18-30 | the 128 `pmfree` calls of a split leave the pieces on the list lowest address first |
| `PhysAlloc.PhysMem.PmDump` | mm/pm.c:49-67 | walking the links from each head terminates with the true length of each list |
| `PhysAlloc.PhysMem.Carve` | arch/x86/pm.c:56-67 | one carving loop: panic condition, what it carves, and that a whole block no longer fits |
| `PhysAlloc.PhysMem.PmInit` | arch/x86/pm.c:56-67 | tiles [kernel_end, allocatable_max) exactly with all blocks free, greedily, at most 127 of 512K and 127 of 4K; panics if and only if the first block carved starts at or beyond memtotal |
| `PhysAlloc.PhysMem.CarveOne` | arch/x86/pm.c:56-67 | one iteration: panics if and only if the block would start at or beyond memtotal; otherwise the managed interval grows down by exactly one free block |
| `PhysAlloc.GreedyCounts` | arch/x86/pm.c:56-67 | the three loops together give the greedy counts of the interval |
| `Blocks.CanAllocIff` | mm/pm.c:14-31 | a block can be had if and only if a list of that size or larger is not empty |
| `Supply.AllocFrame` | mm/pm.c:14-31 | with the free memory counted in 4K frames, whole or inside larger blocks: a 4K block can be had if and only if one is free, costs exactly one, and breaks up a 512K unit exactly when the 4K list is empty |
| `Supply.AllocUnit` | mm/pm.c:14-31 | a 512K block can be had if and only if a 512K unit is free, whole or inside a 64M block, and costs exactly one |
| `Blocks.SplitOrder` | mm/pm.c:18-30 | a split serves its 128 pieces lowest address first |
| `Blocks.AllocInv` | mm/pm.c:10-37 | `pmalloc` hands out exactly one more block, not in use before, and keeps tiling, alignment and list invariants |
| `Blocks.PushInv` | mm/pm.c:45-46 | `pmfree` keeps tiling, alignment and list invariants and takes exactly that block out of use |
| `Blocks.RefillInv` | mm/pm.c:14-31 | through both levels of splitting the interval stays tiled and no block in use changes |
| `Blocks.SplitInv` | mm/pm.c:18-30 | one block in use becomes 128 blocks in use that tile it |
| `Blocks.ChainUnique` | mm/pm.c:56-58 | a list in memory that ends in NULL has exactly one reading, so it has no cycle |
| `Blocks.UsedWritePm` | mm/pm.c:33-36 | whatever is written inside a block in use, the free lists in memory stay as they are |
| `BlockRuns.Conservation` | mm/pm.c:10-47 | after any run of `pmalloc` and `pmfree` every address of the carved interval lies in exactly one block, and each block is either on the free list of its size or held |
| `Heap.SizeToClass` | mm/slab.c:310-342 | the least class that fits, or a panic if and only if the size exceeds 512K |
| `Heap.TakeIsFirst` | mm/slab.c:66-85 | the slot taken is the lowest free one of the first slab in list order that has any |
| `Heap.KAllocOk` | mm/slab.c:27-64 | `kmalloc` adds exactly one client block, of the class asked for, keeps the allocator invariant, and leaves every other client and every block outside the allocator, also when a header is allocated first |
| `SlabSupply.KAllocServes` | mm/slab.c:27-64 | on bitmaps and free lists alone: a class is served if and only if one of its bits is clear, or memory holds the new slab and, where the 64-byte class is full, first a slab for its header |
| `SlabSupply.KAllocSupply` | mm/slab.c:27-64 | exactly how many frames an allocation of at most 4K takes and how many slots of each class it leaves free |
| `Heap.KFreeOk` | mm/slab.c:87-138 | `kmfree` removes exactly the block it is given and keeps the invariant, also when a slab is unlinked, its header freed in turn and a page given back |
| `Heap.PageAccounting` | mm/slab.c:123-137 | a page is dropped exactly when a slab above 64 bytes empties; the only pages given back are those of dynamic 64-byte slabs |
| `Heap.TakenAccounting` | mm/slab.c:27-64 | `kmalloc` gives nothing back and drops nothing; it takes no page where a slot is open, one where only the slab is new, and two where the header needs a new 64-byte slab first, of exactly these sizes |
| `Heap.DroppedByLarge` | mm/slab.c:87-138 | over a whole run dropped pages only accumulate, and every one added was the page of a slab above 64 bytes that one of its `kmfree` calls emptied |
| `Heap.RunSafe` | mm/slab.c:27-138 | after any run of `kmalloc` and `kmfree` the invariant holds, all client blocks and headers of all classes are pairwise disjoint, and the physical blocks still tile the same interval |
| `Heap.DynamicHasClient` | mm/slab.c:115-138 | every dynamic slab has a client in it, or in a slab whose header it holds, and the client is named |
| `Heap.QuiescentWhenAllFreed` | mm/slab.c:115-138 | after any run that leaves no client block, in whatever order they were freed, all 14 lists are their static head with bitmap 0, and every page beyond those 14 was returned or dropped |
| `Slabs.OccupantsApart` | mm/slab.c:66-85 | client blocks and headers kept in 64-byte slots never overlap |
| `Slabs.TakeSlotInv` | mm/slab.c:74-79 | setting the bit of a free slot keeps bitmaps, occupants, lists and pages in agreement |
| `Slabs.NewSlab64Inv` | mm/slab.c:34-42 | a new 64-byte slab that keeps its own header in slot 0 (bitmap 0b11) keeps the invariant |
| `Slabs.NewSlabInv` | mm/slab.c:52-63 | a block of the 64-byte class becoming the header of a new slab keeps the invariant |
| `Slabs.RetireInv` | mm/slab.c:124-127 | unlinking an emptied slab above 64 bytes keeps the invariant; its header is an ordinary block again |
| `Slabs.GiveBackInv` | mm/slab.c:130-137 | unlinking a 64-byte slab that holds only its header keeps the invariant |
| `Slabs.ClassTable` | mm/slab.c:71-72 | each class has between 1 and 64 slots that fill its page exactly |
| `SlabSteps.ClientResidue` | mm/slab.c:118 | a live block of at most 4K is a multiple of its slot size; a larger one leaves the remainder of the top of memory |
| `SlabAlloc.LiveFreeable` | mm/slab.c:111-120 | `kmfree` accepts a live block if and only if its slots are at most 4K or the top of memory is a multiple of the slot size; otherwise it rejects every live block of the class |
| `Boot.RejectedAfterStart` | mm/slab.c:111-120 | for every top of memory and class that fail that condition, the first block of the class handed out after `slab_init` is live and is rejected |
| `Boot.RejectedBlock` | mm/slab.c:111-120 | such a machine exists: a concrete layout with a live block that `kmfree` rejects |
| `SlabMem.ClientWrite` | mm/slab.c:27-64 | whatever a client writes inside its block, free lists, headers and all other clients stay as they are |
| `SlabMem.HdrClientApart` | mm/slab.c:55-62 | no header overlaps a client block |
| `SlabAlloc.SlabAllocator.SlabInit` | mm/slab.c:12-25 | every class starts with its static header on its own page, no client exists; succeeds if and only if seven 512K units are free beside seven 4K blocks, or eight units |
| `SlabAlloc.SlabAllocator.FindFreeSlab` | mm/slab.c:66-85 | sets the bit of the slot of `TakeIsFirst` and returns its address, or NULL and changes nothing if every slab is full; panics only beyond the last class |
| `SlabAlloc.LowestFreeBit` | mm/slab.c:75-80 | the bit loop finds the lowest clear bit below the slot count |
| `SlabAlloc.SlabAllocator.LastEntry` | mm/slab.c:36-37 | following `next` ends at the last header of the class |
| `SlabAlloc.SlabAllocator.Kmalloc` | mm/slab.c:27-64 | succeeds if and only if the size is at most 512K and its class can be served (the condition of `KAllocServes`); then a zeroed block of at least the size asked for, refining the transition of `KAllocOk`; changes no byte of another client, of a block outside the allocator or of other kernel data; nests at most once |
| `SlabAlloc.SlabAllocator.Kmalloc64` | mm/slab.c:28-43 | the same for the 64-byte class: it succeeds if and only if a bit is clear or a frame is free |
| `SlabAlloc.SlabAllocator.FindOwner` | mm/slab.c:96-114 | the search finds the header whose page contains the address, or none has it |
| `SlabAlloc.SlabAllocator.DropSlab` | mm/slab.c:123-127 | an emptied slab is unlinked and its header freed by the nested call |
| `SlabAlloc.SlabAllocator.ReturnPage` | mm/slab.c:129-137 | a 64-byte slab holding only its header is unlinked and its page given back |
| `SlabAlloc.SlabAllocator.Kmfree` | mm/slab.c:87-138 | panics if and only if the address is no live block aligned to its slot size; otherwise refines the transition of `KFreeOk` and changes no byte of any remaining client; nests at most once |
| `SlabStart.StartOk` | mm/slab.c:12-25 | after the fourteen iterations the invariant holds with empty bitmaps and the blocks in use before belong to others |
| `SlabSupply.InitSupply` | mm/slab.c:12-25 | after any number of iterations: when the next ones succeed and what is left of both sizes |
| `PageTables.TranslateIsLookup` | arch/x86/vm.c:24-90 | what the processor computes from the words in memory (4-level paging, section 4.5 of the Intel SDM, volume 3A) is the finite map of the abstract tree |
| `PageWalk.WalkOk` | arch/x86/vm.c:24-90 | a walk with `create` maps the address, adds only positions on its path, takes blocks from nobody, and makes a 2 MiB leaf only where one was asked for |
| `PageWalk.WalkRefinesMap` | arch/x86/vm.c:24-90 | the address becomes mapped and the translation, or absence, of every address in any other page stays |
| `Access.NewMapping` | arch/x86/vm.c:56-88 | a new mapping is the address itself below the user range, in large and small pages alike, and in the user range a frame that was not in use |
| `PageSupply.WalkSupply` | arch/x86/vm.c:24-90 | a walk fails if and only if fewer frames are free than tables, and in the user range the page, are missing on the path, and takes exactly as many |
| `Access.RightsOfTables` | arch/x86/vm.c:31-34 | over memory: user mode (section 4.6 of the Intel SDM, volume 3A) reaches no address below the user range and every mapped one from there on; every mapped address may be written |
| `Access.LeafMapsAlone` | arch/x86/vm.c:72-90 | the leaf entry of an address in memory is the entry of its page alone: any absent word in its place unmaps that page and changes no other translation |
| `PageWalk.WalkIdempotent` | arch/x86/vm.c:24-90 | walking a mapped address, or repeating a walk, allocates nothing and changes nothing |
| `Vm.PteIndexIs` | include/x86/mm.h:3-6 | the index macros are the base-512 digits of the page number |
| `Vm.PageDir.Descend` | arch/x86/vm.c:39-46 | one level: a missing entry is backed by a zeroed frame, and the entry word is returned |
| `Vm.PageDir.WalkToDirectory` | arch/x86/vm.c:37-55 | the PML4 and PDPT levels refine the abstract walk; NULL only without `create` |
| `Vm.PageDir.FillDirectory` | arch/x86/vm.c:56-74 | the PD level: a 2 MiB direct mapping or a fresh page table |
| `Vm.PageDir.FillTable` | arch/x86/vm.c:76-90 | the PT level: a direct 4 KiB mapping below the user range, a fresh zeroed page in it |
| `Vm.PageDir.WalkTable` | arch/x86/vm.c:72-90 | from the page-directory entry on: its own cell if it is a 2 MiB page, else the cell of the PT level |
| `Vm.PageDir.WalkPgdir` | arch/x86/vm.c:24-90 | with `create` fails if and only if fewer frames are free than the path of the address misses, and takes exactly those; the cell returned holds the entry the processor translates the address by, and clearing it unmaps that page and no other; NULL means unmapped; what it maps anew is the address itself below the user range and in it a zeroed frame not in use before; in older blocks it writes only the cells that link this; without `create` nothing changes |
| `PageInit.VmInitMeaning` | arch/x86/vm.c:10-20 | every address below 4 GiB maps to itself and the only new blocks in use are the frames of the tree |
| `PageInit.SixTables` | arch/x86/vm.c:10-20 | the frames taken are exactly six: the PML4, one PDPT and four page directories |
| `PageSupply.VmInitSupply` | arch/x86/vm.c:10-20 | `vm_init` takes exactly six frames, and fails if and only if fewer are free |
| `PageInit.PrefixHolds` | arch/x86/vm.c:12-17 | after n iterations exactly the first n large pages and the tables above them are mapped |
| `Vm.PageDir.VmInit` | arch/x86/vm.c:10-20 | afterwards the processor translates every address below 4 GiB to itself, writable, and none of them in user mode; the NULL check never fires; panics if and only if fewer than six frames are free |
| `Vm.PageDir.SwitchUvm` | arch/x86/vm.c:94-97 | slot 2 of the PML4 becomes the tree of the process and no other word changes |
| `PageFree.PostOrderNoDup` | arch/x86/vm.c:105-122 | the teardown order lists no position twice |
| `PageFree.FreesExactlyTheTree` | arch/x86/vm.c:99-124 | the frames given back are exactly those of the process, data pages and tables, each once |
| `PageFree.FreeUvmOk` | arch/x86/vm.c:99-124 | every other tree and everybody else's blocks stay; the tables stay consistent if and only if the process was not the one linked in slot 2 (what memory then holds is in the row of `Vm.PageDir.FreeUvm`) |
| `Vm.TableEntry` | arch/x86/vm.c:107-121 | the entry read at each step is the original table word: its table is still in use, so no `pmfree` link has overwritten it |
| `Vm.PageDir.FreePages` | arch/x86/vm.c:111-115 | the innermost loop gives back the pages of one table in order |
| `Vm.PageDir.FreeTables` | arch/x86/vm.c:108-118 | the middle loop gives back each page table after its pages |
| `Vm.PageDir.FreeDirectories` | arch/x86/vm.c:105-121 | the outer loop gives back each page directory after its tables |
| `Vm.PageDir.FreeUvm` | arch/x86/vm.c:99-124 | panics if and only if `upml4` is not present; otherwise leaves the state of `FreesExactlyTheTree`, zeroes `upml4`, and changes no other byte of any block still in use and no kernel data but the list heads; if the process was linked in slot 2, that word is unchanged, present, and names the frame now at the head of the 4K free list |
| `Procs.PallocOk` | arch/x86/proc.c:68-84 | `palloc` adds one process with blocks of its own and an empty address space, and keeps the invariant of the whole memory state |
| `ProcSupply.PallocSupply` | arch/x86/proc.c:68-84 | `palloc` fails if and only if fewer frames are free than it needs: the root table, a slab for the structure and for the stack where their classes are full, and a 64-byte slab where that class lacks the slots for the headers and the list node; it takes exactly those |
| `Runs.DispatchOk` | arch/x86/proc.c:53-66 | after a successful `switch_proc` the only process that runs is the new `curproc`, and slot 2 names it |
| `Runs.TouchOk` | arch/x86/trap.c:14-19 | a page fault maps the faulting address and keeps the invariant |
| `Runs.BootOk` | arch/x86/proc.c:37-51 | `uinit` leaves one running process, linked in slot 2, with its first page mapped |
| `ProcSupply.BootSupply` | arch/x86/proc.c:37-51 | `uinit` fails if and only if fewer frames are free than `palloc` needs and three more for the first page |
| `Runs.MmStartOk` | mm/init.c:7-11 | the initialisation order of `mm_init` establishes the invariant with no process and no client |
| `Runs.RunKeeps` | arch/x86/proc.c:53-84 | every run of heap calls, process creation, switches, page faults and teardowns keeps the invariant |
| `Isolation.ReachesTree` | arch/x86/vm.c:105-122 | the frames reached by following present entries in memory from a root are exactly those of its tree |
| `Isolation.ProcessIsolated` | arch/x86/vm.c:24-97 | a frame one process reaches is reached by no other, is in use, is on no free list, is no kernel table and backs no slab |
| `Isolation.UserTranslation` | arch/x86/vm.c:94-97 | a user address translates only into frames reached from the process linked in slot 2 |
| `Isolation.RunIsolated` | arch/x86/proc.c:53-84 | in every state of every run, for any memory that holds its tables: no frame is reached by two processes, none is free, a kernel table or a slab page, slot 2 translates to no frame another process reaches, and user mode reaches nothing below the user range |
| `Isolation.NoSwitchWithoutReady` | arch/x86/proc.c:57-61 | nothing but `switch_proc` makes a process READY, so from a state with none, no run contains a successful switch |
| `Boot.StartSupply` | mm/init.c:7-11 | after the carving, `mm_init` succeeds if and only if 909 frames are free |
| `Proc.Kernel.CarveMemory` | arch/x86/pm.c:56-67 | the rest of `mm_init` will succeed if and only if at least 909 frames lie between kernel_end and allocatable_max |
| `Proc.Kernel.MmInit` | mm/init.c:7-11 | succeeds if and only if at least 909 frames are carved; on memory: identity mapping below 4 GiB, closed to user mode, quiescent slabs, no client |
| `Proc.Kernel.Palloc` | arch/x86/proc.c:68-84 | refines `PallocOk` on memory: all words of the structure, the first context on the kernel stack, and no byte of an older block changed, frames of all processes included; panics if and only if fewer frames are free than `PallocSupply` counts |
| `Proc.Kernel.PageFault` | arch/x86/trap.c:14-19 | panics if and only if fewer frames are free than the path of the address misses; otherwise refines `TouchOk` on memory, keeps the whole kernel state, backs a first touch in the user range with a zeroed frame not in use before, and writes of older blocks only the cells that link what is newly mapped |
| `Proc.Kernel.SwitchProc` | arch/x86/proc.c:53-65 | panics if and only if an argument is NULL or a status is wrong; otherwise in memory only the new process has status RUN, the word in slot 2 is its `upml4`, and exactly three words were written |
| `Proc.Kernel.Uinit` | arch/x86/proc.c:37-50 | refines `BootOk` on memory; all 128 words of the first kernel stack, so that user code is entered at its start with a stack one page above; panics if and only if fewer frames are free than `BootSupply` counts; of older blocks only slot 2 and the cells that link what is newly mapped are written, no frame of an older process among them |
| `Proc.Kernel.Kmalloc` | mm/slab.c:27-64 | `kmalloc` among processes: succeeds exactly when the class can be served, refines the abstract step, keeps page tables and process structures in memory, and changes no byte of an older block |
| `Proc.Kernel.Kmfree` | mm/slab.c:87-138 | `kmfree` of a block that belongs to no process: the same, for every block still there |
| `Proc.Kernel.SwitchUvm` | arch/x86/vm.c:94-97 | linking any live tree keeps the whole kernel state in memory |
| `Proc.Kernel.FreeUvm` | arch/x86/vm.c:99-124 | tearing down a tree that is not linked never panics and keeps the whole kernel state: headers, other trees, process structures |
| `Proc.Kernel.Serve` | arch/x86/proc.c:53-84 | each operation panics if and only if the condition of `PanicsExactly` holds; otherwise memory holds the state the abstract step leaves, and every process the step is not about reaches the frames it reached before with every byte unchanged |
| `ProcSupply.PanicsExactly` | arch/x86/proc.c:53-84 | when each operation panics, on statuses, bitmaps, free lists and tables alone, without naming a transition |
| `Proc.Kernel.Execute` | arch/x86/proc.c:53-84 | any run of the operations on memory: it completes exactly when the abstract run does, memory then holds the state the run leads to, address spaces are apart in that memory and closed to user mode below the user range, and no byte of any user page has changed unless the run tore its tree down |
| `Contents.FaultSpares` | arch/x86/trap.c:14-19 | a page fault changes no byte of any user page, the faulting process's own included, and no byte of a table of any other process |
| `Contents.SwitchSpares` | arch/x86/vm.c:94-97 | linking another tree changes no byte of any frame of any process |
| `Contents.FreeSpares` | arch/x86/vm.c:99-124 | clearing the root word of a torn-down process touches no frame of another process |
| `Isolation.BystandersSeeNothing` | arch/x86/proc.c:53-84 | whatever step is taken, a process it is not about still reaches exactly the frames it reached, byte for byte |
| `CallSteps.TeardownRep` | arch/x86/vm.c:99-124 | after the teardown headers, clients and all other process structures in memory are as they were |
| `ProcMem.HeapFreeRep` | mm/slab.c:87-138 | a `kmfree` disturbs neither the page tables nor any block that is still there |
| `ProcMem.HeapStepRep` | arch/x86/proc.c:69-72 | a `kmalloc` disturbs neither the page tables nor any older block, frames of the trees included |
| `ProcMem.TreeStepRep` | arch/x86/proc.c:63 | a step of the page tables disturbs neither slab headers nor clients, and of frames only the cells it names |
| `FatRead.Readi` | fs/fat16/read.c:8-47 | fails if and only if the inode number exceeds 16 bits or the range exceeds the file; otherwise the destination is exactly what `AfterReadi` describes, byte by byte |
| `FatRead.CopyOut` | fs/fat16/read.c:28-43 | the four copy cases each write the piece of their cluster |
| `FatRead.ReadiExact` | fs/fat16/read.c:14-44 | the call leaves exactly the range asked for, whatever the destination held, if and only if the range fits in one cluster or starts on a cluster boundary |
| `FatRead.UnservedWrites` | fs/fat16/read.c:35-38 | in the remaining case bytes beyond the end of the range are written |
| `FatRead.ImageIsLinear` | fs/fat16/common.c:14-18 | a file in contiguous clusters is one run of bytes on the disk |
| `FatName.Strcmp` | string.c:33-45 | 0 if and only if the two strings are equal |
| `FatName.EntryName` | fs/fat16/common.c:54-61 | the name compared is the eleven bytes cut at the first space or NUL |
| `FatName.FindCluster` | fs/fat16/common.c:34-70 | in bytes of the disk: the two cluster bytes and four size bytes of the first entry of that name among all 32-byte entries of the directory's cluster, or of the root's whole sectors, and 0 if there is none |
| `FatName.LookupMeaning` | fs/fat16/common.c:8-17 | the same of the pure lookup that path resolution uses, for every directory and name |
| `FatName.LookupFirst` | fs/fat16/common.c:47-65 | the answer of a successful lookup is the cluster and size of the first usable match |
| `FatName.PackRoundTrip` | fs/fat16/common.c:64 | cluster and size survive the packed 64-bit result |
| `FatName.Namei` | fs/fat16/name.c:9-66 | equals resolving the path component by component from the root |
| `FatName.NextName` | fs/fat16/name.c:24-32 | the name looked up is the component cut to eleven bytes |
| `FatName.NamedBelow` | fs/fat16/name.c:22-63 | a path cut at any slash is its second part resolved in the directory its first part names, and names nothing when the first part does not |
| `FatName.NamedInRoot` | fs/fat16/name.c:13-22 | "/c" names the file of the first entry called c in the bytes of the root directory, and nothing if there is none or its cluster is 0 |
| `FatName.NamedInside` | fs/fat16/name.c:22-63 | "dir/c" names the file of the first entry called c in the bytes of the cluster that dir names |
| `FatName.ResolveConcat` | fs/fat16/name.c:22-63 | the lookup loop folds over any prefix of the components first, then over the rest from the cluster it found |
| `FatName.SplitConcat` | fs/fat16/name.c:22-32 | two paths joined with a slash split into the components of both |
| `FatName.NamesNothing` | fs/fat16/name.c:18-49 | the empty path, a relative path, "/" and every path with a trailing slash give NULL |
| `FatName.JoinSplit` | fs/fat16/name.c:22-32 | joining the components with slashes gives the path back |
| `FatName.SplitJoin` | fs/fat16/name.c:22-32 | components without slashes are recovered from the joined path |

## Left out

- The firmware page-table scan of `pm_init` and CPUID: `allocatable_max` is a parameter.
- `pfree` and the failure path of `sys_spawn` that calls it: `free_uvm` zeroes `upml4`, so `pfree` always panics.
- Vm.PageDir.WalkPgdir: does not model `large` with `create` on user addresses, which no caller uses, addresses of 2^48 and above, and walks of slot 2 while no process is linked there.
- User addresses outside slot 2 are in the kernel's shared tree, so isolation says nothing about them.
- Vm.PageDir.FillDirectory: excludes `large` with `create` on user addresses, like `WalkPgdir`.
- SlabAlloc.SlabAllocator.FindFreeSlab: excludes the index SLAB_NUM itself, which passes the test of the code and then reads past the table.
- SlabAlloc.SlabAllocator.Kmfree: excludes frees of header addresses and of slots already free, because the code does not detect them.
- PhysAlloc.PhysMem.Pmfree: excludes frees of blocks not in use or of another size, because the code does not detect them.
- The status field is modelled as a 64-bit word at offset 0 of `struct proc`, where C stores a 4-byte enum and padding.
- `context_switch`, the copy of the first program in `uinit` and the write of the SYSENTER stack register (a field here).
- The links between nodes of the process list (`list.c`): `Proc.Kernel.NewNode` allocates the node and names the process in it.
- `devfs_stdio` and `_sysret` are parameters of `Proc.Kernel.Palloc`.
- Loading CR3 at the end of `vm_init`; TLB effects.
- Inner loops and branches of `kmalloc`, `kmfree`, `walk_pgdir`, `free_uvm`, `palloc`, `uinit`, `fat16_readi` and `fat16_namei` are separate methods here, called where the C code has them inline.
- After `vm_init` the kernel itself maps only the first 4 GiB, while the model reads and writes managed memory physically up to its end: a table, header or page above 4 GiB would fault in the running kernel.
- `Proc.Kernel.Serve`, `Execute` and `MarkReady` have no counterpart in C: they stand for whatever calls the operations, in any order, and for the store a scheduler owes.
- Memory is at most 2^52 bytes, so address sums in the allocators do not wrap; the kernel image ends on a page boundary.
- `slab_tests`, dump output and debug printing.
- `ialloc` and `ifree`: an inode is a constructor with its number and size.
- The FAT chain (`fat16_next_cluster` is never called) and `fat16_init`; clusters of 64 KiB, which the 16-bit `cluster_size` cannot hold.
- Disk transfers: the disk is a byte image, and the 8-bit sector count of the controller is not modelled.
- The FAT16 buffers are arrays rather than `kmalloc` blocks, so running out of memory there is not modelled.
- FatRead.Readi: requires that the sum the guard tests does not wrap at 2^64 and that cluster indices fit 16 bits, because the C code then copies out of bounds.
- Overflow of the C `int` product in `fat16_readi` beyond 2 GiB.
- The rest of the repository: drivers, interrupts, the loader, formatted output, generic lists.
