# A verified model of the kernel's algorithms

This project models the algorithmic core of a small teaching kernel in Dafny and proves what its
comments, debug checks and users rely on. Code that updates state in place is modelled by classes
and methods with loops, each proved against a function on values; what the kernel promises about
whole runs is proved about those functions.

The main results:

- **The heap allocator** keeps all invariants that its debug routines check, across every malloc,
  free, consolidation and memalign: chunks tile the heap, every PREV_INUSE bit and footer is
  truthful, bins are linked, sorted and indexed right, a clear binmap bit means an empty bin.
  Each call changes the blocks handed out by exactly one block and writes into no other block, so
  over every run of calls and stores a word stays in its block until its owner overwrites it or
  frees the block.
  A request of 256 bytes or more that is not cut from top gets a smallest free chunk that fits,
  and top is used only if no free chunk fits. Runs of small requests continue in the last
  remainder, and once the fastbins are merged the layout of the heap depends on the blocks only.
- **The hash table** refines a finite map through every sequence of sets and deletes, and its
  probing ends because 5x + 1 has full period modulo a power of two.
- **The scheduler** keeps exactly one process running in every reachable state, in priority and
  exact round-robin order; every terminated child is collected at most once, with its own value.
  What each system call and tick changes is stated field by field for every state that satisfies
  the invariant: which child waitpid collects, when it blocks or fails, who dies with a process,
  when a sleeper wakes up.
- **Message queues** are first in, first out over every run without a reset, and their counters
  and waiting lists agree across every block and wake-up; exactly the longest waiting process of
  the highest priority is woken, and only when the queue was empty or full.
- **Pages** are never in two places, and the page walker sends every address to its latest
  mapping, writable at both levels exactly if it was mapped so.
- **Loops**: 64-bit division and substring search meet exact specifications; the packets of the
  GDB stub are read back exactly unless a count byte breaks the framing.

## How the code is modelled

- *Heap allocator* (`HeapAllocator`, on `Arena`, `FreeLists`, `TagMoves`, `ChunkTags`, `FitSearch`,
  `BinIndex`, `Alignments`, `BlockContents` and `Layout`). The 32-bit build: 4-byte words, alignment 8,
  minimal chunk 16, `max_fast` 72, no mmap. A chunk is named by its address; its four words (prev_size, size, fd, bk)
  are four maps. The header of bin i is the node with address -i. Words that lie inside a block
  may hold anything: `Store` is the owner's write, and
  `Run` and `StoreThenRun` are about programs of calls and writes. A binmap word is the set of
  its bits. The ghost field `own` says what each chunk is used for. The heap starts at a page boundary
  (kernel/build/kernel.lds:100) and ends below 2^31; sbrk only grows (kernel/mem.c:16-23), so the
  fencepost code of sYSMALLOc and the alignment correction are never reached. The coalescing code
  that free and malloc_consolidate both spell out is one method, `Coalesce`. Assignments to
  different words are sometimes made in another order than in the code.
- *Hash table*. `hash & mask` is the remainder modulo the table size; indices and perturbation wrap
  at 32 bits. hfunc and cmp are parameters: cmp is an equivalence, given by a canonical key, and
  hfunc respects it. Whether an allocation succeeds is a parameter. A table of 2^28 slots needs
  2^32 bytes, a length that mem_alloc refuses (shared/malloc.c:4124-4132), so tables have at most
  2^27 slots.
- *Lists of shared/queue.h*. `LinkedQueue` proves that the linked list is a sequence and
  `PriorityOrder` what its order means; the scheduler, message queues and page pool use sequences
  with the same insertion.
- *Scheduler*. A system call or tick is one step, cut where the code calls ordonnancer; the context
  switch is abstracted away. Process 0 is idle and never blocks or exits. Histories of births,
  terminations and collections are recorded to state what is collected.
  `ProcessModel` gives the steps, `ProcessCalls` what they do, `ServiceOrder` who is served first.
- *Message queues*. A turn of psend or preceive runs from the head of its loop to the next call of
  ordonnancer. The queue's waiting lists and the flag valresetfile of every process are part of the
  state; how many processes had blocked before is recorded to state who waits longest. A waiting
  process counts with the priority it had when it blocked, as in the code.
- *Page tables*. Physical memory is a map of 32-bit words, addressed in bytes; a word is a natural
  number below 2^32 and a one-bit mask a power of two. The page that memalign returns is a parameter
  that must be fresh, 0 standing for a failure.
- *Page pool*. A `priorite` that the code leaves uninitialised may have any value, so pages and
  owners may be inserted anywhere.

## Where the code differs from what it says

- A large chunk as small as the smallest of its bin is placed last, not in front of its equals:
  the comparison at shared/malloc.c:2071 is with a size word that includes PREV_INUSE. The model
  follows the code (`FindPlace`).
- The padded request of memalign wraps around for requests close to 2^32. `Memalign` requires that
  it does not; `PaddingRoom` shows that this is exactly when the request has room, and
  `PaddingWraps` gives an input.
- The GDB Remote Serial Protocol (Overview section) forbids '#' and '$' as count bytes. The
  encoder sends '#' exactly for plain runs of length 7 modulo 98, and '$' exactly for plain runs of
  length 8 modulo 98 and for hexified runs of 4 modulo 49 bytes with equal digits (`CountIff`,
  `FramingByte`). The report of thread id 0x1111111 is cut off by such a '#' (`ThreadReportBreaks`);
  packets without such counts, and without '#', '$' and '*' in plain texts, are read back
  (`PacketReads`, `PacketRoundTrip`).
- When the page pool runs out, the pages taken are given back only if the first owner with that pid
  is the new one; otherwise an older owner loses its pages (`Allocate`, `SafeIfFirst`,
  `ExhaustByOwner`).
- hash_set inserts before it resizes: after failed allocations the table can fill up. The contracts
  of `Set` and `Delete` say what holds without assuming that memory is available; `FindableIff` says
  which searches end then, and `FillUp` and `FillThenDelete` are runs after which some do not.
- The scheduler follows the intent where the code slips: the loop at kernel/process.c:110-118
  unlinks a destroyed child and then follows its null link unless the child was the last
  (`WrittenIff` says when it works); a freed slot keeps its `pere`; pages are freed by a pid that is
  -1 by then. In the ZOMBIE case the comment says that living children lose their father; the code
  keeps it until the zombie is collected, and so does the model.
- Round robin is exact only while no sleeper of higher priority becomes due (`RoundRobin`,
  `SleeperTakesTheTurn`).
- Sleepers are woken from the front of the clock list, where the last of a priority to fall asleep
  stands: of equals that are due on the same tick it is served first (`LastAsleepFirst`).
- psend wakes a receiver only when the queue was empty, and only one. A receiver can so stay blocked
  while messages are queued (`StaysBlocked`); `SendAccepts` says exactly when one is woken.
- If no owner has the pid, phy_mem_allocator.c reads a pid behind the list head; the model finds none.

## Model

| member | source | states |
|---|---|---|
| HeapAllocator.Allocator.Malloc | shared/malloc.c:1906-2252 | a null result leaves the blocks handed out as they were and means a refused or an unsatisfiable request, for a small one that nothing free fitted before either; any other adds exactly one new, 8-aligned block with nb <= size < nb + 16; the block is the head of its fastbin, else the oldest chunk of its small bin, and then no other list changes, else what the search finds: for a small request the oldest unsorted chunk of exactly its size, else the last remainder if it is the newest unsorted chunk and large enough; a request of 256 bytes or more that is not cut from top comes from a smallest free chunk that fits, and leaves the fastbins empty; one above 72 bytes is cut from top only if no free chunk fits; unless the block comes from a fastbin, the free rest behind it is the only unsorted chunk, and for a small request the last remainder, which otherwise stays; a small request keeps the fastbins unless top is too small; no word of an older block changes |
| HeapAllocator.Allocator.Free | shared/malloc.c:2259-2410 | exactly the freed block is no longer handed out and the whole state stays sound; a block of at most 72 bytes becomes the head of its fastbin and nothing else changes; a larger one becomes a range with its free neighbours: from 128 KB on all fastbins are empty afterwards, below that the fastbins stay and the range is the most recent unsorted chunk, or top if it borders top; the last remainder stays; no word of another block changes |
| HeapAllocator.Allocator.Memalign | shared/malloc.c:2756-2854 | the result is a multiple of the alignment rounded to a power of two, is the one new block with nb <= size <= nb + 16, and no word of an older block changes; a null result means a refused or an unsatisfiable padded request |
| HeapAllocator.Allocator.TakeAligned | shared/malloc.c:2793-2854 | the same for alignments above 8 |
| HeapAllocator.Allocator.ConsolidateFastbins | shared/malloc.c:2453-2517 | all fastbins are emptied and merged, and the blocks handed out, and their words, stay the same |
| HeapAllocator.Allocator.EmptyFastbin | shared/malloc.c:2468-2516 | one fastbin is emptied by following the links its chunks keep while they are merged |
| HeapAllocator.Allocator.MergeSpilled | shared/malloc.c:2472-2513 | merging one chunk of a cleared fastbin leaves the chain of the others readable |
| HeapAllocator.Allocator.SpillFastbin | shared/malloc.c:2469-2470 | clearing the head of a fastbin takes exactly its chunks off the lists |
| HeapAllocator.Allocator.Coalesce | shared/malloc.c:2309-2363 | p and its free neighbours become one chunk from the start of the free chunk in front to the end of the free chunk, or top, behind; it is the most recent unsorted chunk, or top exactly if p bordered top; only block p is taken back, and no word of another block changes |
| Arena.MergedRange | shared/malloc.c:2309-2363 | the range of a merge by the neighbours: it starts at the free chunk in front of p, if there is one, and ends behind the free chunk or top behind p, if there is one |
| Layout.SameLayout | shared/malloc.c:2453-2517 | after a consolidation where the chunks lie and which are free depends on the memory and the blocks handed out only: two consolidated heaps that agree in these have the same chunks |
| Layout.SameEnd | shared/malloc.c:2453-2517 | the same for one chunk that is no block: it ends at the next block |
| HeapAllocator.Allocator.OpenBackward | shared/malloc.c:2315-2321 | the footer of a chunk whose PREV_INUSE bit is clear leads to the free chunk in front, which leaves its list; this is where the merged range starts |
| HeapAllocator.Allocator.OpenForward | shared/malloc.c:2324-2332 | the chunk behind is found free by the bit behind it, and leaves its list; the merged range ends behind it |
| HeapAllocator.Allocator.MergeChunks | shared/malloc.c:2340-2348 | the merged chunk is the most recent unsorted chunk |
| HeapAllocator.Allocator.MergeTags | shared/malloc.c:2346-2348 | the merged chunk gets truthful head, footer and PREV_INUSE bit behind it |
| HeapAllocator.Allocator.MergedState | shared/malloc.c:2346-2348 | the state with the merged chunk is sound and only its block is taken back |
| HeapAllocator.Allocator.MergeIntoTop | shared/malloc.c:2358-2363 | a range that borders top becomes top |
| HeapAllocator.Allocator.PushFast | shared/malloc.c:2288-2303 | the state is that with p as the head of the fastbin of its size |
| HeapAllocator.Allocator.FreeBig | shared/malloc.c:2305-2388 | a block too large for the fastbins is merged with its free neighbours; a merged range of at least 128 KB empties all fastbins, a smaller one leaves them as they are and is the most recent unsorted chunk or top |
| HeapAllocator.Allocator.FreeLarge | shared/malloc.c:2378-2387 | afterwards every fastbin is empty; every block, the last remainder and the binmap stay, and with empty fastbins nothing changes |
| HeapAllocator.Allocator.TrimTop | shared/malloc.c:1844-1898 | with an sbrk that takes nothing back, nothing is released and top needs no adjustment |
| HeapAllocator.Allocator.Sbrk | kernel/mem.c:16-23 | the break moves by diff, or the call fails and it stays: negative and too large requests fail |
| HeapAllocator.Allocator.constructor | shared/malloc.c:935-990 | an all-zero malloc_state hands out no block |
| HeapAllocator.Allocator.InitState | shared/malloc.c:1015-1048 | after initialisation every bin is an empty ring, top is the header of the unsorted bin, and the state is sound |
| HeapAllocator.Allocator.LinkHeaders | shared/malloc.c:1025-1028 | each bin header is linked to itself |
| HeapAllocator.Allocator.SysMalloc | shared/malloc.c:1409-1829 | consolidates and retries once with a request that is padded to the same nb, or grows the heap; the recursion is measured by the FASTCHUNKS flag alone; without fastbin chunks a block is cut from top, and a null result means that the heap cannot grow enough and leaves the last remainder |
| HeapAllocator.Allocator.Grow | shared/malloc.c:1520-1829 | top is extended by whole pages, or created at the base, and the request is cut from its front; it fails if and only if the rounded need does not fit below the heap's end |
| HeapAllocator.Allocator.GrowTop | shared/malloc.c:1625-1626 | a break that moved right behind top makes top longer |
| HeapAllocator.Allocator.FoundTop | shared/malloc.c:1655-1745 | the first memory becomes top |
| HeapAllocator.PaddingRoom | shared/malloc.c:2797 | the padded request of memalign has room for every alignment if and only if the sum does not wrap around |
| HeapAllocator.PaddingWraps | shared/malloc.c:2797 | a request of 2^32 - 33 bytes with alignment 16 asks malloc for 8 bytes |
| HeapAllocator.RequestSizeFits | shared/malloc.c:524-536 | a padded request is aligned, at least 16, holds the request and its size word, wastes less than 8 bytes, and cannot wrap |
| HeapAllocator.RetrySize | shared/malloc.c:1444-1448 | nb - 7 is padded to nb again |
| HeapAllocator.Allocator.UnlinkChunk | shared/malloc.c:675-681 | the two assignments remove exactly this chunk from its ring |
| HeapAllocator.Allocator.UnlinkLast | shared/malloc.c:2046-2047 | the shortcut for the last chunk of a bin removes exactly that chunk |
| HeapAllocator.Allocator.LinkChunk | shared/malloc.c:2088-2091 | the four assignments insert the chunk between two neighbours of the ring |
| HeapAllocator.Allocator.LinkUnsorted | shared/malloc.c:2340-2345 | a freed chunk becomes the first of the unsorted list |
| HeapAllocator.Allocator.HandOut | shared/malloc.c:2052 | setting the PREV_INUSE bit behind a chunk hands it out as a whole and keeps the state sound |
| HeapAllocator.Allocator.CutChunk | shared/malloc.c:2037-2039 | the front becomes a block of nb bytes, the rest a free chunk with truthful tags |
| HeapAllocator.Allocator.SplitChunk | shared/malloc.c:2199-2213 | the rest of a split becomes the only unsorted chunk |
| HeapAllocator.Allocator.SplitTopChunk | shared/malloc.c:2237-2246 | the front of top becomes a block and top moves up |
| HeapAllocator.Allocator.DetachLast | shared/malloc.c:2187-2190 | the last chunk of a bin is the only one between two lists, and no block |
| HeapAllocator.Allocator.Detach | shared/malloc.c:2111 | the same for a chunk at any position |
| HeapAllocator.Allocator.GrantWhole | shared/malloc.c:2193-2197 | a detached chunk becomes a new block of its full size, is followed by a chunk in use, and is not last |
| HeapAllocator.Allocator.GrantFront | shared/malloc.c:2200-2213 | its first nb bytes become a new block and the rest, right behind it, is the only unsorted chunk |
| HeapAllocator.Allocator.GrantPart | shared/malloc.c:2192-2214 | whole if less than 16 bytes would remain, else split; the rest of a split is the only unsorted chunk and, for a small request, the last remainder, which otherwise stays; the grant is a best fit if the chunk was |
| HeapAllocator.Allocator.UnsortedTurn | shared/malloc.c:2013-2092 | the oldest unsorted chunk is split if and only if it is the last remainder, alone, big enough and the request small; else it is handed out if and only if it fits exactly, else it goes to its bin |
| HeapAllocator.Allocator.UseUnsorted | shared/malloc.c:2013-2092 | the chunk handed out is the oldest unsorted one of exactly the size, else the last remainder if the request is small, it is the newest unsorted chunk and more than 16 bytes larger; without such a chunk no unsorted chunk is left, and the same chunks are free as before |
| HeapAllocator.Allocator.PlaceUnsorted | shared/malloc.c:2057-2091 | a chunk of another size never lands in the bin of a small request |
| HeapAllocator.Allocator.PlaceChunk | shared/malloc.c:2057-2091 | small chunks go to the front of their bin, large ones to the place that keeps it sorted, and the bin is marked |
| HeapAllocator.Allocator.FindPlace | shared/malloc.c:2064-2085 | at the end if no chunk of the bin is smaller, else in front of the first that is not larger |
| HeapAllocator.Allocator.WalkDown | shared/malloc.c:2079-2082 | the walk stops at the first chunk that is not larger, before it reaches the header |
| HeapAllocator.Allocator.FindInBin | shared/malloc.c:2106-2131 | the smallest chunk of the bin that fits, or none fits |
| HeapAllocator.Allocator.ScanBin | shared/malloc.c:2103-2132 | a large request served from its own bin gets the last chunk of that bin that fits, which is a smallest free chunk that fits; the rest of a split is the only unsorted chunk and the last remainder stays; otherwise nothing changed and no chunk there fits |
| HeapAllocator.Allocator.FindMarked | shared/malloc.c:2149-2177 | the first non-empty bin from the start on; only bits of empty bins are cleared; without one, no bin holds a fit |
| HeapAllocator.Allocator.NextBlock | shared/malloc.c:2151-2160 | skipping to the next block with a set bit passes only empty bins |
| HeapAllocator.Allocator.NextBit | shared/malloc.c:2162-2167 | advancing to the next set bit passes only empty bins and stays in the block |
| HeapAllocator.Allocator.ScanMap | shared/malloc.c:2143-2216 | the last chunk of the first larger bin that is not empty, which is a smallest free chunk that fits; the rest of a split is the only unsorted chunk and, for a small request, the last remainder, which otherwise stays; without one no free chunk fits |
| HeapAllocator.Allocator.SearchBins | shared/malloc.c:2013-2216 | unsorted chunks, own bin, larger bins: the oldest unsorted chunk of exactly the size, else the last remainder, else a smallest free chunk that fits; the rest of a split is the only unsorted chunk and, for a small request, the last remainder, which otherwise stays; without one no free chunk fits, before or after |
| HeapAllocator.Allocator.TakeFast | shared/malloc.c:1956-1963 | exactly the head of the fastbin of this size is taken, and nothing else changes |
| HeapAllocator.Allocator.TakeSmall | shared/malloc.c:1973-1986 | the oldest chunk of the small bin of exactly this size, or the bin is empty and nothing changed |
| HeapAllocator.Allocator.TakeTop | shared/malloc.c:2237-2246 | the block is the front of top, and no free chunk would have fitted |
| HeapAllocator.Allocator.UseTop | shared/malloc.c:2218-2251 | the front of top if top stays large enough, and then the fastbins stay; else what the system call gives |
| HeapAllocator.Allocator.FirstMalloc | shared/malloc.c:1943-1950 | before the first free nothing is free, so the search is bypassed and the block is cut from top |
| HeapAllocator.Allocator.SearchMalloc | shared/malloc.c:1952-2251 | the head of the fastbin, else the oldest chunk of the small bin, else the search, else top |
| HeapAllocator.Allocator.TakeListed | shared/malloc.c:1956-1986 | exactly the head of the fastbin, else the oldest chunk of the small bin; nothing changed if both are empty |
| HeapAllocator.Allocator.RetrySearched | shared/malloc.c:1444-1448 | after the consolidation the retry is not served from a fastbin |
| HeapAllocator.Allocator.LargeRequest | shared/malloc.c:2094-2251 | what serves a request that has no fastbin, or no small bin, follows from where the block lies |
| HeapAllocator.Allocator.SearchOrTop | shared/malloc.c:2013-2251 | the search, then top, with what Malloc says about unsorted chunks, last remainder and fastbins |
| HeapAllocator.Allocator.MallocTwice | shared/malloc.c:2022-2042 | two requests in a row: if the first is small, not served from a fastbin and leaves a free rest behind its block, a second small one that no fastbin or small bin serves and that the rest exceeds by more than 16 bytes gets the block right behind the first, and what is left is the next last remainder |
| HeapAllocator.Allocator.ContinuedFrom | shared/malloc.c:2022-2042 | the state in which a small request must be cut from the last remainder |
| HeapAllocator.Allocator.StopsAt | shared/malloc.c:2013-2062 | the loop over the unsorted chunks stops at the chunk of the closed form, and passes over all others |
| HeapAllocator.Allocator.TurnContinues | shared/malloc.c:2024-2027 | the four tests of the source hold exactly if the last remainder is the only unsorted chunk, the request small and the chunk large enough |
| FitSearch.ChoiceExact | shared/malloc.c:2048-2052 | an exact fit, the oldest first, is chosen before the last remainder |
| HeapAllocator.Allocator.CarveBlock | shared/malloc.c:2829-2832 | a block is cut in two blocks |
| HeapAllocator.Allocator.GiveBackLead | shared/malloc.c:2818-2834 | the leading piece is given back and the aligned rest is the block |
| HeapAllocator.Allocator.GiveBackRest | shared/malloc.c:2840-2849 | what is behind the first nb bytes is given back |
| HeapAllocator.Allocator.AlignWithin | shared/malloc.c:2803-2838 | the aligned block still holds nb bytes; the leading piece given back is at least a minimal chunk |
| HeapAllocator.Allocator.TrimBlock | shared/malloc.c:2840-2850 | spare room of more than 16 bytes is given back |
| HeapAllocator.Allocator.BlocksApart | shared/malloc.c:1099-1124 | the usable bytes of different blocks are disjoint and lie in the heap |
| HeapAllocator.Allocator.OwnerWrites | shared/malloc.c:425-470 | whatever the owner of a block writes into its usable bytes, which include the next chunk's prev_size and stale headers and links, the allocator's state stays sound |
| HeapAllocator.Allocator.Store | shared/malloc.c:420-434 | the owner of a block stores a word, which may overwrite what once was a size word, a prev_size or a link; the allocator stays valid and no other block changes |
| HeapAllocator.Allocator.StoredSound | shared/malloc.c:420-434 | the state with the word stored is sound |
| HeapAllocator.Allocator.Act | shared/malloc.c:1906-2854 | one call, or one store, keeps the allocator valid, follows the blocks handed out, and changes no other block |
| HeapAllocator.Allocator.Run | shared/malloc.c:1906-2854 | every sequence of mallocs, memaligns, frees and stores keeps the allocator valid; blocks that are neither freed nor written into stay, with what they hold |
| HeapAllocator.Allocator.StoreThenRun | shared/malloc.c:1906-2854 | a word stored in a block is read back after every such sequence that spares the block |
| BlockContents.UnlinkKept | shared/malloc.c:675-681 | an unlink writes into no block |
| BlockContents.LinkKept | shared/malloc.c:2088-2091 | nor does linking a chunk |
| BlockContents.PushKept | shared/malloc.c:2301-2302 | a push on a fastbin writes into the freed block only |
| BlockContents.ExhaustWords | shared/malloc.c:2193-2197 | handing out a whole chunk writes into no block |
| BlockContents.SplitWords | shared/malloc.c:2200-2213 | nor does splitting one |
| BlockContents.SplitTopWords | shared/malloc.c:2237-2246 | nor does cutting from top |
| BlockContents.MergeWords | shared/malloc.c:2346-2348 | merging with the neighbours writes into the freed block only |
| BlockContents.MergeTopWords | shared/malloc.c:2358-2363 | merging with top writes into the freed block only |
| BlockContents.CarveWords | shared/malloc.c:2829-2832 | cutting a block in two writes into this block only |
| BlockContents.ExtendWords | shared/malloc.c:1624-1626 | growing top writes into no block |
| BlockContents.FieldsApart | shared/malloc.c:441-475 | the fields the allocator relies on are different words of memory |
| BlockContents.FieldsOutside | shared/malloc.c:420-434 | none of them lies in the bytes that the owner of a block uses |
| HeapAllocator.Allocator.WordInBin | shared/malloc.c:2079 | the size word of a binned chunk has its PREV_INUSE bit set |
| Alignments.RoundAlignment | shared/malloc.c:2776-2785 | the smallest of 16, 32, 64, ... that is at least the alignment |
| Alignments.Pow2Kept | shared/malloc.c:2781 | a power of two from 16 on is its own alignment |
| Alignments.AlignedSpot | shared/malloc.c:2813-2816 | an aligned spot with at least 16 and less than alignment + 16 bytes in front |
| BinIndex.Monotone | shared/malloc.c:715-752 | larger chunks never have a smaller bin index |
| BinIndex.HigherBinFits | shared/malloc.c:2182-2183 | chunks of higher bins fit, and chunks that fit are in no lower bin |
| BinIndex.IndexRange | shared/malloc.c:705-752 | bin indices are 2 to 95, below 32 exactly for small sizes |
| BinIndex.SmallBinExact | shared/malloc.c:708-713 | a small bin holds one size |
| BinIndex.LargeIndexRange | shared/malloc.c:715-749 | the index of a large size, from its highest bit and the next two |
| BinIndex.BranchFreeIsHighBit | shared/malloc.c:729-745 | the branch-free computation finds the highest bit of every x below 2^16 |
| ChunkTags.WalkMeets | shared/malloc.c:1099-1124 | walking from the base by the size words meets every chunk in the order of the addresses |
| ChunkTags.Disjoint | shared/malloc.c:1099-1124 | chunks do not overlap |
| ChunkTags.FreeBefore | shared/malloc.c:1206-1211 | in front of a clear PREV_INUSE bit lies a free chunk, and the footer leads to it |
| ChunkTags.FreeAlone | shared/malloc.c:1161-1175 | a free chunk is followed by a chunk in use that is not top |
| TagMoves.ExhaustTiled | shared/malloc.c:2193-2197 | handing out a whole chunk keeps the heap tiled and all tags truthful |
| TagMoves.ExhaustFrame | shared/malloc.c:2193-2197 | it adds exactly this block and leaves the listed chunks alone |
| TagMoves.SplitTiled | shared/malloc.c:2200-2213 | so does splitting a free chunk |
| TagMoves.SplitFrame | shared/malloc.c:2200-2213 | splitting adds exactly the front block |
| TagMoves.SplitTopTiled | shared/malloc.c:2237-2246 | so does cutting from top |
| TagMoves.SplitTopFrame | shared/malloc.c:2237-2246 | cutting from top adds exactly one block |
| TagMoves.ExtendTiled | shared/malloc.c:1618-1627 | growing top keeps the tiling up to the new break |
| TagMoves.FoundTiled | shared/malloc.c:1748-1752 | the first memory is one top chunk |
| TagMoves.MergeTiled | shared/malloc.c:2323-2348 | joining a freed chunk with its free neighbours keeps tiling and tags |
| TagMoves.MergeFrame | shared/malloc.c:2323-2348 | joining takes exactly one block back and leaves the listed chunks alone |
| TagMoves.MergeTopTiled | shared/malloc.c:2358-2363 | so does joining with top |
| TagMoves.MergeTopFrame | shared/malloc.c:2358-2363 | joining with top takes exactly one block back |
| TagMoves.CarveTiled | shared/malloc.c:2829-2832 | cutting a block in two keeps tiling and tags |
| TagMoves.CarveFrame | shared/malloc.c:2829-2832 | cutting a block gives exactly two blocks in its place |
| TagMoves.PayloadKeepsTags | shared/malloc.c:425-470 | no write of an owner changes a tag that counts |
| FreeLists.RingInsert | shared/malloc.c:2088-2091 | inserting between neighbours keeps fd and bk inverse around one ring |
| FreeLists.RingRemove | shared/malloc.c:675-681 | unlinking keeps fd and bk inverse around one ring |
| FreeLists.LinkLinking | shared/malloc.c:2088-2091 | no other ring or chain is disturbed by an insertion |
| FreeLists.UnlinkLinking | shared/malloc.c:675-681 | no other ring or chain is disturbed by an unlink |
| FreeLists.PushLinking | shared/malloc.c:2299-2302 | a push disturbs no other list |
| FreeLists.PopLinking | shared/malloc.c:1957-1959 | a pop disturbs no other list |
| FreeLists.ClearLinking | shared/malloc.c:2469-2470 | clearing a fastbin disturbs no other list |
| FreeLists.FilingFrame | shared/malloc.c:1339-1375 | the lists only depend on the chunks that are on them |
| Arena.LinkFiling | shared/malloc.c:1358-1368 | a chunk put in the bin of its size at a place that keeps the order leaves every bin right and sorted |
| Arena.UnlinkFiling | shared/malloc.c:1358-1368 | taking a chunk off leaves every bin right and sorted |
| Arena.UnlinkedSound | shared/malloc.c:1284-1380 | an unlink keeps the invariant of the check routines |
| Arena.LinkedSound | shared/malloc.c:1284-1380 | a link keeps the invariant of the check routines |
| Arena.PoppedSound | shared/malloc.c:1310-1337 | a fastbin pop keeps the invariant |
| Arena.PushedSound | shared/malloc.c:1310-1337 | a fastbin push keeps the invariant and sets both flags |
| Arena.ClearedSound | shared/malloc.c:1310-1337 | clearing a fastbin keeps the invariant |
| Arena.JoinLow | shared/malloc.c:2323-2348 | merging around a chunk in use takes back only that chunk |
| Arena.JoinTop | shared/malloc.c:2358-2363 | merging with top takes back only that chunk |
| Arena.LowerBinsTooSmall | shared/malloc.c:2143-2149 | chunks in bins below that of the request are too small |
| Arena.NoneAboveMaxFast | shared/malloc.c:1315-1322 | fastbins past max_fast are empty |
| Arena.InitialSound | shared/malloc.c:1015-1048 | the state after initialisation satisfies the invariant |
| FitSearch.LeastFit | shared/malloc.c:2094-2216 | the first fit from the end of the first bin that holds one is a smallest free chunk that fits |
| FitSearch.SplitTaken | shared/malloc.c:2200-2213 | behind the front of a free chunk lies its rest, so block and rest tell its size |
| FitSearch.ExhaustTaken | shared/malloc.c:2193-2197 | behind a free chunk handed out as a whole no free chunk starts, so its size is that of the block |
| FitSearch.SameBin | shared/malloc.c:1362-1367 | in one bin an earlier chunk is never smaller |
| FitSearch.NothingFits | shared/malloc.c:2154-2155 | when all bins have been searched no free chunk fits |
| FitSearch.NothingFree | shared/malloc.c:1946-1949 | without ANYCHUNKS nothing is free |
| ProbeSequence.WalkHalfTurn | kernel/hash.c:54-81 | 2^k turns of 5x + 1 move x by 2^k modulo 2^(k+1) |
| ProbeSequence.WalkCovers | kernel/hash.c:54-81 | 5x + 1 has full period modulo a power of two |
| ProbeSequence.PerturbVanishes | kernel/hash.c:58-79 | from turn 7 on the perturbation of a 32-bit hash is 0 |
| ProbeSequence.IndexIsWalk | kernel/hash.c:58-79 | from turn 7 on the index is the unperturbed walk, up to 32-bit wrap-around |
| ProbeSequence.EverySlotProbed | kernel/hash.c:54-81 | every slot of a table of 2^k slots is probed within 7 + 2^k turns |
| SlotTable.SearchEndsIff | kernel/hash.c:54-81 | probing ends if and only if some slot ends it, and then within 7 + size turns |
| SlotTable.EntryBeforeEmpty | kernel/hash.c:54-81 | an entry with the key is probed before any EMPTY slot |
| SlotTable.SomeEmpty | kernel/hash.c:110-126 | a table that is not full has an EMPTY slot |
| SlotTable.CountUpdate | kernel/hash.c:188-236 | how fill and count change when a slot is written |
| SlotTable.PathKept | kernel/hash.c:54-81 | a used slot written anywhere keeps every probe path |
| SlotTable.ContentsHold | kernel/hash.c:54-81 | the map of a table holds exactly its entries |
| SlotTable.HoldsDetermines | kernel/hash.c:54-81 | no other map does |
| SlotTable.StoreNew | kernel/hash.c:88-105 | an entry stored on its path adds exactly one key |
| SlotTable.StoreValue | kernel/hash.c:188-214 | replacing a value changes exactly one key's value |
| SlotTable.Bury | kernel/hash.c:217-236 | a tombstone removes exactly one key and loses no other entry |
| HashTable.HashMap.constructor | kernel/hash.c:137-147 | a new table has eight slots, is empty and roomy |
| HashTable.HashMap.Init | kernel/hash.c:137-147 | -1 and no table without memory, else 0 and a new table |
| HashTable.HashMap.Initialize | kernel/hash.c:29-47 | a table of EMPTY slots, or -1 and nothing changed |
| HashTable.HashMap.RoomyFindable | kernel/hash.c:54-81 | in a table that is not full every search ends |
| HashTable.HashMap.Lookup | kernel/hash.c:54-81 | the slot of the key, or a free slot on its path and the key is nowhere |
| HashTable.HashMap.Get | kernel/hash.c:174-185 | the value of the key in the map, or the default |
| HashTable.HashMap.IsSet | kernel/hash.c:163-171 | whether the key is in the map |
| HashTable.HashMap.Occupy | kernel/hash.c:95-104 | a new entry adds the key, one to count, and one to fill if the slot was EMPTY |
| HashTable.HashMap.Copy | kernel/hash.c:88-105 | the new table has exactly the old entries and no tombstone |
| HashTable.HashMap.Update | kernel/hash.c:110-135 | resizing keeps the map and restores 3 fill < 2 size: the table is doubled from two thirds full on, halved at a quarter in use, and else stays; it fails, and then changes nothing, if and only if another size is wanted and there is no memory or no such size |
| HashTable.HashMap.Set | kernel/hash.c:188-214 | the map with key := value, whatever the result of resizing; count follows; a known key changes no slot but its own; it fails only if a resize fails |
| HashTable.HashMap.Delete | kernel/hash.c:217-236 | the map without the key; count follows; the table is halved when a quarter is in use; it fails only if a resize fails |
| HashTable.HashMap.Run | kernel/hash.c:188-236 | any sequence of sets and deletes refines the same sequence on the finite map and keeps the load rule; it stops early only after an operation whose resize failed, and never if memory is available and fewer operations come than could fill two thirds of 2^27 slots |
| HashTable.HashMap.FindableIff | kernel/hash.c:54-81 | a search ends if and only if some slot is EMPTY or the key is in the table |
| HashTable.HashMap.FillUp | kernel/hash.c:188-214 | without memory, as many sets as there are slots fill the table, and then the search ends for the stored keys only |
| HashTable.HashMap.FillThenDelete | kernel/hash.c:137-236 | a run from the start after which the search for a deleted key does not end |
| HashTable.HashMap.LastOpDecides | kernel/hash.c:174-236 | what a lookup sees is the last operation on an equal key |
| PriorityOrder.InsertSorted | shared/queue.h:73-87 | queue_add keeps the list sorted |
| PriorityOrder.InsertAtUnique | shared/queue.h:73-87 | where queue_add's walk stops is determined by the priorities |
| PriorityOrder.AddServesInOrder | shared/queue.h:73-87 | a newcomer is served after all older entries of its priority |
| PriorityOrder.RemoveServesInOrder | shared/queue.h:155-163 | removing from any position keeps the service order |
| PriorityOrder.LastIsOldestHighest | shared/queue.h:129-145 | queue_out takes the oldest of the highest priority |
| PriorityOrder.RunsServeInOrder | shared/queue.h:73-163 | after every sequence of additions and removals the list is in service order |
| LinkedQueue.InsertLinked | shared/queue.h:73-87 | the four assignments of queue_add keep next and prev inverse along one cycle |
| LinkedQueue.RemoveLinked | shared/queue.h:155-163 | joining the neighbours keeps next and prev inverse along one cycle |
| LinkedQueue.InsertCycle | shared/queue.h:73-87 | the cycle with the new node meets every node once |
| LinkedQueue.RemoveCycle | shared/queue.h:155-163 | the cycle without the node meets every node once |
| LinkedQueue.Queue.constructor | shared/queue.h:49-54 | an empty list is a head linked to itself |
| LinkedQueue.Queue.IsEmpty | shared/queue.h:102-110 | whether the sequence is empty |
| LinkedQueue.Queue.Seek | shared/queue.h:79-82 | the walk stops at the place given by the priorities |
| LinkedQueue.Queue.Splice | shared/queue.h:83-86 | the assignments put the element in front of the node found |
| LinkedQueue.Queue.Add | shared/queue.h:73-87 | the sequence with the element inserted at its place |
| LinkedQueue.Queue.Del | shared/queue.h:155-163 | the sequence without the element, from any position |
| LinkedQueue.Queue.Out | shared/queue.h:129-145 | the last element, and the sequence without it |
| LinkedQueue.Queue.Top | shared/queue.h:209-220 | the last element, and nothing changed |
| ProcessRuns.OneRuns | kernel/process.c:63-163 | in every reachable state exactly one process runs and it is pid_actif, the ready and clock lists hold exactly the ready processes and the sleepers, and no ready process outranks the running one |
| ProcessRuns.ReachableInv | kernel/process.c:39-384 | the whole invariant in every reachable state |
| ProcessRuns.RunInv | kernel/process.c:39-384 | every run of steps keeps the invariant |
| ProcessRuns.StepInv | kernel/process.c:39-384 | every system call and tick keeps the invariant |
| ProcessRuns.BootInv | kernel/process.c:21-33 | the first process satisfies the invariant |
| ProcessRuns.TickInv | kernel/horloge.c:13-54 | after a tick no sleeper is overdue |
| ProcessRuns.RunGrows | kernel/process.c:39-341 | the record of terminations and collections only grows |
| ProcessRuns.ExitValueHandedOut | kernel/process.c:280-357 | in every continuation an exited process is collected at most once, with its exit value |
| ProcessRuns.KilledHandedOutAsZero | kernel/process.c:270-341 | in every continuation a killed process is collected at most once, with value 0 |
| ProcessRuns.ResumeCollects | kernel/process.c:307-322 | a father that resumes finds the child that woke it as its own zombie |
| ProcessRuns.FoundChildKept | kernel/process.c:45-57 | until the father resumes or is killed, no step takes the zombie away or reuses its slot |
| ProcessRuns.FoundChildStays | kernel/process.c:45-57 | over every run in which the father neither resumes nor is killed, his child stays his own zombie, with its birth and value |
| ProcessTurns.RoundRobin | kernel/process.c:132-163 | with m equals ahead and only ticks, a ready process does not run before m + 1 ticks, and runs then if and only if no sleeper of higher priority is due by then |
| ProcessTurns.WakeDueLine | kernel/horloge.c:40-45 | a sleeper of no higher priority wakes up behind the equals that are ready already |
| ProcessTurns.HigherRuns | kernel/horloge.c:40-54 | once a sleeper of higher priority is due, a process of lower priority does not run, however many ticks follow |
| ProcessTurns.SleeperTakesTheTurn | kernel/process.c:132-163 | a run from the start after which the first in line does not run on the next tick |
| ProcessTurns.RunReaches | kernel/process.c:193-268 | the table that this run of start, wait_clock and start leads to |
| ProcessTurns.LineMoves | kernel/process.c:132-163 | where it stands after n ticks |
| ProcessTurns.OneTurn | kernel/process.c:132-163 | one turn moves the line by one |
| ProcessInvariants.ScheduleInv | kernel/process.c:132-163 | ordonnancer turns a consistent table into one where a highest-priority process runs |
| ProcessInvariants.DoomedFacts | kernel/process.c:88-107 | the slots freed with a process are it and the zombies below it, and none of them is left behind |
| ProcessInvariants.BuryFamily | kernel/process.c:88-107 | freeing them keeps fathers and lists of children one forest |
| ProcessInvariants.TerminatedConsistent | kernel/process.c:39-61 | termination keeps the table consistent |
| ProcessInvariants.CollectedConsistent | kernel/process.c:320-322 | collecting a zombie keeps the table consistent |
| ProcessInvariants.BlockedConsistent | kernel/process.c:307-311 | waiting for a child keeps the table consistent |
| ProcessInvariants.AsleepConsistent | kernel/horloge.c:80-85 | wait_clock keeps the table consistent |
| ProcessInvariants.WakeDueConsistent | kernel/horloge.c:40-46 | the restart loop wakes every due sleeper and keeps the table consistent |
| ProcessInvariants.ReprioritizedConsistent | kernel/process.c:363-378 | chprio keeps the ready list in order |
| ProcessInvariants.StartedConsistent | kernel/process.c:179-255 | start keeps the table consistent |
| ProcessGraves.DoomedSplit | kernel/process.c:88-107 | the freed slots are the process and what its zombie children free |
| ProcessGraves.CutIsBury | kernel/process.c:88-107 | the links cut one by one amount to the closed form of the recursion |
| ProcessGraves.EndsCut | kernel/process.c:109-119 | the ZOMBIE case frees everything below the process but not itself |
| ProcessGraves.TerminatedStages | kernel/process.c:39-57 | the stages of terminaison_processus compose to its specification |
| Scheduler.ProcessTable.constructor | kernel/process.c:21-33 | the table in which idle runs |
| Scheduler.ProcessTable.MakeReadyAt | kernel/process.c:79-81 | the process is ready, at its place in the ready list |
| Scheduler.ProcessTable.Ordonnancer | kernel/process.c:132-163 | the table after the scheduling decision |
| Scheduler.ProcessTable.SwitchToNext | kernel/process.c:146-151 | the last of the ready list leaves it and runs |
| Scheduler.ProcessTable.Destroy | kernel/process.c:88-107 | the recursion over zombie children, from any stage of an enclosing recursion |
| Scheduler.ProcessTable.DestroyAll | kernel/process.c:88-107 | the MORT case frees exactly the doomed slots |
| Scheduler.ProcessTable.DestroyZombieChildren | kernel/process.c:109-119 | the intended loop frees exactly the doomed slots below the process |
| Scheduler.ProcessTable.VisitChildren | kernel/process.c:109-119 | its loop over the children |
| ChildLoop.WrittenIff | kernel/process.c:109-119 | the loop as it is written ends if and only if no child but the last is a zombie |
| ChildLoop.WrittenIsIntended | kernel/process.c:109-119 | where the written loop ends it destroys what the intended loop destroys |
| ChildLoop.TwoZombiesBreakIt | kernel/process.c:109-119 | with two zombie children the written loop follows a null link |
| Scheduler.ProcessTable.LeaveLists | kernel/process.c:70-74 | a dying process leaves the list it is on |
| Scheduler.ProcessTable.WakeFather | kernel/process.c:47-52 | a father waiting for this child or any child gets ready and knows the child |
| Scheduler.ProcessTable.Terminaison | kernel/process.c:39-61 | the table after a termination, up to the scheduling decision |
| Scheduler.ProcessTable.FindFree | kernel/process.c:184-194 | the first free slot, or -1 if there is none |
| Scheduler.ProcessTable.NewChild | kernel/process.c:215-255 | the new process is ready, in its father's list of children |
| Scheduler.ProcessTable.Start | kernel/process.c:179-260 | -1 and nothing changed if and only if the table is full, else the first free slot holds a new child of the caller |
| Scheduler.ProcessTable.Kill | kernel/process.c:270-278 | 0 and the process dies if it runs, is ready, sleeps or waits and is not idle, else -1 and nothing changes |
| Scheduler.ProcessTable.Exit | kernel/process.c:351-354 | the caller dies with its value and another process runs |
| Scheduler.ProcessTable.FindZombie | kernel/process.c:302-305 | the first zombie among the children |
| Scheduler.ProcessTable.Examine | kernel/process.c:296-329 | fails if and only if there is nobody to wait for; names the first zombie child or the zombie asked for; blocks if and only if neither holds |
| Scheduler.ProcessTable.Collect | kernel/process.c:319-322 | the zombie's value, and the table without it |
| Scheduler.ProcessTable.WaitPid | kernel/process.c:280-341 | -1 if there is nobody to wait for; the number and value of the first zombie child, or of the one asked for, whose slot is freed; blocks if and only if neither holds |
| Scheduler.ProcessTable.Resume | kernel/process.c:312-339 | a woken waitpid returns the child that woke it, with its value |
| Scheduler.ProcessTable.WaitClock | kernel/horloge.c:80-89 | the caller sleeps and is to wake up at the time asked for, at every clock |
| Scheduler.ProcessTable.ChPrio | kernel/process.c:363-384 | the old priority, and exactly this priority is set; or -1 and no priority changes |
| Scheduler.ProcessTable.WakeAll | kernel/horloge.c:40-46 | all due sleepers wake up, in the order of the restart loop |
| Scheduler.ProcessTable.WakeFirst | kernel/horloge.c:42-46 | one walk wakes the first due sleeper, or there is none |
| Scheduler.ProcessTable.Tic | kernel/horloge.c:13-54 | the clock advances by one, exactly the due sleepers wake up, and no sleeper is overdue |
| ProcessCalls.WaitPidCollects | kernel/process.c:296-329 | waitpid with a negative pid and a zombie child hands out the birth and value of the first zombie in the list of children and frees its slot and those of the zombies below it; with the number of a zombie child the same for that child |
| ProcessCalls.WaitPidBlocks | kernel/process.c:305-334 | with somebody to wait for and nothing to collect exactly the caller changes: it waits for that child or any child, and another process runs |
| ProcessCalls.WaitPidFails | kernel/process.c:296-325 | nothing changes if and only if the caller has no children, asks for itself, or for a number that is not one of its children |
| ProcessCalls.ResumeHands | kernel/process.c:309-341 | a waitpid that has blocked hands out the zombie child that woke the caller |
| ProcessCalls.WaitClockSleeps | kernel/horloge.c:80-89 | at every clock exactly the caller changes: it sleeps until the time asked for |
| ProcessCalls.SleepsUntil | kernel/horloge.c:13-89 | after n ticks, and at least one, the caller of wait_clock still sleeps if and only if its time is later than that |
| ProcessCalls.SleepsOn | kernel/horloge.c:13-54 | the same for every sleeper, which keeps its record |
| ProcessCalls.TickWakes | kernel/horloge.c:13-54 | a tick wakes exactly the sleepers whose time has come and changes no other process but between ready and running |
| ProcessCalls.ChPrioSets | kernel/process.c:363-384 | exactly this priority changes, nobody blocks or wakes, and the caller runs on if and only if no ready process has a higher priority then |
| ProcessCalls.ChPrioRaises | kernel/process.c:372-382 | a ready process raised above the running one runs at once |
| ProcessCalls.ChPrioRefuses | kernel/process.c:367-370 | nothing changes if and only if priority or process is invalid or the priority is the old one |
| ProcessCalls.KillEnds | kernel/process.c:270-278 | any process but idle that runs, is ready, sleeps or waits dies with value 0: it is off all lists, a zombie if its father exists and free otherwise; exactly the zombies below it are freed, its father is woken if it waits for it, and nobody else changes |
| ProcessCalls.KillRefuses | kernel/process.c:274 | nothing changes if and only if the process cannot be killed |
| ProcessCalls.ExitEnds | kernel/process.c:351-354 | the caller dies in the same way with its exit value, and another process runs |
| ProcessCalls.TerminatedDies | kernel/process.c:39-62 | terminaison_processus does this, up to the scheduling decision |
| ProcessCalls.StartTakes | kernel/process.c:179-260 | the first free slot holds a new child of the caller with this priority; nobody else changes |
| ProcessCalls.StartRuns | kernel/process.c:254-258 | the new process runs at once if it outranks the caller; the caller runs on if and only if it outranks it and all that are ready |
| ProcessCalls.StartRefuses | kernel/process.c:184-194 | nothing changes if and only if the table is full |
| ProcessCalls.ScheduleYields | kernel/process.c:126-160 | the running process keeps the processor if and only if it outranks every ready one, so it yields to equals |
| ServiceOrder.ChPrioQueues | kernel/process.c:377-380 | a ready process whose priority changes is served after its new equals, and the others keep their order |
| ServiceOrder.StartQueues | kernel/process.c:256 | so is a new process that does not run at once |
| ServiceOrder.SleepsInFront | kernel/process.c:133-135 | wait_clock puts the caller in front of the sleepers of its priority |
| ServiceOrder.FrontWakesFirst | kernel/horloge.c:38-45 | of two sleepers of one priority due on the same tick the one in front on the clock list is served first |
| ServiceOrder.LastAsleepFirst | kernel/horloge.c:38-54 | so of equals that are due on the same tick the last to fall asleep runs after the tick or is served before the other |
| MessageProtocol.RunFifo | kernel/file.c:15-143 | in every run without a reset, what was queued and then accepted is what was returned followed by what is queued, in order |
| MessageProtocol.RunInv | kernel/file.c:55-197 | in every run at most size messages are queued, and the waiting lists hold exactly the blocked processes, in the order of their priorities and, among equals, of their arrival |
| MessageProtocol.StepInv | kernel/file.c:55-197 | every step keeps this |
| MessageProtocol.ReceiveInv | kernel/file.c:74-106 | a turn of preceive keeps it across blocking and waking |
| MessageProtocol.SendInv | kernel/file.c:109-142 | a turn of psend keeps it across blocking and waking |
| MessageProtocol.ResetInv | kernel/file.c:145-197 | preset and pdelete leave nobody waiting; all that waited are ready and know of the reset |
| MessageProtocol.StepFifo | kernel/file.c:15-143 | one step moves messages through in order |
| MessageProtocol.Served | kernel/file.c:94-95 | the process woken waits for this; without it the list is right again |
| MessageProtocol.Joined | kernel/file.c:79-85 | a process that blocks joins the list once |
| MessageProtocol.EnterInOrder | kernel/file.c:80-83 | a process that blocks is served after all that wait with its priority or a higher one |
| MessageLaws.SendAccepts | kernel/file.c:122-141 | an accepted message becomes the last of the queue; if the queue was empty and somebody waits to receive, exactly one process gets ready and leaves the list, the longest waiting of the highest priority; otherwise no status changes |
| MessageLaws.SendFull | kernel/file.c:113-121 | with a full queue a first attempt blocks exactly the caller, and a resumed one fails and changes nothing |
| MessageLaws.SendReset | kernel/file.c:113-142 | after a reset psend fails and only clears the note of it, unless the queue is full again |
| MessageLaws.ReceiveTakes | kernel/file.c:88-104 | the oldest message is returned; if the queue was full and somebody waits to send, exactly one process gets ready and leaves the list, the longest waiting of the highest priority, and the caller yields; otherwise no status changes |
| MessageLaws.ReceiveEmpty | kernel/file.c:79-87 | with an empty queue exactly the caller blocks |
| MessageLaws.ReceiveReset | kernel/file.c:88-106 | after a reset preceive fails and only clears the note of it |
| MessageLaws.ResetFrees | kernel/file.c:145-197 | preset empties the queue; exactly those that waited are woken and learn of it |
| MessageLaws.HeadWakes | kernel/file.c:94-95 | serving a waiting list wakes the longest waiting process of the highest priority |
| MessageLaws.StaysBlocked | kernel/file.c:125-135 | a run after which a process still waits to receive although a message is queued and every process that was woken has run |
| MessageQueue.Queue.constructor | kernel/file.c:9-14 | an unused slot |
| MessageQueue.Queue.AddMessage | kernel/file.c:15-28 | the linked list with the message at its end |
| MessageQueue.Queue.ReadMessage | kernel/file.c:30-37 | the first message, which is given back to the allocator, and the linked list without it |
| MessageQueue.Queue.ResetFile | kernel/file.c:39-53 | every message of the list is given back to the allocator, none twice, and the list is empty |
| MessageQueue.Queue.ReceiveTurn | kernel/file.c:79-106 | list, counters, waiting lists and statuses are those of the protocol's step |
| MessageQueue.Queue.TakeMessage | kernel/file.c:88-103 | the first message is taken and, exactly if the queue was full, the longest waiting sender of the highest priority is woken (ReceiveTakes) |
| MessageQueue.Queue.SendTurn | kernel/file.c:113-142 | list, counters, waiting lists and statuses are those of the protocol's step, whose cases are SendAccepts, SendFull and SendReset |
| MessageQueue.Queue.PutMessage | kernel/file.c:122-141 | a message is added and, exactly if the queue was empty, the longest waiting receiver of the highest priority is woken (SendAccepts) |
| MessageQueue.Queue.PReceive | kernel/file.c:74-79 | a closed queue is refused and nothing changes, else the first turn |
| MessageQueue.Queue.PSend | kernel/file.c:109-113 | a closed queue is refused and nothing changes, else the first turn: accepted, with a waiting receiver woken exactly if the queue was empty, blocked, or failed after a reset |
| MessageQueue.Queue.FinishReceive | kernel/file.c:104-105 | the last assignment of a receiver that yielded |
| MessageQueue.Queue.WakeReceivers | kernel/file.c:158-166 | the loop ends, because every listed process has the status it is tested for; all receivers are woken and flagged |
| MessageQueue.Queue.WakeSenders | kernel/file.c:167-176 | the same for senders |
| MessageQueue.Queue.PReset | kernel/file.c:145-185 | -1 and nothing changed if the queue is closed, else 0 and the queue after a reset |
| MessageQueue.Queue.PDelete | kernel/file.c:187-197 | -1 and nothing changed if the queue is closed, else 0 and the queue after its deletion |
| MessageQueue.Queue.PCreate | kernel/file.c:55-72 | -1 for a bad size, else an open and empty queue |
| MessageQueue.Queue.PCount | kernel/file.c:201-222 | messages plus waiting senders minus waiting receivers |
| MessageQueue.FindSlot | kernel/file.c:56-59 | the first free slot or -1 if there is none, without reading behind the table |
| PagePool.Pool.constructor | kernel/phy_mem_allocator.c:7-18 | all pages are free |
| PagePool.Pool.AddFree | kernel/phy_mem_allocator.c:43-47 | the page is free again |
| PagePool.Pool.Release | kernel/phy_mem_allocator.c:20-52 | the first owner with the pid gives all its pages back; without one nothing changes |
| PagePool.Pool.Allocate | kernel/phy_mem_allocator.c:54-88 | n free pages get an owner, at its place in the list, and n consecutive virtual pages; if the pool runs out, all pages come back if and only if no older owner of the pid is in front of that place, else the first such owner loses its pages and the new one keeps every page that was free |
| PagePool.SafeIfFirst | kernel/phy_mem_allocator.c:54-77 | whatever the uninitialised priority is, all pages come back: exactly if no owner has the pid |
| PagePool.ExhaustByOwner | kernel/phy_mem_allocator.c:7-88 | a run from the full pool of 1000 pages in which an exhausted request keeps 999 pages and the owner's first page is freed |
| PagePool.Pool.GiveUp | kernel/phy_mem_allocator.c:70-74 | what the release of an exhausted request does, in both cases |
| PagePool.OlderElsewhere | kernel/phy_mem_allocator.c:7-88 | the free pages are never those of an owner |
| PagePool.OnePlace | kernel/phy_mem_allocator.c:7-88 | an owned page is not free, belongs to one owner only, and to it once |
| PagePool.OwnedSplit | kernel/phy_mem_allocator.c:20-88 | the pages of all owners are those of one and those of the others |
| PagePool.GivenBackConserves | kernel/phy_mem_allocator.c:20-52 | a release loses no page and invents none |
| PagePool.HoldsConserves | kernel/phy_mem_allocator.c:54-88 | an allocation loses no page and invents none |
| PagePool.NewOwnerFound | kernel/phy_mem_allocator.c:25-30 | the release after exhaustion finds the new owner if and only if no older one of the pid comes first |
| WordBits.SetBit | kernel/page.c:60-81 | bit n gets the value and no other bit changes; other n change nothing |
| WordBits.GetNBits | kernel/page.c:85-102 | the number formed by the bits, or 0 for bad bounds |
| WordBits.OneMoreBit | kernel/page.c:95-100 | what one turn of its loop adds |
| WordBits.WithBitAt | kernel/page.c:72-80 | which bits the mask changes |
| Paging.IndexFields | kernel/page.c:197-213 | bits 31 to 22 and 21 to 12 are the indices of an address |
| Paging.SamePage | kernel/page.c:197-213 | two addresses have the same indices if and only if they are in the same page |
| Paging.EntriesDistinct | kernel/page.c:197-214 | entries of page-aligned tables coincide only if table and index do |
| Paging.FlagSet | kernel/page.c:207-222 | setting a flag keeps the other flags and the frame |
| Paging.PhysAddrLookup | kernel/gdb_serial_support.c:89-121 | the walk of the two levels: address and rest of the page, or length 0 exactly on a fault |
| Paging.PageFilledWalk | kernel/page.c:166-178 | clearing a fresh page changes no translation |
| Paging.DirWrittenWalk | kernel/page.c:180-208 | a new empty table, or more flags in a directory entry, change no translation and no permission |
| Paging.DirWrittenWell | kernel/page.c:180-208 | and keep every table a table of one entry only |
| Paging.TabWrittenWalk | kernel/page.c:212-222 | a table entry changes exactly the addresses of its page |
| Paging.TabWrittenWell | kernel/page.c:212-222 | and keeps the tables well formed |
| AddressSpaces.AddressSpace.constructor | kernel/page.c:135-158 | a directory in which the kernel's addresses lead where they led and all others fault |
| AddressSpaces.AddressSpace.ClearPage | kernel/page.c:173-178 | all 1024 words are zero, and no other word changes |
| AddressSpaces.AddressSpace.CreatePageTable | kernel/page.c:166-183 | -1 and nothing changed without memory, else a table for the entry and no translation changed |
| AddressSpaces.AddressSpace.PutAddressReel | kernel/page.c:191-227 | after any sequence of calls every address behind the kernel's part leads to its latest frame, writable at both levels exactly if mapped so, and kernel addresses lead where they did; only the directory entry and the page of its table are written, and an existing table is kept |
| AddressSpaces.AddressSpace.UpdateDirectory | kernel/page.c:207-208 | more permissions in the directory entry change no page's permission |
| AddressSpaces.AddressSpace.WriteTable | kernel/page.c:212-222 | exactly the page is redirected, writable exactly if asked for |
| AddressSpaces.PutRefines | kernel/page.c:191-227 | the steps together change the mapping of exactly one page |
| AddressSpaces.NewDirectory | kernel/page.c:143-156 | the entries copied and cleared make a well-formed directory |
| ClientCopy.RunInPage | kernel/gdb_serial_support.c:107-119 | up to the end of its page, small or large, an address and those behind it are mapped alike |
| ClientCopy.GdbCopyin | kernel/gdb_serial_support.c:142-162 | 0 and the bytes at the translations of all addresses, or -1 and some address is not mapped |
| ClientCopy.CopiedMore | kernel/gdb_serial_support.c:145-159 | one chunk more amounts to translating each of its addresses |
| Division.Div64 | kernel/math.c:107-137 | exactly quotient and remainder, with no overflow in doubling the divisor |
| SubstringSearch.MemMem | shared/string.c:228-266 | the leftmost occurrence, or none if and only if there is none |
| SubstringSearch.SkipTwo | shared/string.c:245-262 | skipping two positions passes no occurrence |
| SubstringSearch.OccursByParts | shared/string.c:248-254 | first two characters and the rest make an occurrence |
| SubstringSearch.MemCmp | shared/string.c:83-95 | zero if and only if the bytes are equal |
| GdbEncoder.HexTokensMeanHex | kernel/gdb_serial.c:147-208 | the tokens of a hexified fragment mean its hexadecimal form |
| GdbEncoder.ExpandEmitted | kernel/gdb_serial.c:147-208 | a reader that expands runs recovers what the tokens mean |
| GdbEncoder.HexBodyExpands | kernel/gdb_serial.c:147-208 | expanding a hexified body gives the plain hexadecimal form |
| GdbEncoder.PlainBodyExpands | kernel/gdb_serial.c:147-208 | expanding a plain body gives the text back if it has no '*' |
| GdbEncoder.EncodeRoundTrip | kernel/gdb_serial.c:55-208 | encoding, expanding and reading the digits gives the bytes back |
| GdbEncoder.UnhexOfHexify | kernel/gdb_serial.c:55-66 | reading digits inverts writing them |
| GdbEncoder.RunEnd | kernel/gdb_serial.c:172-181 | the run is maximal up to its limit |
| GdbEncoder.PutUnit | kernel/gdb_serial.c:152-206 | one turn of the inner loop sends the next unit of the body |
| GdbEncoder.PutFragment | kernel/gdb_serial.c:147-208 | the inner loop sends the body of the fragment's bytes, whether a length or a zero byte ends them |
| GdbEncoder.RunAt | kernel/gdb_serial.c:154-170 | the test for a run, which for a text looks at the bytes behind it without a bound, never looks past its zero byte and finds the same runs |
| GdbEncoder.RunSent | kernel/gdb_serial.c:172-191 | a run sends its character, a star and the count, and goes on behind the run |
| GdbEncoder.ByteSent | kernel/gdb_serial.c:193-206 | any other byte sends its two digits or itself |
| GdbEncoder.SendBody | kernel/gdb_serial.c:138-139 | the bytes are sent in order and the checksum is their sum |
| GdbEncoder.PutFrags | kernel/gdb_serial.c:133-222 | every fragment is sent up to its length or, for length 0, up to its zero byte; the whole packet is sent again until a reply acknowledges it in its low seven bits |
| GdbEncoder.PutPacket | kernel/gdb_serial.c:135-216 | the packet: '$', the bodies, '#' and the checksum in two digits |
| GdbEncoder.Hex2Bin | kernel/gdb_serial.c:55-66 | it fails if and only if some character is no digit; the bytes of all pairs before the first bad one are stored, and the rest of the buffer is untouched |
| PacketFraming.RunIffLeaves | kernel/gdb_serial.c:151-191 | a run of k bytes is sent if and only if some maximal run of the fragment leaves a last piece of k bytes when it is cut into pieces of 98 characters |
| PacketFraming.CountIff | kernel/gdb_serial.c:151-191 | a run is counted with '#' if and only if the fragment is plain and has a maximal run of length 7 modulo 98; with '$' if and only if it has one of length 8 modulo 98, or, hexified, one of 4 modulo 49 bytes with equal digits |
| PacketFraming.FramingByte | kernel/gdb_serial.c:143-207 | '#' or '$' is in the body of a fragment if and only if it is a character of its plain text or such a count |
| PacketFraming.CountByteRange | kernel/gdb_serial.c:147-208 | every run is three bytes, the last of which is a count byte in 32..126 |
| PacketFraming.HexBodyPrintable | kernel/gdb_serial.c:147-208 | all bytes of a hexified body, so all that follow a '*', are in 32..126 |
| PacketFraming.ThreadReportBreaks | kernel/gdb_serial.c:536-556 | the report of thread id 0x1111111 holds '#' as a count, that of 0x11111111 '$' |
| PacketFraming.FourZeroBytesSendDollar | kernel/gdb_serial.c:151-191 | four zero bytes, hexified, send '$' as a count |
| PacketFraming.PacketReads | kernel/gdb_serial.c:135-216 | a reader that starts again at every '$' and stops at the first '#' gets exactly the bodies if and only if no fragment is such a case, and then the right checksum |
| PacketFraming.PacketRoundTrip | kernel/gdb_serial.c:135-216 | for such packets without '*' in plain texts, expanding what is read gives all texts and hexadecimal forms in order |

## Left out

- In shared/malloc.c: realloc, calloc, independent allocations, the mmap, WIN32, lock and statistics branches, and the defensive wrapper mem_alloc, of which only its zeroing and its refusals are used.
- HeapAllocator.Allocator.Memalign: does not cover padded requests that wrap around, for which the code asks malloc for too little (`PaddingRoom`, `PaddingWraps`), nor alignments above 2^31, because rounding them up does not end.
- HeapAllocator.Allocator.TakeAligned: the same padded requests.
- HeapAllocator.Allocator.Act: leaves such requests out.
- HeapAllocator.Allocator.Free: a double free or a foreign pointer is excluded, as the code has no check for it.
- HeapAllocator.Allocator.Malloc: a small request cut from the last remainder is no best fit, as this is the allocator's own exception.
- HashMap.Run: stops at the first operation that reports a failed allocation, as the next search might not end in a full table.
- hash_destroy, and the direct and string variants of hashing and comparison.
- Scheduler.ProcessTable.DestroyZombieChildren: follows the intended loop over the children; `WrittenIff` tells when the loop as it is written does the same.
- In kernel/process.c: pages, console and message blocking of a process, start of an unknown program, the stack, 32-bit wrap-around of the clock.
- Before idle runs there is no active process; the model starts when idle runs.
- The list of a father's children is kept in the order of the priorities at their births; chprio does not re-sort it in the code either.
- In kernel/file.c: the range checks of the queue number, one of which lets the number NBQUEUE through, and getpid.
- MessageProtocol.RunInv: excludes the killing of a process that is blocked on a queue, whose waiting node the code leaves in the list, and a turn on a deleted queue by a process that was woken before the deletion without being reset.
- The release of removed nodes of waiting lists.
- In kernel/phy_mem_allocator.c: failing allocations of list nodes other than the owner, and the readers of an owner's list.
- In kernel/page.c: free_page and get_address_reel, which do not do what their comments say, and put_cr3.
- gdb_copyout, which may write to the page tables it walks.
- SubstringSearch.MemCmp: does not model the overflow-free width of the difference, which is that of two bytes.
- Receiving packets, the commands of the GDB stub, screen, keyboard, shell, interrupts, segments, boot code and the rest of the kernel's hardware and user interface.
