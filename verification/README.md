# A verified model of rsmalloc

rsmalloc is a memory allocator for Linux. Small blocks circulate between per-CPU lists that are changed by restartable
sequences, tagged lock-free transfer lists, the hands of threads, and clients. Large blocks come from a buddy backend
with a lock per order, or from direct mappings. This project models the parts of it that carry the risk, in Dafny, and
proves what each of them promises over every input, every run or every interleaving.

| files | subject |
|---|---|
| `BigMeta`, `RbShape`, `RbBalance`, `RbFixup`, `RbDelete`, `RbSearch`, `RbPool`, `RbTree` | the red-black tree of big-allocation records, on heap nodes with parent pointers and a free list of nodes |
| `Circulation*` | small blocks as a concurrent machine: restartable sequences with preemption and migration, tagged transfer lists, hints, the trimmer's detach |
| `Program*` | what the threads do with the blocks they get, on top of that machine: malloc, refill, free and trim, with every result kept in registers |
| `WordBits`, `TaggedWord`, `BuddyWords` | 64-bit words: bit masks, the tagged list word, buddy addresses |
| `Topology`, `Steal` | the search for a block on another CPU |
| `Carving*` | spans, their lazy carving, and the handover at thread exit |
| `Trim` | what the trimmer does with a detached list, and what it asks the system to release |
| `DoublyLinked`, `Buddy*` | the buddy backend, sequentially (classes `FreeSpace` and `BuddyAllocator`) and as a machine of lock sections |
| `RadixNodes`, `RadixTree`, `RadixRace` | the ownership bitmap: its batched range update, and updates that race |
| `ArenaSpace`, `PageArenas`, `SizeClasses`, `SpanGrowth`, `SlabSlots` | page arenas, size classes, and slab spans with their blocks |
| `BigHeap` | big malloc, free and in-place growth on the buddy backend and on mappings |
| `UserBlocks`, `UserHeap` | the heap as users see it: malloc, free, aligned pointers, and realloc on every branch |
| `Options`, `Numbers`, `Layout` | a value or none, powers of two and the like, shared sizes |

How the concurrent machines are built: a state holds shared memory and one program counter per thread; a predicate
(`Enabled`, `Can`) and a function (`Fire`, `Do`) give the steps, and a run is any sequence of possible steps of any
threads. A step is one load, one store, one compare-and-swap, or one lock section, and steps are sequentially
consistent. `Reachable` and `Arises` mean reached from an initial state by some run. What an operation is for is stated
beside the invariants, as what it leaves when no other step comes in between (`CirculationSolo`, `ProgramSolo`,
`BuddySolo`) and as what it must have seen when it ends with nothing (`CirculationSeen`).

The circulation of small blocks has two layers. In the core (`Circulation*`) a state also says where each block is, and
a thread may start an operation only with blocks it holds. In the program (`Program*`) nothing is asked: a step depends
on memory and registers alone (`ProgramBlind.Blind`), and the registers are what the operations of the core returned.
`ProgramRun.Refines` proves that every state of the program is one of the core, so that the guards of the core are
consequences and not assumptions. The one guard left, that a refill takes blocks not carved before, holds for all
batches of `Carving` (`ProgramCarving.BatchFits`).

Three places where a promise does not hold of the code as it is, each with a witness and the exact condition:

* Eight bits of tag are too few for an unconditional pop. `CirculationKeeps.StepKeeps` needs that a pop's successful
  compare-and-swap comes within 255 updates of its load; `ProgramWrap.BoundIsTight` is a run of the program from a fresh
  start, otherwise in time, that shows that with 256 updates a list leads to a block a client has. Pushes and the
  trimmer's detach need no bound.
* Buddies below the largest order can both stay free when two threads free them at once
  (`BuddyMissed.MissedFromFresh`). A run stays canonical throughout if and only if no step pushes a block whose buddy is
  free at that instant (`BuddyCanonical.RunCanonical`); none does if no free overlaps another operation
  (`BuddySolo.AloneCanonical`).
* `big_realloc` checks the addition of the header but not the rounding after it, which wraps around for the largest
  sizes. `UserHeap.Heap.Realloc` states that the size promised is backed by memory, and that the heap stays right, if and
  only if the call is not such a growth of a buddy allocation; `UserHeap.WrapExample` exhibits the failing calls.

Nothing here is executed; every claim is about the model.

## Model

| member | source | states |
|---|---|---|
| RbTree.Run | src/internals/rbtree.rs:65-127 | any sequence of insert, get, replace and remove on a new tree answers exactly as a finite map would |
| RbTree.RBTree.Insert | src/internals/rbtree.rs:65-70 | the tree stays a valid red-black search tree and its contents are the old map with the key set; only fresh nodes are added |
| RbTree.RBTree.Get | src/internals/rbtree.rs:72-82 | the answer is the map's value for the key, or none |
| RbTree.RBTree.Replace | src/internals/rbtree.rs:84-96 | the old value is returned and overwritten if the key is present; otherwise nothing changes |
| RbTree.RBTree.Remove | src/internals/rbtree.rs:103-112 | the old value is returned, the key is gone, every other entry stays, and no node is lost: tree and free list still make up the nodes of all chunks |
| RbTree.RBTree.FindNode | src/internals/rbtree.rs:114-127 | null if and only if the map has no entry; otherwise the node of the entry, and in both cases the place where it belongs, after at most 2 log2(n + 1) steps |
| RbTree.LookupBound | src/internals/rbtree.rs:114-127 | a path of k steps in a valid tree of n entries has 2^k <= (n + 1)^2 |
| RbBalance.HeightBound | src/internals/rbtree.rs:114-127 | the height bound, from black heights and the absence of red-red edges |
| RbTree.RBTree.InsertNew | src/internals/rbtree.rs:129-154 | a key that is not present gets a new node, and the tree is valid again afterwards |
| RbTree.RBTree.LinkNew | src/internals/rbtree.rs:144-153 | linking the red leaf and repairing gives a sorted red-black tree with exactly one entry and one node more |
| RbTree.RBTree.InsertFixup | src/internals/rbtree.rs:156-200 | from a tree whose only fault is a red node under a red parent, the loop ends with a red-black tree of the same entries in the same order, writing only to its nodes |
| RbTree.RBTree.InsertStep | src/internals/rbtree.rs:157-197 | one round moves the fault up or removes it |
| RbFixup.RecoloredGood | src/internals/rbtree.rs:162-166 | red uncle: recoloring keeps black heights and order and moves the fault to the grandparent |
| RbFixup.InnerGood | src/internals/rbtree.rs:168-171 | inner grandchild: the rotation keeps order, black heights and the single fault |
| RbFixup.OuterGood | src/internals/rbtree.rs:172-176 | outer grandchild: the colors and the rotation remove the fault |
| RbTree.RBTree.RotateLeft | src/internals/rbtree.rs:202-218 | exactly the links of a left rotation are written, and the root pointer follows |
| RbTree.RBTree.RotateRight | src/internals/rbtree.rs:220-236 | exactly the links of a right rotation are written, and the root pointer follows |
| RbShape.RotateZip | src/internals/rbtree.rs:202-236 | after those writes memory holds the rotated tree in the same context, parent links included, and nothing else changed |
| RbTree.RBTree.Transplant | src/internals/rbtree.rs:238-250 | the parent, or the root pointer, points to the new child, and the child back |
| RbTree.RBTree.Minimum | src/internals/rbtree.rs:252-259 | the result is the leftmost node and has no left child |
| RbTree.RBTree.DeleteNode | src/internals/rbtree.rs:261-298 | the node is taken out, the tree is a valid red-black tree without its key, and the node is on the free list |
| RbTree.RBTree.Unlink | src/internals/rbtree.rs:262-291 | all three ways of unlinking leave every other entry in order, and lack at most one black node, at the focus |
| RbDelete.SpliceZip | src/internals/rbtree.rs:267-274 | a node with at most one child is replaced by that child, in memory |
| RbDelete.ReplaceZip | src/internals/rbtree.rs:284-290 | a detached successor takes the place, children and color of the node, in memory |
| RbDelete.SuccessorGood | src/internals/rbtree.rs:276-294 | moving the successor up lacks a black node exactly where the successor was black |
| RbDelete.SuccessorFlat | src/internals/rbtree.rs:276-290 | moving the successor up removes exactly the deleted entry from the in-order sequence |
| RbTree.RBTree.DeleteFixup | src/internals/rbtree.rs:300-370 | from a tree that lacks one black node at the focus, the loop ends with a red-black tree of the same entries, writing only to its nodes |
| RbTree.RBTree.DeleteStep | src/internals/rbtree.rs:301-366 | one round closes the gap, moves it up, or leaves a red focus |
| RbFixup.HasSibling | src/internals/rbtree.rs:305-318 | the sibling of a black focus that lacks a black node is never null, so it may be read unchecked |
| RbFixup.RedSiblingGood | src/internals/rbtree.rs:307-312 | red sibling: the rotation gives a black sibling and keeps order and the gap |
| RbFixup.BlackNephewsGood | src/internals/rbtree.rs:313-316 | black nephews: the gap moves to the parent |
| RbFixup.InnerNephewGood | src/internals/rbtree.rs:318-325 | red inner nephew: the rotation at the sibling makes the outer nephew red |
| RbFixup.OuterNephewGood | src/internals/rbtree.rs:326-333 | red outer nephew: the rotation closes the gap, and the whole tree is a red-black tree |
| RbFixup.BlackFocusGood | src/internals/rbtree.rs:367-369 | blackening the focus closes the gap if it was red or at the root |
| RbTree.RBTree.AllocChunk | src/internals/rbtree.rs:372-401 | a chunk of fresh chained nodes goes in front of the free list; the tree is untouched |
| RbTree.RBTree.AllocNode | src/internals/rbtree.rs:403-419 | the node returned is in neither the tree nor the free list, and is a red leaf with the given entry |
| RbTree.RBTree.FreeNode | src/internals/rbtree.rs:421-425 | a node out of the tree joins the free list |
| RbPool.PoolGrows | src/internals/rbtree.rs:389-400 | free and used nodes are disjoint and together all nodes of all chunks, also after a new chunk |
| RbPool.PoolTake | src/internals/rbtree.rs:408-410 | the same after taking the first free node |
| RbPool.PoolGive | src/internals/rbtree.rs:421-425 | the same after giving a node back |
| RbSearch.FoundOrMissing | src/internals/rbtree.rs:114-127 | the entry at the end of a search is the map's, and an empty end means the map has none |
| RbSearch.InsertMap | src/internals/rbtree.rs:144-152 | a new entry at the place of the search keeps the order and sets one key of the map |
| RbSearch.RemoveMap | src/internals/rbtree.rs:261-298 | taking out one entry keeps the order and removes one key of the map |
| CirculationKeeps.StepKeeps | src/rseq_core/slab_cache.rs:284-391 | every step of every thread keeps the invariant of the whole machine, if pops that succeed are in time |
| CirculationRun.ReachableInv | src/rseq_core/slab_cache.rs:566-783 | the invariant holds in every reachable state |
| CirculationRun.OnePlace | src/rseq_core/slab_cache.rs:284-391 | in every reachable state the links from the head of each list end in null without a cycle and meet exactly the blocks placed on it |
| CirculationRun.ListsApart | src/rseq_core/slab_cache.rs:566-783 | no block is on two lists |
| CirculationRun.StepTransfer | src/rseq_core/slab_cache.rs:566-783 | a block leaves a list only into the hands of the thread taking it, a thread only onto a list or to a client, and a client only when freed |
| CirculationRun.FrameInMemory | src/rseq_core/slab_cache.rs:566-783 | only the committing instruction of an operation on a list changes what memory says that list holds |
| ProgramSteps.StepAllowed | src/inner/alloc.rs:112-138 | no step of malloc, refill, free or trim moves a block its thread does not hold, although no step asks who holds a block |
| ProgramKeeps.ProgKeeps | src/inner/alloc.rs:184-258 | every step of every thread keeps the invariant: registers hold and link distinct blocks of the thread, clients have exactly the live ones, and the step is one of the core |
| ProgramRun.Refines | src/rseq_core/slab_cache.rs:284-391 | every state of a run of the program is reachable in the core, so all that holds there holds of the program |
| ProgramRun.NeverTwice | src/inner/alloc.rs:283-325 | over every run no block is with clients twice, and a block with a client is on no list in memory |
| ProgramRun.Exclusive | src/inner/alloc.rs:112-138 | a block in the registers of a thread is with no client, on no list, not raw, and in the registers of no other thread |
| ProgramRun.HandedOutOnce | src/inner/alloc.rs:112-138 | the block malloc is about to return, also as the first of a stolen or refilled batch, is with nobody and on no list |
| ProgramRun.AdvisedIsHeld | src/trim.rs:212-247 | when the trimmer advises the pages of a block, no client, list or other thread has it |
| ProgramHands.Accounted | src/inner/free.rs:42-80 | over every run each block is in exactly one place: never carved, with one client, on one list in memory, or in the registers of one thread; none is lost |
| ProgramBlind.Blind | src/inner/alloc.rs:112-138 | steps depend on memory and registers alone: states that agree on these allow the same steps, with results that agree again |
| ProgramSolo.SoloMalloc | src/rseq_core/slab_cache.rs:360-390 | malloc that is not interrupted, on a CPU whose list has blocks, gives the client the first one |
| ProgramSolo.SoloFree | src/rseq_core/slab_cache.rs:327-357 | free that is not interrupted puts the block in front of the CPU's list |
| ProgramSolo.FreeThenMalloc | src/rseq_core/slab_cache.rs:327-390 | a free and the next allocation on the same CPU, not interrupted, give the same block back and leave every list as it was |
| CirculationOps.PopLinearizes | src/rseq_core/slab_cache.rs:725-783 | a pop that succeeds in time removes exactly the first min(batch, length) blocks of the list of that instant, and its head, tail and count are theirs |
| CirculationOps.PushLinearizes | src/rseq_core/slab_cache.rs:567-602 | a push that succeeds puts its chain in front of the list of that instant, however often the tag wrapped |
| CirculationOps.DetachLinearizes | src/trim.rs:131-150 | a detach that succeeds takes the whole list of that instant and leaves it empty, with no bound on tag reuse |
| CirculationOps.TakeLinearizes | src/rseq_core/rseq_asm.rs:159-221 | the final store of a restartable pop takes the first block of the CPU's list, whatever was preempted or migrated before |
| CirculationOps.GiveLinearizes | src/rseq_core/rseq_asm.rs:28-77 | the final store of a restartable push puts the chain in front of the CPU's list |
| CirculationOps.LoadsAreBlocks | src/rseq_core/slab_cache.rs:753-764 | every pointer a pop follows is a block, even when the list changed under it |
| CirculationSeen.EmptyHanded | src/rseq_core/slab_cache.rs:739-751 | along every run a pop that ends without a block has seen its CPU's normal list empty since it started, and later the trimmed list |
| CirculationSeen.DetachEmpty | src/trim.rs:131-150 | a detach that ends without a list ends at a moment when the list is empty |
| CirculationSeen.TakeEmpty | src/rseq_core/rseq_asm.rs:159-221 | a restartable pop that ends without a block ends when the list is empty, or its thread has left the CPU |
| CirculationSolo.SoloPop | src/rseq_core/slab_cache.rs:725-783 | a pop that runs alone takes the first min(batch, length) blocks of the normal list or, if that is empty, of the trimmed one, and memory holds the rest; without a block only if both are empty |
| CirculationSolo.SoloPush | src/rseq_core/slab_cache.rs:567-602 | a push that runs alone ends with its chain in front of the list, and with the hint set if the list was empty |
| CirculationSolo.SoloDetach | src/trim.rs:131-150 | a detach that runs alone takes the whole list |
| CirculationSolo.SoloTake | src/rseq_core/rseq_asm.rs:159-221 | a restartable pop that is not interrupted takes the first block and counts it down, or finds the list empty |
| CirculationSolo.SoloGive | src/rseq_core/rseq_asm.rs:28-77 | a restartable push that is not interrupted puts its chain in front and counts it |
| CirculationSolo.SoloClear | src/rseq_core/slab_cache.rs:711-722 | clearing a hint alone, recheck included, leaves it saying whether the normal list has blocks |
| CirculationUsage.UsageIsLength | src/rseq_core/rseq_asm.rs:50-54 | in every reachable state a CPU's counter, which grows by the count passed, is the length of its list plus pending decrements minus pending increments, modulo 2^64 |
| CirculationHints.NeverLost | src/rseq_core/slab_cache.rs:711-722 | in every reachable state, if a normal list is not empty and its hint is clear, some thread is about to mark it or to look again |
| CirculationHints.QuietHinted | src/rseq_core/mod.rs:27-41 | with no operation in flight, a normal list that is not empty is hinted |
| ProgramWrap.BoundIsTight | tests/loom_transfer.rs:89-149 | a run of the program from a fresh start, in which threads use their own lists and steal, reaches a pop that is exactly 256 updates late, whose compare-and-swap succeeds and leaves a list that leads to a block a client has |
| TaggedWord.PackUnpack | src/rseq_core/slab_cache.rs:393-406 | packing and unpacking returns the pointer if and only if it has no bits above the 56th; the tag grows by one modulo 256 |
| TaggedWord.SameWord | src/rseq_core/slab_cache.rs:404-406 | words are equal if and only if their pointers and tags are |
| TaggedWord.EncodedSame | src/rseq_core/slab_cache.rs:404-406 | comparing the 64 bits of two list words is comparing block and tag, as the machine does, for blocks below 2^56 |
| TaggedWord.EncodedPack | src/rseq_core/slab_cache.rs:393-402 | on the 64 bits a pointer is packed exactly as in the machine, tag step modulo 256 included |
| Topology.PopulateCpuRanges | src/internals/numa_parser.rs:283-312 | every CPU gets a node below the number of ranges, and each range spans from the first to the last CPU of its node, or is the empty one |
| Topology.RangesCover | src/internals/numa_parser.rs:283-312 | every CPU lies in the range of its node |
| Topology.RoundCovers | src/rseq_core/slab_cache.rs:546-551 | the round robin visits every other node |
| Steal.Transfer.ClearHint | src/rseq_core/mod.rs:35-41 | one hint is cleared and all others stay |
| Steal.Transfer.TryMark | src/rseq_core/mod.rs:54-67 | the mark is set, the answer is whether it was clear, other marks stay |
| Steal.Transfer.PopBatch | src/rseq_core/slab_cache.rs:725-783 | without interference: the first min(batch, length) blocks of the normal list, or of the trimmed one if that is empty; none exactly if both are; the hint goes out exactly if the list popped is then empty |
| Steal.MaskedSelects | src/rseq_core/slab_cache.rs:238-250 | the 64-bit masks select exactly the hinted CPUs of a word between start and end |
| Steal.SentinelSelects | src/internals/numa_parser.rs:303-311 | the range from 1 to 0 of a node without CPUs selects nothing, whatever is hinted |
| Steal.Transfer.ScanWord | src/rseq_core/slab_cache.rs:231-274 | one pass over a word takes from its lowest CPU that is hinted, in the range, not the own one, has blocks, and is not being stolen from unless the pass forces; nothing exactly if there is none, and then no list changes |
| Steal.Transfer.TryVictim | src/rseq_core/slab_cache.rs:262-274 | takes from the victim exactly if it has blocks and nobody is stealing from it, or the pass forces; no mark is left behind |
| Steal.Transfer.FirstInRange | src/rseq_core/slab_cache.rs:216-281 | takes from the first CPU of the range that is hinted and has blocks, word by word, in each word those nobody is stealing from first; nothing exactly if there is none |
| Steal.Transfer.OtherNodes | src/rseq_core/slab_cache.rs:538-564 | takes from the first other node in turn with such a CPU; nothing exactly if there is none |
| Steal.Transfer.PopSlow | src/rseq_core/slab_cache.rs:503-535 | the own node first, then the others in turn; without NUMA all CPUs are one range |
| Steal.Transfer.TryPop | src/rseq_core/slab_cache.rs:481-535 | with no concurrent operation it takes the first min(batch, length) blocks from the own CPU if that is hinted and has blocks, else from where pop_slow finds them; nothing exactly if no CPU has both blocks and a hint, hence only if every normal list is empty, for every map from CPUs to nodes; no mark is left behind |
| Carving.RemainingBlocks | src/rseq_core/bulk_fill.rs:84-87 | the quotient is exactly the number of blocks not carved |
| Carving.Carver.WriteHeaders | src/rseq_core/bulk_fill.rs:107-125 | the reverse loop leaves a chain through the blocks in address order, ending in null, and touches no other header |
| Carving.Carver.InitBlocks | src/rseq_core/bulk_fill.rs:90-130 | the next min(remaining, max) blocks are carved and chained, with their true head, tail and count |
| Carving.Carver.AllocMetadata | src/rseq_core/bulk_fill.rs:132-179 | the first pending span of the node whenever there is one, else a new one; null exactly without memory, and then nothing changed |
| Carving.Carver.BulkFill | src/rseq_core/bulk_fill.rs:182-215 | carves the span in the thread's slot, else the first pending one of the node, else a new one, and hands out its next min(max, left) blocks; what is left stays in the slot; it fails exactly if there is none of the three, so the empty-batch error is unreachable |
| Carving.Carver.Drain | src/rseq_core/bulk_fill.rs:227-235 | the slot is emptied and its span goes in front of the queue of its node; it is dropped exactly if there is no such queue |
| Carving.QueuedOk | src/rseq_core/pending_queue.rs:83-95 | inserting keeps each queue a list without sharing and each span with one owner |
| Carving.UnqueuedOk | src/rseq_core/pending_queue.rs:98-113 | popping keeps the same, and the span taken has no owner any more |
| Carving.CarvedOnce | src/rseq_core/bulk_fill.rs:97-129 | every block of a batch lies inside its span behind the metadata, and overlaps no block carved before |
| CarvingRun.Replay | src/rseq_core/bulk_fill.rs:182-235 | over every sequence of refills and thread exits no two blocks handed out overlap, exactly the blocks carved were handed out, every refill is answered with one to max blocks unless memory ran out, and every span with a block left waits in one slot or queue, unless it was dropped because its node has no queue |
| ProgramCarving.BatchFits | src/inner/alloc.rs:184-218 | in every run of the program whose refills took the batches of carving in order, a thread that seeks memory can refill with the next batch: none of its blocks has been carved before |
| Trim.Trimmer.Sort | src/trim.rs:170-210 | the old blocks are left to trim, in reverse; the young ones have gone back in order, in well-formed chains of sixteen and a last shorter one |
| Trim.Trimmer.Repush | src/trim.rs:193-198 | a batch given back is a chain from its head to its tail, and the lists in hand are untouched by what others do to it afterwards |
| Trim.Trimmer.TrimOne | src/trim.rs:218-243 | advice is given for the block exactly if more is wanted and it holds a whole page, while it is still in hand; it counts as released exactly if the system then agreed, and goes to the trimmed list exactly if released |
| Trim.Trimmer.GiveTrimmed | src/trim.rs:212-247 | the blocks to trim go back one by one in order; exactly those that hold a whole page are asked for, up to the first moment the total reaches the request; every advice was for the whole pages of an old block of the list that had not been given back |
| Trim.Trimmer.TrimList | src/trim.rs:159-247 | every detached block is given back exactly once, in order, each chain well formed when it is given; a block goes to the trimmed list exactly if it was old, asked for and released; without a limit exactly the old blocks that hold a whole page are asked for, and exactly those the system agrees to are released; the total grows by their sizes |
| Trim.GivenAway | src/trim.rs:193-198 | giving a batch away leaves the other lists in hand as they were, whatever others do to the batch |
| Trim.AdviceInside | src/trim.rs:266-289 | a page is advised if and only if it lies wholly inside the payload |
| Trim.PageInside | src/trim.rs:275-280 | there is something to advise if and only if a whole page lies inside the payload |
| DoublyLinked.PushLinks | src/big_allocations/buddy.rs:198-207 | pushing in front keeps both directions of links |
| DoublyLinked.Unlinked | src/big_allocations/buddy.rs:215-228 | unlinking any cell keeps both directions of links of the rest, in order |
| BuddyWords.BuddyIsXor | src/big_allocations/buddy.rs:352-355 | the 64-bit offset of a block's buddy is its own offset with the bit of the order flipped |
| BuddyTiles.Nested | src/big_allocations/buddy.rs:352-355 | aligned blocks that meet are nested, and then the smaller one's buddy is inside too |
| BuddyTiles.CanonicalUnique | src/big_allocations/buddy.rs:494-539 | a cut with no two free buddies is determined by what is not free |
| BuddyTiles.AllFreeIsFresh | src/big_allocations/buddy.rs:319-328 | if everything is free, such a cut is the initial one |
| BuddyLists.PushOk | src/big_allocations/buddy.rs:198-212 | pushing keeps list, bitmap and mask bit of the order in agreement, with one block more |
| BuddyLists.RemoveOk | src/big_allocations/buddy.rs:215-232 | removing keeps them in agreement, with exactly that block less |
| BuddyRegion.TakenOk | src/big_allocations/buddy.rs:215-232 | taking a free block off its list keeps the region right: blocks tile it, and every order's structures describe its free blocks |
| BuddyRegion.GivenOk | src/big_allocations/buddy.rs:198-212 | putting a block on its list keeps the region right |
| BuddyRegion.ReleaseUndoesGrant | src/big_allocations/buddy.rs:494-539 | releasing a granted block restores the canonical region block by block |
| BuddyBackend.FreeSpace.constructor | src/big_allocations/buddy.rs:319-328 | a new region is canonical and consists of free blocks of the largest order, tagged never allocated |
| BuddyBackend.FreeSpace.PushFreeBlock | src/big_allocations/buddy.rs:198-212 | the pointer writes are those of the specification of a push |
| BuddyBackend.FreeSpace.RemoveFreeBlock | src/big_allocations/buddy.rs:215-232 | the pointer writes are those of the specification of a removal |
| BuddyBackend.FreeSpace.AllocFromRegion | src/big_allocations/buddy.rs:358-412 | none if and only if no free block of the order or larger exists; otherwise cut from the first of the smallest that fit, with its trim state; what is left of it keeps its data, and nothing else changes; a block granted as never allocated has no part ever handed out |
| BuddyBackend.FreeSpace.Release | src/big_allocations/buddy.rs:494-539 | the inverse of a grant; the region stays canonical, and is the initial one when nothing is live; the free block that takes in the released one is stamped and tagged allocated, every other keeps its data; out-of-range calls change nothing |
| BuddyBackend.FreeSpace.Coalesce | src/big_allocations/buddy.rs:513-529 | merging goes on until the buddy is not free, and only free space changes |
| BuddyBackend.FreeSpace.TryGrowInplace | src/big_allocations/buddy.rs:541-578 | succeeds if and only if the buddy lies above and is free; the block then has both halves, and every other block stays, with its data |
| BuddyMarks.GrantTags | src/big_allocations/buddy.rs:389-407 | cutting a block out of a free one keeps the tags true: a free block tagged never allocated has no part that was ever live |
| BuddyMarks.ReleaseTags | src/big_allocations/buddy.rs:531-538 | so does a release |
| BuddyMarks.GrowTags | src/big_allocations/buddy.rs:569-575 | and so does growth in place |
| BuddyRegions.BuddyAllocator.AddRegion | src/big_allocations/buddy.rs:260-341 | fails exactly if the system gives no memory; otherwise one more region of free blocks, and no block changes hands |
| BuddyRegions.BuddyAllocator.AllocFromNode | src/big_allocations/buddy.rs:430-450 | takes from the newest region of the node with a large enough block, and fails exactly if there is none; otherwise one more block is live, with the trim state of the free block it was cut from |
| BuddyRegions.BuddyAllocator.Alloc | src/big_allocations/buddy.rs:452-492 | from the newest region of the node that has a large enough block; if there is none, from a new region, never allocated; without memory from the first node in turn; fails exactly if the size is too large, or nothing fits on any node asked and the system gives no region |
| BuddyRegions.BuddyAllocator.Free | src/big_allocations/buddy.rs:494-539 | exactly the block of that region, address and order is no longer live, and it is free and tagged allocated; out-of-range calls change nothing |
| BuddyRegions.BuddyAllocator.TryGrowInplace | src/big_allocations/buddy.rs:541-578 | succeeds exactly if the buddy lies above and is free; then exactly that live block has the next order, and exactly that buddy is no longer free |
| BuddyRegions.OrderFits | src/big_allocations/buddy.rs:132-135 | a block of the order for a size has room for the size |
| BuddyRegions.LivesApart | src/big_allocations/buddy.rs:358-412 | live blocks do not overlap, within a region or across regions |
| BuddySteps.StepKeeps | src/big_allocations/buddy.rs:358-412 | every lock section of every thread keeps the invariant, including clients writing to their blocks and trimming |
| BuddyRun.ReachableInv | src/big_allocations/buddy.rs:494-578 | the invariant holds in every reachable state |
| BuddyRun.BlocksTile | src/big_allocations/buddy.rs:358-578 | in every reachable state free, live and in-transit blocks tile the region exactly, aligned to their order, and each block in transit is its thread's |
| BuddyRun.OrdersAgree | src/big_allocations/buddy.rs:160-232 | between lock sections the doubly linked list, the bitmap and the mask bit of an order describe the same set, the free blocks of that order |
| BuddyRun.WrittenIsStamped | src/big_allocations/buddy.rs:198-232 | along every run each offset whose record an allocator step changes, be it a pushed block, a neighbour or a trimmed one, is in the history of writes |
| BuddyRun.UsedIsTouched | src/big_allocations/buddy.rs:358-412 | along every run each offset a client ever had is in the history of use |
| BuddyRun.NeverAllocatedSound | src/big_allocations/buddy.rs:690-739 | over whole runs a free block tagged never allocated has met no block ever handed out, and neither making the region nor any allocator step wrote in it except at its start |
| BuddyRun.GrantedClean | src/big_allocations/big_allocation.rs:59-63 | the same for a block about to be handed out with that tag |
| BuddyRun.TrimEffect | src/big_allocations/buddy.rs:690-723 | trimming an order re-tags exactly the chosen free blocks of that order that were in use, as trimmed where the system took the advice; no block moves |
| BuddyRun.PlaceCanonical | src/big_allocations/buddy.rs:531-538 | the push at the end of a free keeps a canonical region canonical if and only if the buddy is not free at that instant |
| BuddyCanonical.StepCanonical | src/big_allocations/buddy.rs:358-578 | every step of the machine keeps a canonical region canonical, if and only if it is not such a push |
| BuddyCanonical.RunCanonical | src/big_allocations/buddy.rs:494-539 | a run from a canonical state is canonical throughout if and only if no step of it is such a push |
| BuddyCanonical.FreshRunCanonical | src/big_allocations/buddy.rs:319-328 | the same for every run from a fresh region |
| BuddySolo.AloneCanonical | src/big_allocations/buddy.rs:494-539 | a run from a fresh region in which no free overlaps another operation is canonical throughout |
| BuddySolo.SoloAlloc | src/big_allocations/buddy.rs:358-412 | an allocation that runs alone takes nothing exactly if nothing fits, else does to cut and records what the sequential one does |
| BuddySolo.SoloFree | src/big_allocations/buddy.rs:494-539 | a free that runs alone from a canonical region undoes the grant and tags the block, as the sequential one does |
| BuddySolo.SoloGrow | src/big_allocations/buddy.rs:541-578 | a growth that runs alone succeeds if and only if the buddy lies above and is free, and otherwise changes nothing |
| BuddyRun.BuddiesMissed | src/big_allocations/buddy.rs:520-538 | two frees of buddies that each test before the other pushes leave both free |
| BuddyMissed.MissedFromFresh | src/big_allocations/buddy.rs:494-539 | a run from a fresh region, with two allocations and two frees, ends with two free buddies |
| WordBits.MaskHas | src/internals/radix_tree.rs:177-183 | the 64-bit mask selects exactly the bits from first to last, none if they are reversed |
| WordBits.MaskedWord | src/internals/radix_tree.rs:186-190 | or-ing a mask adds its bits, and-ing its complement removes them, and other bits stay |
| WordBits.LowestBit | src/rseq_core/slab_cache.rs:252-254 | the number of trailing zeros is the lowest bit that is on, and the step to the next switches off exactly that bit |
| WordBits.LowestLeast | src/rseq_core/slab_cache.rs:252-254 | no bit that is on has a lower number |
| RadixNodes.DescendHome | src/internals/radix_tree.rs:201-224 | following a page's entries leads to the node of its prefix |
| RadixNodes.InstalledOwned | src/internals/radix_tree.rs:84-123 | installing a missing node changes no answer |
| RadixNodes.WrittenOwned | src/internals/radix_tree.rs:186-190 | a read-modify-write of a 64-bit word changes exactly the pages of that word in the mask |
| RadixTree.WordSpan | src/internals/radix_tree.rs:156-183 | the pages selected in each word are exactly the next ones of the range, across words and leaves |
| RadixTree.MaskSpan | src/internals/radix_tree.rs:177-190 | the mask of the program for a word selects exactly the next pages of the range |
| RadixTree.Radix.GetOrAlloc | src/internals/radix_tree.rs:84-123 | the node below exists afterwards, is the right one, and no answer changed |
| RadixTree.Radix.SetChunks | src/internals/radix_tree.rs:148-198 | the batched update with 64-bit masks sets exactly the pages of the range |
| RadixTree.Radix.SetRange | src/internals/radix_tree.rs:267-284 | exactly the pages that meet the byte range change; none if it is empty or does not fit below 2^56 |
| RadixRace.StepKeeps | src/internals/radix_tree.rs:84-198 | every step of concurrent updates, including a lost race to install a node, keeps the tree well formed |
| RadixRace.ReachableInv | src/internals/radix_tree.rs:84-198 | the tree is well formed in every state reached from an empty tree |
| RadixRace.StepOwned | src/internals/radix_tree.rs:186-190 | a page changes only when a thread writes its word, and then to that thread's value |
| RadixRace.Advances | src/internals/radix_tree.rs:148-198 | an update covers its pages one after the other without a gap and ends behind the last |
| RadixRace.TakesEffect | src/internals/radix_tree.rs:148-198 | in every run from an empty tree: when an update returns, each of its pages that no other thread was updating meanwhile has its value, however threads interleaved |
| RadixRace.StaysPut | src/internals/radix_tree.rs:148-198 | in every run from an empty tree a page keeps its value as long as no thread is updating it, whatever all threads do to other pages |
| RadixRace.LastUpdateHolds | src/internals/radix_tree.rs:148-198 | in every run from an empty tree in which the updates of a page do not overlap in time, its owner bit, once none is under way, is the value of the last one, and clear if there was none |
| ArenaSpace.SpansDisjoint | src/backend/page_allocator.rs:136-163 | spans of all arenas are pairwise disjoint |
| ArenaSpace.GrowthIsFree | src/backend/page_allocator.rs:250-271 | what a last span grows over meets no span |
| PageArenas.NodeArenas.RemoveArena | src/backend/page_allocator.rs:286-319 | exactly one arena leaves the doubly linked list, the current one becomes the next if it was that one and stays otherwise, and no arena changes |
| PageArenas.NodeArenas.AllocateCurrent | src/backend/page_allocator.rs:166-185 | succeeds exactly if the current arena has room; the span is its next bytes, and the arena leaves the list exactly if less than the smallest refill is left |
| PageArenas.NodeArenas.AllocateSearch | src/backend/page_allocator.rs:188-213 | takes from the first other arena of the list with room, in the same way; nothing exactly if there is none |
| PageArenas.NodeArenas.NewArena | src/backend/page_allocator.rs:324-381 | fails exactly if the system gives no memory; otherwise a new empty arena is in front of the list and current, and the others stay |
| PageArenas.NodeArenas.Alloc | src/backend/page_allocator.rs:136-163 | from the current arena if it has room, else from the first other one that has, else from a new one; nothing exactly if no arena has room and the system gives no memory |
| PageArenas.NodeArenas.TryGrowInplace | src/backend/page_allocator.rs:215-284 | for a span of its true size: succeeds exactly if the pages it has suffice or it is the last of a listed arena with room; then exactly that span ends later, over pages no span had, and only that arena is filled further |
| SizeClasses.RefillFillsPages | src/utility.rs:56-71 | filling the pages of a refill asks for no further page, and no further block would fit |
| SizeClasses.OneBlockSpans | src/utility.rs:33-71 | a class with one block per refill has spans of exactly one block |
| SizeClasses.MinRefill | src/utility.rs:73-86 | the loop finds the smallest refill in pages: no class needs less and some class needs exactly that |
| SizeClasses.MatchIsFirst | src/utility.rs:168-187 | the fast match by tables and bit length gives the first class that is large enough, for every size, and none exactly above 2 MiB |
| SpanGrowth.RefillExtent | src/inner/realloc.rs:62-84 | the extent that realloc derives from the class is what the refill allocated |
| SpanGrowth.SlabSpans.NewSpan | src/rseq_core/bulk_fill.rs:145-176 | a new span has the extent of its class, and no other span changes |
| SpanGrowth.SlabSpans.Grow | src/inner/realloc.rs:62-96 | succeeds exactly if the new extent is larger and the span is the last of its arena, which has room; then class and span grow together, so the extent of every span stays that of its class, and every other span stays and is disjoint from it; on failure nothing changes |
| SlabSlots.SmallsApart | src/rseq_core/bulk_fill.rs:97-129 | blocks of all spans, headers included, do not overlap |
| SlabSlots.GrownSmalls | src/inner/realloc.rs:62-93 | a one-block span that grows takes its block along to the new class and moves no other block |
| BigHeap.EstimateFits | src/big_allocations/big_allocation.rs:23-31 | rounding gives at least the size up to a limit, and zero beyond it |
| BigHeap.EstimateTight | src/big_allocations/big_allocation.rs:23-31 | rounding is to the next whole 2 MiB, if less than 64 KiB are missing to that and huge pages are on, else to the next whole page |
| BigHeap.Heap.BigMalloc | src/big_allocations/big_allocation.rs:35-123 | fails exactly if the header overflows or neither the backend, which is asked only up to 64 MiB, nor the system gives memory; otherwise exactly one record is added, for the block the backend made live or for the mapping; the flag of the header tells the past of the block, and is zero for a block only if no part of it was ever handed out |
| BigHeap.Heap.BigFree | src/big_allocations/big_allocation.rs:129-152 | the record goes, and exactly its live block returns to the backend, or exactly its mapping is unmapped |
| BigHeap.Heap.SlabBranchDead | src/inner/realloc.rs:132-146 | growing a big allocation never asks for a slab size |
| BigHeap.Agreement | src/big_allocations/big_allocation.rs:114-143 | a record names a region and an order if and only if that region of the backend has a live block of that order in front of the allocation |
| BigHeap.RoomsApart | src/big_allocations/big_allocation.rs:35-126 | what two big allocations have, in blocks or mappings, does not overlap |
| BigHeap.Heap.GrowInBuddy | src/inner/realloc.rs:180-222 | reaches the size exactly if the order is not too large and every upper buddy on the way is free; record and live block grow together at every step, so a growth that stops half way is recorded too, and it takes no block that a later request of the size could have had |
| BigHeap.Heap.Resize | src/inner/realloc.rs:113-222 | stays in place exactly if the size suffices, the buddy blocks above are free, or the system remaps, and fails exactly if there is no record or a growth overflows with the header; all records fit afterwards if and only if the rounded size of a buddy allocation did not wrap; only the record and the block or mapping of the pointer change, and the size only if it stays |
| UserHeap.Heap.Alloc | src/inner/alloc.rs:283-325 | fails exactly if the caches give no block of the class, or big malloc fails; otherwise one new block of at least the size, aligned to 16 bytes, apart from all others, whatever word its header held; on failure nothing changes for users |
| UserHeap.Heap.Refill | src/rseq_core/bulk_fill.rs:145-176 | all blocks of a new span are slots that no user has, and no user notices |
| UserHeap.Heap.Free | src/inner/free.rs:42-85 | the pointer leads back to its raw block, and exactly that block goes, to the caches, the backend or the system; null is ignored |
| UserHeap.Heap.AllocAligned | src/inner/align.rs:10-72 | succeeds exactly for a power of two of at least eight that does not overflow and is given memory; the pointer is aligned, recovers its raw block, and at least the request is usable behind it |
| UserBlocks.PowersAccepted | src/inner/align.rs:15-18 | the test for alignments accepts exactly the powers of two |
| UserHeap.Heap.Copy | src/inner/realloc.rs:274-278 | exactly the bytes of the range are copied |
| UserHeap.Heap.SmallRealloc | src/inner/realloc.rs:28-110 | the block stays exactly if its class suffices or its span can grow to the new class, and the call fails exactly if it cannot stay and there is no memory for a new block; on every branch the new size is usable, contents and alignment are kept, and failure changes nothing |
| UserHeap.Heap.BigRealloc | src/inner/realloc.rs:113-237 | stays exactly if the block is large enough, grows in the buddy backend or is remapped; otherwise moves, and fails exactly if the size overflows or there is no memory; the new size is recorded, and it is backed by memory and the heap stays right if and only if the call does not wrap |
| UserHeap.Heap.Realloc | src/inner/realloc.rs:245-293 | the pointer stays exactly if the block can serve the size in place, always so if the size was usable before; fails exactly if it cannot and the request overflows or finds no memory; on every branch contents are kept up to the lesser of old usable and new size, the new size is usable, raw pointers stay aligned to 16 and others as they were, other pointers keep their blocks, size zero frees, failure changes nothing for users; the size is backed, and the heap stays right, if and only if the call does not wrap |
| UserHeap.WrapExample | src/inner/realloc.rs:154-164 | a new heap, one allocation and one reallocation, after which a size is promised that is not backed |
| UserBlocks.ObservedDivides | src/inner/realloc.rs:240-242 | every power of two that divides the address is at most the observed alignment |
| UserBlocks.AlignmentKept | src/inner/realloc.rs:269-273 | a pointer aligned to the observed alignment has every alignment the old one had |
| UserBlocks.PayloadsApart | src/inner/alloc.rs:328-352 | what two pointers can use never overlaps |
| UserHeap.AllApart | src/inner/alloc.rs:283-325 | raw blocks of all kinds, in slab spans, buddy blocks and mappings, never overlap while every record is backed |
| UserBlocks.RealignedOk | src/inner/align.rs:32-41 | writing tag and raw pointer in front of an aligned pointer keeps every other pointer recoverable |

## Left out

- System calls (mmap, munmap, mremap, madvise): their answers are parameters; a new mapping is assumed disjoint from all current ones, and an in-place mremap to keep its base.
- Hardware memory orderings, prefetches, huge-page and NUMA placement advice: steps are sequentially consistent.
- Termination of compare-and-swap retries and of restarted sequences: the machines state safety, not progress.
- Spin locks, the once cell, and lock poisoning: a lock section is one step, and the lock around the red-black tree is not modelled because its operations run one at a time.
- How often `pop`, `fill` and the retry loops are tried before they give up, and which CPU or batch size they choose: the program may try any of them any number of times.
- Size classes other than the one a list belongs to: the machines have one class. Classes whose spans hold one block pass a live block on when it grows in place (`src/inner/realloc.rs:90-93`); for each class such a block is one with a client, from the start or for good, and what other classes write to its link is the step `Elsewhere`.
- The batch-size predictor, cache limits, relief paths and lifetime averages: a batch may be any positive size, and a block may be found old or young at will.
- The choice of blocks in `trim_inner`, and the loop of `trim_small` over CPUs and classes: any subset may be chosen, and one list is modelled.
- Magic values, double-free detection and the foreign-pointer policy: clients free and reallocate only pointers they have.
- Writes of clients into small blocks: the `next` field of a block a client has changes only by `Elsewhere`, since the header lies in front of the payload.
- `calloc` zeroing, and the zero, trimmed and allocated flags of the headers of small blocks.
- The region list as pointers and its publication: regions are a sequence, in units of the smallest block; the lock sections of one region are a machine of their own.
- Readers of the ownership bitmap as steps of their own, and `set_single_big`: an answer is that of one state.
- The ownership bitmap updates of big malloc, free and realloc, and the `aligned` flag that steers them.
- The parser for the system's CPU lists, the C interface, fork handlers, bootstrap, environment, statistics and debug counters.
- RbTree.RBTree.AllocChunk: a failing mmap aborts the program and is not modelled.
- RbTree.RBTree.InsertStep: the mirrored branches of the source are one body with a side, as are those of DeleteStep.
- Steal.Transfer.PopBatch: lists are sequences here; links, tags and interference are the subject of the Circulation modules.
- BuddySteps.StepKeeps: writing the record of a free block and pushing it are one step, since no other thread can see the block in between.
- Carving.Carver.BulkFill: refills of different threads interleave at whole calls, not at single instructions; a thread's span and a locked queue are all they share.
- PageArenas.NodeArenas.TryGrowInplace: the checked additions on addresses cannot fail here because addresses are unbounded.
- UserHeap.Heap.AllocAligned: assumes that the random tag is not zero and equals no header word, as the source does.
- UserHeap.Heap.Alloc: the caches' answer is a parameter, a block of the class that no user has; that the caches give such a block to one thread only is `ProgramRun.HandedOutOnce`, and calls run one at a time here.
- UserHeap.Heap.Realloc: bytes and the words of tags and headers are separate memories, arenas are those of one node, and the ownership tests are left out.
- UserHeap.Heap.SmallRealloc: the tests on the metadata in front of a one-block span always hold here, since the block is known to be the first of its span.
- BigHeap.Heap.Resize: the copy into slab memory is left out because that branch is dead (`BigHeap.Heap.SlabBranchDead`).
