# A verified model of the concurrent queue, the semaphore and the thread pool

The repository builds a thread pool on a lock-free multi-producer multi-consumer queue and a lightweight
semaphore. This project models the three headers that make up the queue and semaphore, and the pool on top
of them, in Dafny, and proves what holds in every run.

Two forms are used.

* **Step machines** for what several threads do to shared memory. A state holds the shared words and one
  program counter, with locals, per thread; one step is one atomic load, store, exchange or fetch-add; a run is
  any sequence of steps of any number of threads. `Run(s0, schedule)` is the state after a schedule, and the
  theorems quantify over every initial state and every schedule. Memory is sequentially consistent.
* **Classes with a ghost sequence** for what one thread does to its own structure. Every method is proved
  against the abstract sequence.

| module | models |
|---|---|
| `Sums`, `Bags`, `Arith`, `Wrappers` | sums over threads, multisets of rows, division with positive divisors, optional values |
| `FreeList` | the reference-counted lock-free free list |
| `BlockPool` | where blocks come from and go to: initial pool, free list, allocator, producers; runs `FreeList` |
| `Tickets` | how consumers claim elements: optimistic count, overcommit, head |
| `StableLookup` | consumers looking up blocks while an explicit producer reuses blocks and doubles its index |
| `ExplicitProducer` | the explicit producer's object: ring of blocks, circular index, flags |
| `ImplicitIndex` | the implicit producer's index, bulk insertion and its rollback, return of drained blocks |
| `ImplicitChain` | the same as the producer's own pointers have it: tail block, links between blocks, elements written; runs `ImplicitIndex` |
| `ExplicitDequeue` | whole dequeues from an explicit producer; runs `Tickets` and `StableLookup` as one machine |
| `ImplicitDequeue` | whole dequeues from an implicit producer; runs `Tickets` and `ImplicitChain` as one machine |
| `SizeBound` | the size limit of an implicit sub-queue, with heads that are out of date |
| `ProducerHash` | the chain of hash tables from threads to their producers |
| `TokenDequeue` | the walk over all producers, with and without a consumer token |
| `TokenWalk` | that walk with a token while others enqueue, dequeue and add producers |
| `WrapAround` | the index expressions on words of w bits |
| `Semaphore` | the lightweight semaphore over an OS semaphore |
| `BlockingQueue` | permits paired with elements; runs `Semaphore` |
| `ThreadPool` | schedulers, workers and `stop`; runs `BlockingQueue` |

How they fit: `Tickets` proves that claims are disjoint ranges of published indices; `StableLookup` and
`ImplicitIndex` start from a claimed range and prove that the lookup arrives at the right block;
`StableLookup` and `ImplicitChain` go on to prove that the elements read are the claimed ones. `ExplicitDequeue`
and `ImplicitDequeue` run claims and lookups as one machine: the words both speak of stay equal, every claim of
`Tickets` is one that the lookup accepts, a run is a run of each of the two, and over whole runs each element is
delivered once, to the claim that covers it. `BlockingQueue` therefore takes "hand the first n elements of a
sub-queue to a thread" as one step. The step machines count with unbounded integers; `WrapAround` evaluates the
same expressions on words and shows when they agree.

A bulk dequeue may be asked for no elements. On an implicit producer such a call is harmless only while the block of
the head index has unread elements; the theorems of `ImplicitIndex`, `ImplicitChain` and `ImplicitDequeue` are
about runs in which every such call is in that position whenever it steps (`CarefulRun`).
`ImplicitDequeue.PositiveCallsAreCareful` shows that all runs are of this kind if callers pass max > 0, and
`ImplicitIndex.AskingNothing` says exactly what happens otherwise.

Where the code and its comments disagree, the code is followed:

* `includes/lightweight_semaphore.hpp:376` says that a many-permit wait acquires at least one, and line 389
  asserts it of the untimed wait. Neither always holds: `Semaphore.WaitComesBackEmpty` and
  `Semaphore.WaitForNothing` are two runs of an untimed wait that comes back with none, after an error of the OS
  semaphore and for a request of none. `Semaphore.EmptyHandedWhen` gives the exact condition, for every call
  of every run.
* `includes/concurrent_queue.hpp:1594` says that marking slots of a block assumes a count above zero, and line 2945
  asserts that a lookup finds the entry of its index. `try_dequeue_bulk` with max 0 breaks both for implicit
  producers: `ImplicitIndex.LookupGoesWrong` is a run in which the assertion fails, and
  `ImplicitIndex.BlockIsFreedTwice` one in which two consumers give the same block back;
  `Tickets.NothingIsClaimedLate` shows how the claim comes about. `ImplicitIndex.AskingNothing` gives the exact
  conditions. Explicit producers take no harm (`StableLookup.LookupIsStable`).
* `includes/concurrent_queue.hpp:1998-2001` and `2941-2942` say that the division must keep the sign of the
  offset; with `BLOCK_SIZE` a `size_t` as wide as the index the division is unsigned.
  `WrapAround.UnsignedSlotIsRight` shows that the slot is right all the same, for all pairs of blocks, and
  `WrapAround.SignedSlotIsRight` and `WrapAround.NarrowSlotIsRight` cover an index type that is wider and one
  that is narrower than `size_t`.
* `includes/concurrent_queue.hpp:469` compares correctly only within half a word;
  `WrapAround.CircularLessAgrees` gives the exact condition, and `WrapAround.AcceptedComparisons` shows that the
  check before each new block keeps all indices in use within it.

## Model

| member | source | states |
|---|---|---|
| FreeList.Exclusive | includes/concurrent_queue.hpp:1438-1517 | in every run each node is in exactly one of: with a client, linked once, being moved by one thread, marked should-be-on-list with references outstanding; its word counts exactly the list's reference and those of calls in flight |
| FreeList.AssertionHolds | includes/concurrent_queue.hpp:1467-1474 | the assertion in `try_get` never fails: a node just taken off the head does not carry the bit |
| FreeList.TakeInstallsSuccessor | includes/concurrent_queue.hpp:1459-1479 | a successful exchange of the head takes the front node, which nobody else has, and installs the node that really follows it (no ABA) |
| FreeList.ReturnedNodeWasFree | includes/concurrent_queue.hpp:1452-1480 | the node `try_get` returns belonged to nobody, and no other thread was moving it |
| FreeList.QuiescentNodes | includes/concurrent_queue.hpp:1438-1517 | nothing is lost: with no call in flight the list is acyclic and each node is either reached from the head or with a client |
| FreeList.HeldNodeIsStable | includes/concurrent_queue.hpp:1494-1517 | while a thread keeps a reference on a node its next pointer is not rewritten and it cannot leave the list and come back |
| FreeList.GetAlone | includes/concurrent_queue.hpp:1452-1480 | from every reachable state a `try_get` that runs alone takes the front of the list, whatever references others hold, or finds the list empty |
| FreeList.AddAlone | includes/concurrent_queue.hpp:1438-1517 | from every reachable state an `add` that runs alone links its node at the front if no reference to it is left, and otherwise leaves it marked for the thread that drops the last one |
| BlockPool.OnePlace | includes/concurrent_queue.hpp:3039-3092 | conservation: in every run each block is in exactly one of: not handed out yet, one thread's hands, one producer, the free list, on its way there, marked for it |
| BlockPool.HandedOutWasFree | includes/concurrent_queue.hpp:3072-3092 | a block that a requisition returns was fresh or given back, and in nobody's hands |
| BlockPool.EmptyHandedSawNothing | includes/concurrent_queue.hpp:3073-3092 | a requisition that comes back empty-handed saw, during its call, the initial pool used up and the free list empty; and it was not to allocate, or memory had run out |
| BlockPool.SourcesInOrder | includes/concurrent_queue.hpp:3041-3092 | a requisition's block is the next of the initial pool; or from the free list, the call having seen the pool used up; or a new one, the call being allowed to allocate and having seen pool and list empty |
| BlockPool.NeverAllocates | includes/concurrent_queue.hpp:3086-3091 | a requisition that may not allocate makes no block at any of its steps, whatever the other threads do |
| BlockPool.RequisitionAlone | includes/concurrent_queue.hpp:3073-3092 | from every reachable state a requisition that runs alone comes back with the next block of the pool, or else the front of the free list, or else a new block if it may allocate and memory is left, or else none |
| Tickets.NeverOverdrawn | includes/concurrent_queue.hpp:1940-2035 | head plus claims won but not yet applied never passes the tail; optimistic count = head + overcommit + unresolved tickets |
| Tickets.BackedByElements | includes/concurrent_queue.hpp:1942-1985 | the tickets found to be backed are never more than the elements published |
| Tickets.ClaimsDeliverInOrder | includes/concurrent_queue.hpp:2233-2254 | the claims, in the order the head moved, are contiguous and together deliver exactly the first `head` elements, once each and in order |
| Tickets.ClaimsDisjoint | includes/concurrent_queue.hpp:2765-2786 | two claims are disjoint ranges, and end at or below the head |
| Tickets.QuiescentCallIsExact | includes/concurrent_queue.hpp:2536-2604 | with nothing else in flight a call claims exactly min(max, size) from the head, and returns that many, so that false is then exact |
| Tickets.ContendersGetAll | includes/concurrent_queue.hpp:2233-2254 | however calls contend they get what there is: any calls, in any interleaving, begun when none was in flight and with nothing published meanwhile, claim between them every element, or each of them claims exactly the max it asked for |
| Tickets.NeverWaits | includes/concurrent_queue.hpp:1940-2035 | wait-free: each step of a thread brings its call closer to its end, and no step of another takes it further from it |
| Tickets.NothingIsClaimedLate | includes/concurrent_queue.hpp:2767-2786 | a run in which a call with max 0 passes both tests, and claims nothing at the tail after another call has taken all the elements |
| StableLookup.LookupIsStable | includes/concurrent_queue.hpp:1988-2005 | whatever enqueue, reuse and doubling steps interleave, the entry a consumer reaches is that of the block holding its index, the slots it reads still hold the elements enqueued there, and no step is undefined; a call that asked for nothing reads and marks nothing |
| StableLookup.DequeueReturnsItsElements | includes/concurrent_queue.hpp:2254-2316 | a finished dequeue returns exactly the published elements at its claimed indices, in order |
| StableLookup.LiveBlockIsKept | includes/concurrent_queue.hpp:1842-1852 | a block with a claimed index not yet emptied stays in the ring, is not empty, and occurs there once, so the producer cannot reuse it |
| StableLookup.InsertionAppends | includes/concurrent_queue.hpp:2040-2230 | an insertion begun between calls appends exactly its elements in order, and publishes them all at once at its end, whatever consumers do meanwhile |
| StableLookup.InsertionEnds | includes/concurrent_queue.hpp:2047-2145 | every insertion ends: each step of a producer that does not find a block ahead to reuse brings it closer to its end |
| StableLookup.LookupEnds | includes/concurrent_queue.hpp:2254-2316 | wait-free: in every run each step of a consumer brings its call closer to its end, and no other step takes it further from it |
| ExplicitDequeue.RunsTogether | includes/concurrent_queue.hpp:2233-2323 | a run of whole dequeues is a run of `Tickets` and a run of `StableLookup`, so that all that holds there holds here |
| ExplicitDequeue.ClaimsAreAccepted | includes/concurrent_queue.hpp:2252-2266 | in every run tail and head are the same to both protocols, and each fetch_add of the head by the ticket protocol is a claim that the lookup accepts: from the head on, below the tail, by a consumer with no other |
| ExplicitDequeue.DeliveredOnce | includes/concurrent_queue.hpp:1940-2037 | in every run, with blocks reused and the index doubled meanwhile, the element of each index below the head has been returned once or is claimed by one call in flight, no other has been returned, each call returned exactly the elements of its own claim, in order, and each thread's calls return them in the order of enqueueing |
| ExplicitDequeue.SettledDelivery | includes/concurrent_queue.hpp:2233-2323 | with no call in flight each element below the head has been returned exactly once |
| ExplicitProducer.Producer.Enqueue | includes/concurrent_queue.hpp:1834-1938 | appends its element, for any state of ring, index and flags; at a boundary the oldest block is reused, and the index kept, if and only if all its elements have been dequeued; otherwise one block is added, and the index doubled exactly if it is full; keeps the object's invariant |
| ExplicitProducer.Producer.Dequeue | includes/concurrent_queue.hpp:1940-2037 | removes and returns the front element, or nothing exactly when there is none |
| ExplicitProducer.Producer.EnqueueBulk | includes/concurrent_queue.hpp:2040-2230 | appends all its elements in order; the blocks added are exactly those needed beyond the ones ahead that are drained, and the index is replaced exactly if they do not fit it |
| ExplicitProducer.Producer.DequeueBulk | includes/concurrent_queue.hpp:2233-2323 | removes and returns the first min(max, size) elements, across blocks |
| ExplicitProducer.Producer.CopyIndex | includes/concurrent_queue.hpp:2355-2363 | the copy lists the ring's blocks, oldest first, with their bases |
| ExplicitProducer.Producer.NewBlockIndex | includes/concurrent_queue.hpp:2341-2378 | the doubled index lists the same ring in the same order and exposes the slots asked for |
| ExplicitProducer.Producer.FindEntry | includes/concurrent_queue.hpp:1993-2003 | the slot computed from the front's base holds the entry of the block with index i |
| ExplicitProducer.Producer.ReserveNext | includes/concurrent_queue.hpp:1842-1924 | reserves the block ahead if all its slots are flagged, leaving the index array alone, and otherwise a new one, doubling the index exactly if it is full; ring and index stay in step |
| ExplicitProducer.Producer.EmptyIsDrained | includes/concurrent_queue.hpp:1842-1845 | the block ahead has all its slots flagged if and only if every index in it is below the head |
| ExplicitProducer.Producer.ReserveBulk | includes/concurrent_queue.hpp:2047-2145 | reserves exactly the blocks that a bulk insertion needs, drained ones ahead first and new ones only beyond them, resets their flags, and publishes the newest |
| ExplicitProducer.Block.IsEmpty | includes/concurrent_queue.hpp:1549-1574 | true exactly when every slot is flagged |
| ExplicitProducer.Block.SetEmpty | includes/concurrent_queue.hpp:1576-1592 | flags exactly the mirrored position of its slot |
| ExplicitProducer.Block.SetManyEmpty | includes/concurrent_queue.hpp:1595-1613 | flags exactly the mirrored positions of a run of slots |
| ExplicitProducer.ListsRotated | includes/concurrent_queue.hpp:1842-1852 | reusing the oldest block: writing its new entry leaves the index listing the rotated ring, even when the index is full |
| ExplicitProducer.ListsAppended | includes/concurrent_queue.hpp:1880-1898 | adding a block: with a slot free, writing its entry leaves the index listing the longer ring |
| ExplicitProducer.ListsCopied | includes/concurrent_queue.hpp:2355-2363 | a copy from slot 0 on lists the ring although its slots are numbered anew |
| ExplicitProducer.HoldsTaken | includes/concurrent_queue.hpp:2005-2026 | destroying the element at the head index removes the front of the contents |
| ExplicitProducer.PassedWhenEmpty | includes/concurrent_queue.hpp:1842-1845 | a block ahead whose flags are all set lies wholly below the head: reusing it loses nothing |
| ExplicitProducer.FlaggedTaken | includes/concurrent_queue.hpp:2254-2312 | flagging the taken run of slots is what moving the head past them requires |
| ExplicitProducer.BulkCount | includes/concurrent_queue.hpp:2053-2054 | the index space a bulk insertion computes is that of ceil((s+n)/B) - ceil(s/B) blocks, none exactly when it fits the last block |
| ExplicitProducer.BulkStart | includes/concurrent_queue.hpp:2147-2156 | at a block boundary writing starts in the first new block, otherwise in the last one in use |
| ImplicitIndex.LookupFindsBlock | includes/concurrent_queue.hpp:2924-2947 | through the current header or an older one a lookup arrives at the one entry with the index's base and block, whatever is inserted, rewound, drained or grown meanwhile; the asserts at 2939 and 2945 hold: for every call that asked for something, and for one that asked for nothing while its block has unread elements |
| ImplicitIndex.AskingNothing | includes/concurrent_queue.hpp:2783-2850 | for a call that asked for nothing: the assert at 2945 holds if and only if its block is still in the index, and the counter it adds nothing to is found full, so that the block is freed again, if and only if the block has no unread element left |
| ImplicitIndex.LookupGoesWrong | includes/concurrent_queue.hpp:2924-2947 | a run from an empty sub-queue in which a call that asked for nothing arrives at an entry that was never written, so that the assert at 2945 fails |
| ImplicitIndex.BlockIsFreedTwice | includes/concurrent_queue.hpp:2842-2850 | a run in which a call that asked for nothing and the one that drained the block both find the counter full and are both about to give the block back |
| ImplicitIndex.PositiveClaims | includes/concurrent_queue.hpp:2783-2850 | if every claim is of at least one index, the run is one that the theorems here are about |
| ImplicitIndex.UnreadBefore | includes/concurrent_queue.hpp:2842-2850 | once the last element of a block has been read it stays so: a call that asked for nothing is safe at all its steps if its block has unread elements when it ends |
| ImplicitIndex.Found | includes/concurrent_queue.hpp:2931-2947 | every live block use that a header knows has its entry, with its base and its block, in the slot computed for it |
| ImplicitIndex.GrownSlot | includes/concurrent_queue.hpp:2965-2984 | growth copies the old ring, oldest first, to the front: old block uses keep their entries, the others get new ones |
| ImplicitIndex.GrowthFindsRoom | includes/concurrent_queue.hpp:2906-2916 | after growth the slot after the tail has never been used: the assert at 2912 holds |
| ImplicitIndex.EnqueueAllOrNothing | includes/concurrent_queue.hpp:2611-2664 | when an insertion is over, either exactly its elements and the blocks they need are in, or the sub-queue is as before; the index leads to exactly the live committed blocks, and no other block is kept |
| ImplicitIndex.SucceedsUnlessRefused | includes/concurrent_queue.hpp:2638-2664 | with an index present, an insertion ends with its elements in if nothing it asks for is refused, and with none of them in if something is: room within the limit, a larger index when the slot for its next block is taken, or a block; until the first refusal it is never rolled back |
| ImplicitIndex.GrowsWhenTaken | includes/concurrent_queue.hpp:2887-2916 | the index grows if and only if the producer looks for a slot, the one after the tail still leads to the block one capacity before, and neither room nor memory is refused |
| ImplicitIndex.InsertionEnds | includes/concurrent_queue.hpp:2622-2757 | every insertion ends: the producer's steps are always defined, each brings the call closer to its end whatever fails and whichever block, new or recycled, the pool hands out, and consumers never set it back |
| ImplicitIndex.UndoFinds | includes/concurrent_queue.hpp:2653-2659 | the rollback's lookup, relative to a tail that it rewinds itself, finds each entry that this call inserted |
| ImplicitIndex.FreedOnce | includes/concurrent_queue.hpp:2584-2593 | a consumer that gives a drained block back is the only one with any business in it, and the head has passed it; for all calls that ask for something, and those that ask for nothing while their block has unread elements |
| ImplicitIndex.LookupEnds | includes/concurrent_queue.hpp:2783-2850 | wait-free: in every run each step of a consumer brings its call closer to its end, and no other step takes it further from it |
| ImplicitIndex.QuiescentBlocks | includes/concurrent_queue.hpp:2842-2852 | with nothing in flight the blocks in use are exactly those with elements left |
| ImplicitChain.RunsAlike | includes/concurrent_queue.hpp:2653-2661 | what the rollback does by following `next` from the first allocated block is what module ImplicitIndex does by counting: every run here is a run there, so its results hold here |
| ImplicitChain.InsertAllOrNothing | includes/concurrent_queue.hpp:2611-2757 | when an insertion is over, either exactly its elements have been appended, with the last block as tail block, or elements, blocks and tail block are as before; no block is kept or lost; with an index present it is the former exactly if nothing it asked for was refused |
| ImplicitChain.GivesBackOwnBlock | includes/concurrent_queue.hpp:3058-3065 | the block that the rollback gives back is in use for this call and no longer in the index, and the pool's afterwards, although its next owner may overwrite its link at once |
| ImplicitChain.TailBlockIsOurs | includes/concurrent_queue.hpp:2617-2690 | the tail block, when partly filled, when linked from and when written to, is in use as the block those elements belong to: no write or link goes through a block given up; the assert at 2678 holds |
| ImplicitChain.WritingEndsRight | includes/concurrent_queue.hpp:2695-2757 | the loop that follows `next` from block to block stops exactly where the call's elements end: the assert at 2752 holds |
| ImplicitChain.ReadsItsElements | includes/concurrent_queue.hpp:2784-2842 | a consumer whose lookup is done finds in its block exactly the elements of its indices |
| ImplicitDequeue.RunsTogether | includes/concurrent_queue.hpp:2765-2862 | a run of whole dequeues is a run of `Tickets` and a run of `ImplicitChain`, careful if and only if that one is, so that all that holds there holds here |
| ImplicitDequeue.ClaimsAreAccepted | includes/concurrent_queue.hpp:2783-2791 | in every run, whatever max is, tail and head are the same to both protocols, and each fetch_add of the head by the ticket protocol is a claim that the index accepts: from the head on, below the tail, by a consumer with no other |
| ImplicitDequeue.DeliveredOnce | includes/concurrent_queue.hpp:2765-2862 | in every run, with blocks recycled, the index growing, insertions refused and rolled back: each index below the head has been read once or is still to be read by one consumer, no other has been read, each read found the element enqueued under its index, which the reader's own claim contains, and each thread reads in the order of enqueueing |
| ImplicitDequeue.SettledDelivery | includes/concurrent_queue.hpp:2765-2862 | with no call in flight each element below the head has been read exactly once |
| ImplicitDequeue.PositiveCallsAreCareful | includes/concurrent_queue.hpp:2765-2786 | if every call asks for at least one element, the condition of the theorems about implicit producers is met in every run |
| SizeBound.NeverExceedsLimit | includes/concurrent_queue.hpp:2642-2646 | in every run roundup(tail, B) - head stays within the limit set at the start, less than a block above the trait, although the heads checked may be out of date |
| SizeBound.LimitIsReached | includes/concurrent_queue.hpp:2474-2484 | the limit is tight: it can be filled exactly |
| SizeBound.RefusedWhenFull | includes/concurrent_queue.hpp:2642-2646 | in every run, with memory available, a block is refused if and only if it would end beyond the limit over the head that the producer has seen |
| SizeBound.AloneInsertion | includes/concurrent_queue.hpp:2622-2690 | from every reachable state an insertion that runs alone with memory available goes in if and only if it needs no new block or its last block ends within the limit over the head |
| ProducerHash.SameProducerAgain | includes/concurrent_queue.hpp:3393-3432 | a thread that has obtained a producer obtains the same one ever after, through whichever tables |
| ProducerHash.NeverShared | includes/concurrent_queue.hpp:3439-3524 | two threads never obtain the same producer |
| ProducerHash.FailsWhenRefused | includes/concurrent_queue.hpp:3439-3524 | in every run a call comes back without a producer if and only if one of its own allocations was refused |
| ProducerHash.AloneItGets | includes/concurrent_queue.hpp:3393-3524 | from every reachable state a call that has not been refused memory and runs alone comes back with a producer, within a bound given by the tables' sizes, if nobody else is growing the map, or if its count leaves room in the table at hand |
| ProducerHash.KeyIsCopied | includes/concurrent_queue.hpp:3397-3427 | a call that comes back with a producer leaves its key in the table that was current when it began to look, also if it found it in an older one |
| ProducerHash.ProbesEnd | includes/concurrent_queue.hpp:3395-3436 | every probe loop ends within a table's capacity, also in a table that is no longer the current one, and a search that finds its key finds a producer with it |
| ProducerHash.TablesStaySparse | includes/concurrent_queue.hpp:3478-3516 | every table has fewer than three quarters of its slots taken, each key once, with no gap in its probe run; also when failed allocations take the count back |
| ProducerHash.TableHasRoom | includes/concurrent_queue.hpp:3405-3408 | the claim made there, that a later table has room for all the earlier ones' keys |
| ProducerHash.NotThere | includes/concurrent_queue.hpp:3431-3434 | a search that meets an empty slot has not overlooked its key |
| ProducerHash.OneGrower | includes/concurrent_queue.hpp:3442-3476 | one thread at a time grows the map, and only when its count is at least half the current table's capacity; the new table is at least twice as large as the current one and large enough for the count |
| TokenDequeue.Queue.TryDequeueBulk | includes/concurrent_queue.hpp:1228-1268 | returns exactly min(max, total) elements, in the order of the walk from the token's place, each sub-queue's own in order, and leaves exactly the rest; the token ends at the last producer it took from, its counter says how many from there, and everyone rotates exactly when the first producer had enough and the quota is reached |
| TokenDequeue.Queue.RedeemBulk | includes/blocking_concurrent_queue.hpp:492-500 | the retry loop of the blocking form, with permits that elements back, run alone: one pass fills the buffer with the first elements on the token's walk; none for no permits |
| TokenDequeue.Queue.TryDequeue | includes/concurrent_queue.hpp:1162-1203 | fails exactly when all sub-queues are empty; otherwise takes the first element on the token's walk; token, counter and rotation as for the bulk form, the quota being met exactly |
| TokenDequeue.Queue.TryDequeueBulkFromAll | includes/concurrent_queue.hpp:1210-1220 | returns exactly min(max, total) elements, walking from the newest producer |
| TokenDequeue.Queue.TryDequeueFromAll | includes/concurrent_queue.hpp:1104-1136 | fails exactly when all are empty; otherwise takes from the largest of the newest three non-empty sub-queues |
| TokenDequeue.Queue.Rotate | includes/concurrent_queue.hpp:1371-1409 | a token moves on by as many producers as rotations it has missed, modulo their number, or finds its first place |
| TokenDequeue.Queue.WalkOn | includes/concurrent_queue.hpp:1243-1266 | the loop that moves the token's current producer while it walks still visits every producer once and ends |
| TokenDequeue.WalkFindsAll | includes/concurrent_queue.hpp:1228-1268 | a full walk finds min(max, total) elements, wherever it starts |
| TokenDequeue.WalkConserves | includes/concurrent_queue.hpp:1252-1266 | what a walk takes and what it leaves are, as multisets, what there was |
| TokenDequeue.RingIs | includes/concurrent_queue.hpp:1244-1265 | walking down to the oldest producer and on from the newest covers all of them |
| TokenDequeue.StoppedEarly | includes/concurrent_queue.hpp:1258-1260 | stopping once enough is taken gives what the full walk gives |
| TokenWalk.EveryWalkEnds | includes/concurrent_queue.hpp:1243-1266 | whatever others enqueue, dequeue or add meanwhile, and however often the current producer moves, the walk ends within (elements wanted) x (producers) visits plus the links back to its place |
| TokenWalk.VisitsEveryone | includes/concurrent_queue.hpp:1236-1267 | a call that ends short has visited, after its last success, every other producer of the list as it was when its tail was loaded, once each and in order, and got nothing; no call returns more than asked |
| WrapAround.CircularLessAgrees | includes/concurrent_queue.hpp:469-480 | for indices less than a word apart the comparison of words agrees with the integers' if and only if they are within half a word |
| WrapAround.RefusedWhen | includes/concurrent_queue.hpp:1859-1860 | the check before a new block refuses exactly when the block's end would be half a word or more from the head |
| WrapAround.AcceptedComparisons | includes/concurrent_queue.hpp:2479-2480 | after it has accepted, all comparisons between indices in use are those of integers |
| WrapAround.BlockBaseDiffCounts | includes/concurrent_queue.hpp:2053-2054 | on words too, the space reserved is ceil((s+n)/B) - ceil(s/B) blocks, also at s = 0 and after wrapping |
| WrapAround.UnsignedSlotIsRight | includes/concurrent_queue.hpp:1996-2003 | with unsigned division the slot is right for every pair of blocks, negative and wrapped offsets included |
| WrapAround.SignedSlotIsRight | includes/concurrent_queue.hpp:2931-2947 | with signed, truncating division it is right for blocks within half a word |
| WrapAround.NarrowSlotIsRight | includes/concurrent_queue.hpp:1996-2003 | with an index type narrower than `size_t`, whose difference is sign-extended and divided unsigned, it is right for blocks within half a word |
| WrapAround.MaskWraps | includes/concurrent_queue.hpp:2000-2001 | masking a wrapped index gives the wrapped block base |
| Semaphore.PermitsConserved | includes/lightweight_semaphore.hpp:262-402 | permits acquired + max(0, count) + OS count + posts owed = initial + signalled; unresolved waiters = max(0, -count) + OS count + posts owed |
| Semaphore.NoLostWakeup | includes/lightweight_semaphore.hpp:273-295 | with the count at or above zero, every unresolved waiter is matched by a post of its own, made or still owed |
| Semaphore.PostWakes | includes/lightweight_semaphore.hpp:312-335 | in every run a waiter takes a post that is there in one step, and has its permit |
| Semaphore.AloneSignals | includes/lightweight_semaphore.hpp:393-402 | a signal of n that runs alone adds n to the count and makes exactly min(n, max(0, -count)) posts |
| Semaphore.ResolvedOnce | includes/lightweight_semaphore.hpp:314-331 | in every run, for every thread: its decrements that found no permit = posts it took + decrements it undid + the one it may be waiting on, over all calls it made; posts made = taken + left; the count is what all this makes it |
| Semaphore.LeavesEitherWay | includes/lightweight_semaphore.hpp:288-295 | a call that decremented returns with one post, and so a permit, or with its decrement undone and nothing |
| Semaphore.AdjustExits | includes/lightweight_semaphore.hpp:319-326 | once owed posts are made, a thread anywhere in the re-adjust loop leaves it within three steps of its own, two from the top, if nobody interferes |
| Semaphore.FailedRoundsAreCharged | includes/lightweight_semaphore.hpp:319-326 | in every run, between any two moments, a thread's rounds of the re-adjust loop that fail while no post is owed are at most the steps of other threads that changed the count: a failed round means that another call took effect |
| Semaphore.EmptyHandedWhen | includes/lightweight_semaphore.hpp:363-391 | no call takes more than it asked for; it takes nothing if and only if it asked for nothing, or only tried and saw no permit, or its own OS wait gave up and it took no post after that |
| Semaphore.ShortLeavesNone | includes/lightweight_semaphore.hpp:298-391 | waits are greedy: in every run a call that returns with fewer permits than it asked for leaves none in the count |
| Semaphore.AloneTakesAll | includes/lightweight_semaphore.hpp:362-384 | from every reachable state a try that runs alone, or a wait with a permit there, takes exactly min(max, count) and leaves the rest |
| Semaphore.WaitComesBackEmpty | includes/lightweight_semaphore.hpp:386-391 | a run in which an untimed wait for one permit comes back with none, so that the assertion fails |
| Semaphore.WaitForNothing | includes/lightweight_semaphore.hpp:377-391 | a run in which an untimed wait for none comes back with none, so that the assertion fails |
| Semaphore.SettledCount | includes/lightweight_semaphore.hpp:393-402 | with no call in flight the count is what was signalled and not taken, and the OS semaphore is at zero |
| BlockingQueue.PermitsAreBacked | includes/blocking_concurrent_queue.hpp:123-130 | in every run the unclaimed elements are exactly the permits available, acquired and not redeemed, or still to be signalled |
| BlockingQueue.RetryFindsElements | includes/blocking_concurrent_queue.hpp:327-335 | a retry loop that is short of elements never faces an empty queue |
| BlockingQueue.BufferFilledOnce | includes/blocking_concurrent_queue.hpp:465-473 | positions 0..count-1 of the buffer are filled once each, in order, the others are untouched; never more elements than permits |
| BlockingQueue.FirstInFirstOut | includes/blocking_concurrent_queue.hpp:123-130 | in every run what has been put into a sub-queue is what has been taken from it followed by what is in it; each run of elements taken is the next one in the order of enqueueing; and what a call has got is its own runs one after another |
| BlockingQueue.LaterRunsFollow | includes/blocking_concurrent_queue.hpp:447-455 | of two runs taken from one sub-queue the later lies behind: a caller gets one producer's elements in the order in which they were enqueued |
| BlockingQueue.GrantedPermits | includes/blocking_concurrent_queue.hpp:359-367 | in every run a call redeems exactly the permits its semaphore call was granted, at most what it asked for; without any it is done, except that a blocking call for one element starts over |
| BlockingQueue.DoneWhenRedeemed | includes/blocking_concurrent_queue.hpp:447-455 | in every run a retry loop ends exactly when it has an element for each permit |
| BlockingQueue.ElementsConserved | includes/blocking_concurrent_queue.hpp:179-186 | elements enqueued = queued + in buffers + delivered, as multisets |
| BlockingQueue.SettledCountIsSize | includes/blocking_concurrent_queue.hpp:510-518 | with no call in flight the semaphore's count is exactly the number of elements |
| ThreadPool.TasksConserved | includes/thread_pool.hpp:180-192 | tasks scheduled, also by running tasks, = executed + queued + in workers' batches, as multisets, in every run; a worker finds a task wherever it looks for one |
| ThreadPool.StoppedPoolIsDrained | includes/thread_pool.hpp:198-212 | once all workers have left, which they do only after `stop`, every task taken from the queue has been executed, exactly once |
| ThreadPool.RestIsGot | includes/thread_pool.hpp:252-256 | the first `available` slots of a batch are tasks, and what is still to be executed is the tail of what was delivered |
| ThreadPool.FetchesUpToMax | includes/thread_pool.hpp:249-258 | in every run a worker that tests the flag leaves if the pool is stopped, and otherwise asks the queue, in a timed call, for the pool's maximum of tasks; its batch has that many slots |
| ThreadPool.StopEndsFetching | includes/thread_pool.hpp:209-212 | after a stop no worker begins to fetch |
| ThreadPool.BatchRunsOut | includes/thread_pool.hpp:254-256 | from every reachable state a worker whose tasks do not call the queue executes the rest of its batch, in order, one task a step |
| ThreadPool.OneWorkerInOrder | includes/thread_pool.hpp:180-192 | a pool of one worker fed through one sub-queue executes tasks in the order in which they were scheduled: what was put in is what is executed, in the batch, on its way and queued, in this order |

## Left out

- Memory orders and fences: interleavings are sequentially consistent.
- Exceptions and the explicit producer's rollback (concurrent_queue.hpp:1906-1911, 2079-2106), a refused index or block allocation there, and a finite size limit on explicit producers: its methods are modelled where allocation succeeds, constructors do not throw and the limit is the default, none.
- Counter-based emptiness of explicit blocks larger than the threshold of 32: explicit blocks are modelled with flags; the counter is modelled for implicit blocks.
- Element storage of a block is a sequence-valued field, and so are its flags; the index is an array updated in place. Raw memory is a cell without an element.
- ExplicitProducer.Producer.Enqueue: run by one thread; concurrent consumers are in Tickets and StableLookup, where the circular links between blocks are represented by the order in which blocks were put to use.
- ImplicitIndex.LookupFindsBlock: follows blocks and entries; the elements in them are in ImplicitChain. What memory a call that asked for nothing goes on to damage, once its lookup has gone wrong, is not followed: its next step is undefined here.
- ImplicitChain.ReadsItsElements: the element is still in its cell after it has been read; destroying it is not a step. A single insertion whose constructor may throw, which writes its element before the block is in the index, is not distinguished.
- BlockPool.OnePlace: producers are numbers; which ring or index entry a producer's block is in is the subject of ExplicitProducer and ImplicitIndex, whose machines are not joined to this one.
- BlockingQueue.ElementsConserved: the inner queue is one sequence per producer, taking a run from the front of one is one step, and an inner call may come back short at any time.
- TokenDequeue.Queue.TryDequeueBulk: one thread at a time, sub-queues as sequences; the walk among other threads is in TokenWalk. That a failed dequeue under interference implies an empty queue is not claimed, nor does the code.
- SizeBound.NeverExceedsLimit: the limit is finite; a trait so large that rounding it up overflows counts as none in the code.
- WrapAround is about expressions; the machines themselves are not restated on words.
- The producer list's exchange loop, recycling of explicit producers, thread-exit notifications (disabled in this configuration), the exact hash function (an arbitrary number here) and thread ids.
- Destructors, moves, swaps, statistics, debug modes, aligned allocation.
- OS semaphores, clocks and spin counts: an OS semaphore is a count whose wait may give up, and spinning may stop at any time. The cast of a release count to `int` is not modelled.
- Futures, packaged tasks, binding, the callable wrapper and the asynchronous executor: a task is a value. A task that throws, and waiting for the threads in `await`, are not modelled.
- Non-blocking variants that refuse to allocate: every failure they add is among those the implicit producer's and the pool's machines already allow.
