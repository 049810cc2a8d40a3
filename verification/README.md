# Verification of the PProx proxy's queue, poll loop and message rewriting

PProx hands sockets from one poll thread to worker threads through a lock-free multi-producer
multi-consumer queue (`PrivateRecSys-proxy/App/concurrentqueue.h`), and rewrites the HTTP and JSON text
that passes through (`PrivateRecSys-proxy/Enclave/Enclave.cpp`). This project models both and proves
properties of the models with Dafny. `dafny verify dfyconfig.toml` checks everything.

The queue, the part that PProx uses (implicit producers, `enqueue_bulk`, `try_dequeue`):

- `FreeList.dfy`, `DequeueCounters.dfy`, `ImplicitProtocol*.dfy`, `JointProtocol.dfy`, `TryDequeueProtocol.dfy`
  and `ProducerHash.dfy` are step machines. One load, store, CAS or fetch_add of the code is one step; any
  number of threads take steps in any order. Theorems are about every state of every run.
- `FreeListCalls.dfy`, `DequeueCalls.dfy`, `ImplicitProtocolCalls.dfy`, `TryDequeueCalls.dfy` and
  `ProducerCalls.dfy` are about whole calls in those runs: what a call returns or has done when it is over,
  whatever the other threads did meanwhile, and that it ends.
- `BlockIndex.dfy` is the growable circular block index with its history of headers, which both the step
  machine and the sequential producer use.
- `ImplicitQueue.dfy` and `ExplicitQueue.dfy` are the two kinds of producer as classes whose methods follow
  the code's loops, proved against a sequence. Their allocations draw on a fixed stream of malloc's answers
  (`Allocation.dfy`), so that their success is exact.
- `TryDequeue.dfy` is the choice among producers as one undisturbed thread makes it, over objects of the
  class of `ImplicitQueue.dfy`; `TryDequeueProtocol.dfy` is the same call among other threads.
- `Jobs.dfy` is what the queue carries, and `Bulks.dfy` what a sequence of accepted bulks contains.
- `Words.dfy` and `BlockNumbers.dfy` are the 64-bit arithmetic; `ThreadIdHash.dfy` the mixing of thread ids.

The proxy:

- `ProxySessions.dfy` is the poll and worker protocol over file descriptors as a step machine, and
  `ProxyConversations.dfy` whole sessions in its runs; `Batching.dfy` is the shuffle buffer as a class.
- `Strings.dfy`, `HttpText.dfy`, `HttpFraming.dfy`, `HttpRequests.dfy` and `HttpAnyRequest.dfy` are `update_headers`,
  `HttpTransfer.dfy` and `HttpReceiving.dfy` are `do_send` and `do_recv`, with `std::string` positions as machine
  words; `JsonFields.dfy` is the JSON field editor.

How the pieces fit: `JointProtocol` runs the counters of `DequeueCounters` and the blocks of
`ImplicitProtocol` together, with `headIndex.fetch_add` and the store of `tailIndex` as common steps.
`FreeListProtocol` shows that a node is in one place at a time, which is how `ImplicitProtocol` treats the
block pool. The poll loop of `Batching` enqueues into a producer of `ImplicitQueue`, in calls that no worker
overlaps; for workers that claim and release meanwhile its batches are the bulks of runs of `ImplicitProtocol`,
whose producer draws on a stream of malloc's answers too. `ImplicitProtocolProvided`,
`ImplicitProtocolAlone` and `ImplicitProtocolUnprovided` are about when such a bulk succeeds. The invariant of the block protocol, and so all of
`ImplicitProtocolRuns` and `ImplicitProtocolBlocks`, is about runs in which every claim is of at least one
element, which `JointProtocol` shows to be exactly what is needed.

## Properties that do not hold as stated in the code's comments or interface

The code was kept as it is; each has the exact condition and, where it is short, a concrete input.

- `update_headers` takes the first text of a header name anywhere in the message for that header. So it may set
  another header and leave the real Content-Length or Host as it was (`HttpRequests.LengthSetExactly`,
  `HttpRequests.HostSetExactly`, `HttpFraming.LengthNotAlwaysSet`, `HttpFraming.HostNotAlwaysSet`), overwrite the
  payload of a request without a Connection header (`HttpFraming.PayloadKept`,
  `HttpFraming.PayloadNotAlwaysKept`), or undo an edit by the next one (`HttpRequests.IdempotentExactly`,
  `HttpFraming.NotAlwaysIdempotent`). For a request without a Host header the position is npos + 6, which is
  5: the address overwrites the request line behind its fifth character (`HttpAnyRequest.RequestAny`,
  `HttpAnyRequest.TargetOverwritten`).
- `do_recv` drops a message whose first chunk has at most 16 characters or that is longer than its buffer, and
  writes behind the buffer for one that just fills it (`HttpTransfer.RecvExact`,
  `HttpTransfer.ShortChunkDropped`, `HttpTransfer.FullBufferOverruns`). Without a Content-Length header it
  returns at the first chunk that ends in an empty line, and what follows is not waited for
  (`HttpReceiving.RecvUndeclared`).
- `do_send` returns one less than it sent when `send` fails (`HttpTransfer.DoSend`,
  `HttpTransfer.SendErrorMiscounts`).
- `json_change_id_value` takes two characters for a colon and a quote without looking at them, so that it
  destroys the rest of the message when the text of the field has fewer than two characters, as a one-digit
  number has (`JsonFields.ReadBack`, `JsonFields.NotAlwaysReadBack`). In a payload that begins with a space a
  name without a colon after it counts as a field at the beginning of the payload, because npos + 1 is 0
  (`JsonFields.MissingExactly`, `JsonFields.SpacedExactly`).
- `poll_handler` ignores the result of `enqueue_bulk`, so a batch that is refused is lost
  (`Batching.NoneRefusedExactly`, `Batching.RefusedBatch`). A call that no worker overlaps is refused exactly
  when index space or memory is missing before it (`Batching.NothingLostExactly`,
  `ImplicitProtocolAlone.AloneExactly`). With workers in between enough of both is sufficient but not
  necessary, because they may release blocks meanwhile (`Batching.EveryJobServed`,
  `ImplicitProtocolUnprovided.UnprovidedAccepted`).
- `dequeue_bulk` with max 0 goes through its loop once and may look for a block that has been released
  (`JointProtocol.NotStuckExactly`, `JointProtocol.EmptyClaimFails`).
- `try_dequeue` may fail while elements are there that nobody has claimed, because tickets of other consumers
  cover them; its comment says no more (`TryDequeueProtocol.FailureMeans`, `TryDequeueProtocol.MissesElement`).
- The comment at `concurrentqueue.h:2707-2708` says the division preserves a negative sign. `BLOCK_SIZE` is
  unsigned, so it does not; the slot is right all the same, exactly as long as the slots of the index
  cover no more than the index space (`Words.SlotExact`).

## Model

| member | source | states |
|---|---|---|
| FreeListProtocol.NextInv | PrivateRecSys-proxy/App/concurrentqueue.h:1317-1393 | every atomic step of add, try_get and add_knowing_refcount_is_zero keeps the invariant that ties each 32-bit reference word to the node's place and holders, and changes the linked nodes only by linking the offered node or unlinking the first; what a call returns is in `FreeListCalls.GetEnds` |
| FreeListProtocol.RunInvariant | PrivateRecSys-proxy/App/concurrentqueue.h:1317-1393 | the invariant holds in every state of every interleaving, for any number of nodes and up to 2^31-2 threads |
| FreeListProtocol.FreeListSafe | PrivateRecSys-proxy/App/concurrentqueue.h:1330-1368 | in every state: no node linked twice or with two owners, none lost (linked, being published, or flagged with a holder who must publish it), a `next` read under a reference is the list's second node when the head CAS wins (no ABA), and the flag is clear with a count of at least 2 on every take, as line 1349 asserts |
| FreeListProtocol.QuiescentConservation | PrivateRecSys-proxy/App/concurrentqueue.h:1317-1393 | with no operation running, the nodes are exactly those with clients plus those linked, and each word is 1 or 0 accordingly |
| FreeListProtocol.TryGetAlone | PrivateRecSys-proxy/App/concurrentqueue.h:1330-1368 | alone on a quiet list try_get takes the first node in six steps, and returns nothing only from an empty list |
| FreeListCalls.GetEnds | PrivateRecSys-proxy/App/concurrentqueue.h:1330-1368 | in every run, whatever other threads do: a try_get that is over has unlinked the first node and handed out just that one, which no client had, or it has read an empty head in a step of its own; it hands out nothing else |
| FreeListCalls.AddAlone | PrivateRecSys-proxy/App/concurrentqueue.h:1317-1328 | alone on a quiet list add makes the node the first one, in four steps after its fetch_add, and changes nothing else |
| DequeueCounters.GrantedExact | PrivateRecSys-proxy/App/concurrentqueue.h:2339-2341 | the second guard, evaluated on 64-bit images, grants min(wanted, tail - (ticket - overcommit)), or nothing when that is not positive |
| DequeueCounters.LastWinnerBounds | PrivateRecSys-proxy/App/concurrentqueue.h:2332-2342 | counting tickets: if every winning ticket was below tail + losers before it, the number of winners is at most the tail |
| DequeueCounters.NextInv | PrivateRecSys-proxy/App/concurrentqueue.h:2332-2396 | every step of any number of consumers, single or bulk, and of the publishing producer keeps the ticket classification |
| DequeueCounters.ClaimsSafe | PrivateRecSys-proxy/App/concurrentqueue.h:2544-2566 | in every state of every run the claimed ranges tile [0, headIndex), headIndex plus all granted claims stays at or below tailIndex, and with all consumers idle dequeueOptimisticCount - dequeueOvercommit = headIndex |
| DequeueCounters.TiledOnce | PrivateRecSys-proxy/App/concurrentqueue.h:2342-2342 | tiling means that each index below the head is in exactly one claim, and that claims are in order |
| DequeueCounters.QuietGuards | PrivateRecSys-proxy/App/concurrentqueue.h:2544-2560 | with no consumer running the guards grant exactly min(max, tail - head), or give up exactly on an empty queue |
| DequeueCounters.StepClaims | PrivateRecSys-proxy/App/concurrentqueue.h:2332-2396 | each step claims the next elements below the tail and records the range, or leaves headIndex and the claims alone; only the producer moves tailIndex |
| DequeueCounters.FirstGuardExactly | PrivateRecSys-proxy/App/concurrentqueue.h:2334-2336 | a consumer gives up at the first guard if and only if all elements below the tail it read are claimed, or covered by tickets that are pending or were given back since it read dequeueOvercommit |
| DequeueCounters.SecondGuardExactly | PrivateRecSys-proxy/App/concurrentqueue.h:2339-2341 | and at the second guard if and only if the tail has not come past its first ticket |
| DequeueCounters.TicketDrawn | PrivateRecSys-proxy/App/concurrentqueue.h:2337-2337 | that ticket stands behind everything that is claimed, or covered by tickets pending or given back since dequeueOvercommit was read, when it is drawn |
| DequeueCounters.GivesUpExactly | PrivateRecSys-proxy/App/concurrentqueue.h:2337-2341 | so over a run, whatever happens in between: a consumer gives up at the second guard if and only if the tail that it then reads is not past all that was claimed or covered when it drew its ticket |
| DequeueCalls.CallEnds | PrivateRecSys-proxy/App/concurrentqueue.h:2332-2396 | a whole dequeue or dequeue_bulk, whatever others do meanwhile: it has given up at the first guard with all elements below the tail it read first claimed or covered; or it has drawn min(max, what was left) tickets, and has then claimed, in its last step, just as many elements as were behind them when it read the tail again, if any, and else given all tickets back and claimed nothing |
| DequeueCalls.WaitFree | PrivateRecSys-proxy/App/concurrentqueue.h:2332-2396 | every such call ends after at most six steps of its own |
| Words.CircularLessExact | PrivateRecSys-proxy/App/concurrentqueue.h:433-443 | circular_less_than on images holds exactly when the second index is ahead by less than 2^63 modulo 2^64 |
| Words.CircularLessIsLess | PrivateRecSys-proxy/App/concurrentqueue.h:433-443 | for counters within 2^63 of each other it is the order of the integers |
| Words.BlockBase | PrivateRecSys-proxy/App/concurrentqueue.h:2703-2703 | masking the image of an index gives the image of its block's base |
| Words.SlotIsDistance | PrivateRecSys-proxy/App/concurrentqueue.h:2698-2713 | the slot computed with unsigned division and masks is the true block distance from the tail modulo the capacity, also for negative offsets, for all power-of-two sizes with 2^k * 2^c <= 2^64 |
| Words.SlotExact | PrivateRecSys-proxy/App/concurrentqueue.h:2698-2713 | that holds for all tails and indices if and only if k + c <= 64 |
| BlockNumbers.BlocksToAllocate | PrivateRecSys-proxy/App/concurrentqueue.h:2413-2416 | blockBaseDiff, computed on words (with startTailIndex - 1 wrapping for an empty queue), is the block size times the number of blocks that the bulk still needs |
| BlockIndex.GrowOk | PrivateRecSys-proxy/App/concurrentqueue.h:2715-2753 | new_block_index: the rotated copy maps every block of the window to the entry it had, the capacity doubles, and the next slot holds a fresh entry (the assertion at line 2681) |
| BlockIndex.LookupFindsBlock | PrivateRecSys-proxy/App/concurrentqueue.h:2698-2713 | a consumer that saw any older header and any tail that header had at some time reads the key of that tail's block, computes the slot of its own block and finds that block's entry |
| ImplicitProtocolProducer.GoInv | PrivateRecSys-proxy/App/concurrentqueue.h:2398-2542 | every step of the producer, in allocation, growth, writing, publication and roll-back, finds what it dereferences and keeps the invariant |
| ImplicitProtocolProducer.RollFinds | PrivateRecSys-proxy/App/concurrentqueue.h:2438-2444 | during roll-back the lookup of ascending bases while the tail is being rewound finds the entry and block allocated for that base |
| ImplicitProtocolRuns.StepInv | PrivateRecSys-proxy/App/concurrentqueue.h:2544-2639 | every load, read, count, clear and release step of a consumer finds what it dereferences and keeps the invariant |
| ImplicitProtocolRuns.NextInv | PrivateRecSys-proxy/App/concurrentqueue.h:2332-2639 | so does every step of the whole machine |
| ImplicitProtocolRuns.ConsumerNotStuck | PrivateRecSys-proxy/App/concurrentqueue.h:2692-2713 | a consumer with a claim of at least one element can always go on: its header, tail, key, entry and block are there, however stale |
| ImplicitProtocolRuns.ProducerNotStuck | PrivateRecSys-proxy/App/concurrentqueue.h:2418-2470 | a producer that has begun can always go on, take a block that is free or that malloc grants, or give up because the queue would be full or malloc refuses |
| ImplicitProtocolRuns.AlwaysFifo | PrivateRecSys-proxy/App/concurrentqueue.h:2332-2396 | in every state of every run whose claims are of at least one element, each consumer has read exactly the elements of its claim before its position, and each is the one enqueued at its index |
| ImplicitProtocolRuns.HandedOutOnce | PrivateRecSys-proxy/App/concurrentqueue.h:2570-2630 | an element is handed out by one step only, of the consumer that claimed its index, and no other step changes what has been handed out |
| ImplicitProtocolRuns.WaitFree | PrivateRecSys-proxy/App/concurrentqueue.h:2568-2625 | a consumer with a claim of n elements, n >= 1, is done after at most 7n + 6 steps of its own, however the others run in between |
| ImplicitProtocolCalls.ClaimServed | PrivateRecSys-proxy/App/concurrentqueue.h:2568-2625 | when a consumer is done with its claim, each element of the claim has been handed out since, as it was enqueued, and is counted as consumed: it cannot end early |
| ImplicitProtocolCalls.BulkWaitFree | PrivateRecSys-proxy/App/concurrentqueue.h:2398-2542 | an enqueue_bulk of n elements that needs w new blocks is over after at most 11w + n + 4 steps of the producer, whatever the others do |
| ImplicitProtocolBulks.QueueIsBulks | PrivateRecSys-proxy/App/concurrentqueue.h:2398-2542 | in every run, claims of nothing included, the queue is the concatenation, in the order of the calls, of the bulks that succeeded, and every call is one bulk that is over or the one in progress |
| ImplicitProtocolBulks.ClaimsInOrder | PrivateRecSys-proxy/App/concurrentqueue.h:2342-2342 | of two claims in a run the earlier lies wholly before the later |
| ImplicitProtocolBulks.NeverInterleaved | PrivateRecSys-proxy/App/concurrentqueue.h:2568-2625 | so of two elements claimed one after the other the first is not of a later bulk |
| ImplicitProtocolBulks.ServedFromBulk | PrivateRecSys-proxy/App/concurrentqueue.h:2570-2630 | what a consumer is handed at a place is the job that stands at that place of the one bulk that holds it |
| ImplicitProtocolBulks.BulkWholeOrNot | PrivateRecSys-proxy/App/concurrentqueue.h:2398-2542 | over a whole enqueue_bulk, with consumers interleaved in any way: if no allocation failed, all elements are appended and as many blocks were taken as they need; if one failed, contents and the tail of the block index are as before, and each block that was taken was given back exactly once |
| ImplicitProtocolProvided.ProvidedPublishes | PrivateRecSys-proxy/App/concurrentqueue.h:2398-2542 | if at the start of an enqueue_bulk there is index space for it, its block index need not outgrow 2^64 / BLOCK_SIZE slots, and malloc will grant all calls that its blocks and the growth of the index can take with the blocks and slots free then, it appends all its elements, whatever consumers claim, clear and release meanwhile, as long as no other producer takes a block |
| ImplicitProtocolProvided.PromiseKept | PrivateRecSys-proxy/App/concurrentqueue.h:2827-2840 | in such a bulk what is still needed of malloc never exceeds what it will grant: no step of consumers and no block that comes back adds to it, each step of the producer pays for what it takes, and giving up is never enabled |
| ImplicitProtocolProvided.BackedSucceed | PrivateRecSys-proxy/App/concurrentqueue.h:2398-2542 | so in any run each bulk that was so provided for, with no block taken by others since, is one of those that succeed, whatever became of other bulks |
| ImplicitProtocolAlone.AloneExactly | PrivateRecSys-proxy/App/concurrentqueue.h:2398-2542 | if no other thread takes a step during an enqueue_bulk, it appends all its elements if and only if it was so provided for, whatever consumers have left in the index before |
| ImplicitProtocolAlone.AlwaysClose | PrivateRecSys-proxy/App/concurrentqueue.h:2429-2430 | in every state of every run, with blocks of at most 2^63 elements, headIndex and tailIndex are less than 2^63 apart, because of the test for a full queue |
| ImplicitProtocolUnprovided.UnprovidedAccepted | PrivateRecSys-proxy/App/concurrentqueue.h:2827-2840 | the converse fails: a run in which a bulk begins with no block free and no memory to be had, a consumer releases its block before requisition_block looks, and the bulk is appended |
| ImplicitProtocolBlocks.AlwaysHoused | PrivateRecSys-proxy/App/concurrentqueue.h:2377-2386 | in every state of every run each block is in the pool, with another producer, with the producer that allocates or rolls back, in the index with some element not consumed, or with the one consumer that is about to clear or release it; every published element that is not consumed has its block in the index, and the entries lead to the blocks |
| ImplicitProtocolBlocks.ClearedWhenConsumed | PrivateRecSys-proxy/App/concurrentqueue.h:2609-2622 | when a consumer clears the entry of a block, the entry holds that block and all its elements have been handed out and counted; afterwards the block is out of the index and with that consumer |
| ImplicitProtocolBlocks.OnlyTheseRelease | PrivateRecSys-proxy/App/concurrentqueue.h:2609-2622 | no other step takes a published block out of the index, none puts one back, and a block becomes free only by its consumer's release, the roll-back of an unpublished one, or another producer's return |
| ImplicitProtocolBlocks.ClearedOnce | PrivateRecSys-proxy/App/concurrentqueue.h:2609-2622 | in a run one step only clears block n, and n never comes back to the index (`GoneStays`) |
| ImplicitProtocolBlocks.BlocksConserved | PrivateRecSys-proxy/App/concurrentqueue.h:2377-2386 | in every quiet state the blocks in the index are exactly those with unconsumed elements (or the partly filled last one), each once, and all claimed elements were handed out |
| JointProtocol.RunInvariant | PrivateRecSys-proxy/App/concurrentqueue.h:2544-2639 | in every run of counters and blocks together, both agree on headIndex, tailIndex and the consumers, whatever the counters grant can be claimed, and the blocks go through a run of their own, with claims of at least one element if everybody asks for at least one |
| JointProtocol.NotStuckExactly | PrivateRecSys-proxy/App/concurrentqueue.h:2544-2625 | no consumer of any run comes to a missing entry or block if and only if dequeue_bulk is always called with max >= 1 |
| JointProtocol.EmptyClaimFails | PrivateRecSys-proxy/App/concurrentqueue.h:2568-2625 | a run in which dequeue_bulk with max 0 passes both guards, another consumer takes everything, and the first then looks for a block that is gone |
| Allocation.DemandIs | PrivateRecSys-proxy/App/concurrentqueue.h:2658-2685 | what an enqueue needs of malloc is one call for each block that is not in the pool and one for each doubling of the index |
| Allocation.NoDemand | PrivateRecSys-proxy/App/concurrentqueue.h:2658-2685 | which is nothing if and only if there are free blocks and free slots for all of them |
| ImplicitQueue.ImplicitProducer.RoomExactly | PrivateRecSys-proxy/App/concurrentqueue.h:2418-2470 | n elements need no call of malloc if and only if the pool has blocks and the index slots for all new blocks |
| ImplicitQueue.ImplicitProducer.InsertEntry | PrivateRecSys-proxy/App/concurrentqueue.h:2658-2685 | insert_block_index_entry: the next block gets an entry of its own, free or of a block that has left, in a grown index if need be; a failure changes nothing |
| ImplicitQueue.CopyIndex | PrivateRecSys-proxy/App/concurrentqueue.h:2715-2753 | the two copying loops of new_block_index build exactly the rotated index followed by the new entries |
| ImplicitQueue.ImplicitProducer.Enqueue | PrivateRecSys-proxy/App/concurrentqueue.h:2271-2330 | appends the element if and only if the queue is not full and malloc answers every call that it needs (a count known before the call); else contents, tailIndex, tailBlock and the blocks of the index are as before |
| ImplicitQueue.ImplicitProducer.EnqueueBulk | PrivateRecSys-proxy/App/concurrentqueue.h:2398-2542 | appends all elements, for any size and alignment and count 0, if and only if the queue is not full for them and malloc answers every call that they need; else contents, tailIndex, tailBlock and the blocks of the index are as before; in both cases every block is either in the index or in the pool, once |
| ImplicitQueue.ImplicitProducer.RollEntries | PrivateRecSys-proxy/App/concurrentqueue.h:2438-2444 | the roll-back loop takes exactly the new blocks out of the index again, although it looks up ascending bases while it rewinds the tail |
| ImplicitQueue.ImplicitProducer.Dequeue | PrivateRecSys-proxy/App/concurrentqueue.h:2332-2396 | returns the oldest element and removes it, or nothing exactly on an empty queue |
| ImplicitQueue.ImplicitProducer.DequeueBulk | PrivateRecSys-proxy/App/concurrentqueue.h:2544-2639 | returns the oldest min(max, size) elements in order and removes exactly those |
| ImplicitQueue.ImplicitProducer.Destroy | PrivateRecSys-proxy/App/concurrentqueue.h:2217-2269 | the destructor destroys exactly the remaining elements, in order, and every block of the queue is back in the pool once |
| ExplicitQueue.LookupHolds | PrivateRecSys-proxy/App/concurrentqueue.h:1818-1827 | the offset that a consumer computes from the front entry of the circular index leads to the entry and block of its index |
| ExplicitQueue.RotateIndexed | PrivateRecSys-proxy/App/concurrentqueue.h:1746-1751 | overwriting the oldest entry for the block used again keeps the live entries consecutive in slot and in base |
| ExplicitQueue.TakenFlags | PrivateRecSys-proxy/App/concurrentqueue.h:1464-1475 | set_many_empty in reverse order: none of the flags was set, as the code asserts, and afterwards the flags are those of the elements below the new head |
| ExplicitQueue.OldestDone | PrivateRecSys-proxy/App/concurrentqueue.h:1675-1684 | a block ahead whose flags are all set has no element left to dequeue, so that it may be used again |
| ExplicitQueue.ExplicitProducer.NewBlockIndex | PrivateRecSys-proxy/App/concurrentqueue.h:2148-2184 | growing keeps all live entries in order and consecutive, in twice the slots |
| ExplicitQueue.ExplicitProducer.RoomExactly | PrivateRecSys-proxy/App/concurrentqueue.h:1871-1946 | n elements need no call of malloc if and only if the empty blocks ahead, the pool and the free slots of the index suffice |
| ExplicitQueue.ExplicitProducer.Enqueue | PrivateRecSys-proxy/App/concurrentqueue.h:1668-1764 | appends the element, using the empty block ahead or a new one, if and only if the queue is not full and malloc answers every call that it needs (a count known before the call); else contents are as before |
| ExplicitQueue.ExplicitProducer.EnqueueBulk | PrivateRecSys-proxy/App/concurrentqueue.h:1861-2045 | appends all elements, through blocks used again, new blocks and index growth in the middle, if and only if the queue is not full for them and malloc answers every call that they need beyond the blocks found ahead (a count known before the call), and the live index entries stay contiguous; else tailIndex and the published elements are as before |
| ExplicitQueue.ExplicitProducer.Dequeue | PrivateRecSys-proxy/App/concurrentqueue.h:1766-1859 | returns the oldest element and removes it, or nothing exactly on an empty queue |
| ExplicitQueue.ExplicitProducer.DequeueBulk | PrivateRecSys-proxy/App/concurrentqueue.h:2047-2133 | returns the oldest min(max, size) elements in order and removes exactly those |
| TryDequeue.SizeOf | PrivateRecSys-proxy/App/concurrentqueue.h:1563-1567 | a producer's size_approx, computed on words, is the number of its elements when nothing is in progress |
| TryDequeue.SizeApprox | PrivateRecSys-proxy/App/concurrentqueue.h:1199-1205 | the queue's size_approx is the total number of elements modulo 2^64 |
| TryDequeue.Scan | PrivateRecSys-proxy/App/concurrentqueue.h:1018-1029 | the scan stops at the third non-empty producer, finds nothing if and only if all are empty, and otherwise picks the first of the fullest it saw |
| TryDequeue.Dequeue | PrivateRecSys-proxy/App/concurrentqueue.h:1015-1045 | undisturbed, try_dequeue fails if and only if every producer is empty, and otherwise takes the oldest element of the producer picked, changes nothing else and lowers the total by one |
| TryDequeue.TotalDrops | PrivateRecSys-proxy/App/concurrentqueue.h:1199-1205 | taking one element from any producer lowers the total size by exactly one |
| TryDequeueProtocol.FailureMeans | PrivateRecSys-proxy/App/concurrentqueue.h:1011-1045 | with any threads enqueuing and dequeuing between its steps, a call that fails has had, for each producer, a moment at which all elements that were there when it began were claimed, or covered by tickets of other consumers; not that the queue was empty |
| TryDequeueProtocol.CoveredByNobody | PrivateRecSys-proxy/App/concurrentqueue.h:1011-1014 | if no consumer holds a ticket at that moment and nobody else has given one back, all those elements were claimed |
| TryDequeueProtocol.OneClaim | PrivateRecSys-proxy/App/concurrentqueue.h:1030-1042 | a call claims one element, at one producer and below its tail, in the step with which it succeeds, and nothing in any other step |
| TryDequeueCalls.CallTries | PrivateRecSys-proxy/App/concurrentqueue.h:1018-1043 | a call that is over has read the sizes of the producers in their order up to the third that was not empty; if all it saw were empty it has failed without a try; else it has dequeued from the first of the largest it saw, then from the others in their order, each once, until one try claimed an element, and it has failed only if none did |
| TryDequeueCalls.WaitFree | PrivateRecSys-proxy/App/concurrentqueue.h:1015-1045 | with N producers every call ends after at most 8N + 7 steps of its own, whatever the other threads do |
| TryDequeueProtocol.MissesElement | PrivateRecSys-proxy/App/concurrentqueue.h:1011-1014 | a run in which a call fails although the only element is still there and claimed by nobody |
| ProducerHash.NextInv | PrivateRecSys-proxy/App/concurrentqueue.h:3111-3259 | every step of get_or_add_implicit_producer, with resizes and allocation failures at any point, keeps the invariant of tables, reservations and producers; what a call returns is in `ProducerCalls.ReturnsExactly` |
| ProducerHash.TableHasRoom | PrivateRecSys-proxy/App/concurrentqueue.h:3174-3217 | a table of capacity C holds fewer than C/2 + C/4 ids, so a slot is free |
| ProducerHash.ProbingEnds | PrivateRecSys-proxy/App/concurrentqueue.h:3131-3172 | in every state of every run every probe loop, for search, lazy copy and insertion, ends within one round of its table |
| ProducerHash.OneProducerEach | PrivateRecSys-proxy/App/concurrentqueue.h:3111-3259 | two calls at any times in any run return the same producer, if both return one, if and only if they are made by the same thread, whichever table it is found in; that they return one is in `ProducerCalls.ReturnsExactly` |
| ProducerHash.ProducerStays | PrivateRecSys-proxy/App/concurrentqueue.h:3144-3165 | no step changes the producer of a thread that has one |
| ProducerHash.MakerGetsRoom | PrivateRecSys-proxy/App/concurrentqueue.h:3180-3217 | a thread that has made a larger table is let in by the test that follows, whatever the others have done meanwhile, and never goes round the resizing loop again |
| ProducerCalls.ReturnsExactly | PrivateRecSys-proxy/App/concurrentqueue.h:3111-3259 | in every run: a call that is over returns the producer of its thread if and only if no larger table and no producer was refused to it for want of memory; else it returns nothing and the thread has no producer |
| ProducerCalls.FoundAgain | PrivateRecSys-proxy/App/concurrentqueue.h:3131-3165 | a thread that has a producer gets it in every later call, whatever memory there is |
| ProducerCalls.EnteredCurrent | PrivateRecSys-proxy/App/concurrentqueue.h:3144-3165 | a call that returns a producer leaves its thread's entry in the table that was the current one when the call began, or in a later one |
| ProducerCalls.CallEnds | PrivateRecSys-proxy/App/concurrentqueue.h:3111-3259 | a call that does not find the lock on resizing held by another thread takes a bounded number of steps of its own, however the others run in between |
| ProducerCalls.LockedByOther | PrivateRecSys-proxy/App/concurrentqueue.h:3174-3217 | a thread that finds that lock held waits for another thread, which is making a table or about to let go of it |
| ProducerCalls.GrowsAsNeeded | PrivateRecSys-proxy/App/concurrentqueue.h:3178-3206 | a table is added only by a thread whose count is at least half of the last one, and has the least larger capacity of which that count is less than half |
| ThreadIdHash.Hash32Injective | PrivateRecSys-proxy/App/concurrentqueue.h:404-416 | the 32-bit finalizer is injective on 32-bit words |
| ThreadIdHash.Hash64Injective | PrivateRecSys-proxy/App/concurrentqueue.h:417-425 | the 64-bit finalizer is injective on 64-bit words |
| ThreadIdHash.HashThreadIdInjective | PrivateRecSys-proxy/App/concurrentqueue.h:426-431 | with the choice by id size, two thread ids have the same hash if and only if they are equal |
| ThreadIdHash.Reference32 | PrivateRecSys-proxy/App/concurrentqueue.h:404-416 | a reference value of the 32-bit finalizer of MurmurHash3, which the code names as its source |
| ThreadIdHash.Reference64 | PrivateRecSys-proxy/App/concurrentqueue.h:417-425 | likewise of the 64-bit finalizer |
| ProxySessions.NextInv | PrivateRecSys-proxy/App/server.cpp:35-103 | every accept, answer, flush, claim and worker step keeps sockets, jobs and sessions consistent; where a session begins and what makes its jobs is in `ProxyConversations` |
| ProxySessions.SessionsSafe | PrivateRecSys-proxy/App/server.cpp:76-103 | in every state of every run the open sockets are those of the sessions, each of one session and in one role, also while a session awaits its answer; each job holds the two sockets of its session (the backend's until its worker closes it), shares none with another job, and a response job carries the client accepted for its session |
| ProxySessions.OneResponse | PrivateRecSys-proxy/App/server.cpp:88-94 | a session gets at most one response job, after its request was sent, with the client paired at accept |
| ProxySessions.RunAdvances | PrivateRecSys-proxy/App/server.cpp:76-103 | a session keeps its sockets, only moves on from request to response to closed, and nothing is opened again: at most one request and one response |
| ProxySessions.ClosedOnce | PrivateRecSys-proxy/App/server.cpp:49-55 | when a worker closes a socket it is open, is the socket of its own session in that role and of no other session, and no later step of the run closes it for that session again |
| ProxyConversations.Begun | PrivateRecSys-proxy/App/server.cpp:82-87 | every session of every run was begun by one accept, which added exactly its request job with the two sockets that the session has for good, and watches and pairs its backend socket |
| ProxyConversations.AnsweredBefore | PrivateRecSys-proxy/App/server.cpp:88-94 | every session that has a response job, or is over, had its request sent in an earlier state and was then answered |
| ProxyConversations.ResponsesAreAnswers | PrivateRecSys-proxy/App/server.cpp:88-94 | every response job in the buffer, in the queue or with a worker was made by an answer on the backend socket of its session, with the client of that session |
| ProxyConversations.OverSaidAll | PrivateRecSys-proxy/App/server.cpp:35-58 | when a session is over, its request has been carried from the client to the backend and then its response from the backend to the client, each once and nothing else; when it awaits its answer, the request only; before, nothing |
| ProxyConversations.PairedUntilAnswered | PrivateRecSys-proxy/App/server.cpp:82-93 | in every state of every run a backend socket is watched, and leads to the client of its session, exactly until its session is answered |
| ProxyConversations.WorkerGoesOn | PrivateRecSys-proxy/App/server.cpp:35-58 | a worker with a job can always go on, is done after a fixed number of steps, and no step of another thread changes what it has |
| Batching.PollHandler.Round | PrivateRecSys-proxy/App/server.cpp:77-102 | for BUFFER_SHUFFLING >= 1 the buffer never overflows, every event becomes exactly one job in arrival order, batches are appended only, each is full unless a timeout flushed it, and there are exactly as many as the events fill, one more after a timeout, and none after an error |
| Batching.PollHandler.Flush | PrivateRecSys-proxy/App/server.cpp:96-100 | a flush makes one batch, a permutation of what waited, which the queue takes whole or not at all; if no worker overlaps the call it takes it if and only if it fits and malloc answers the calls that it needs |
| Batching.PollHandler.Shuffle | PrivateRecSys-proxy/App/server.cpp:97-97 | any sequence of exchanges leaves the same jobs in the waiting part of the buffer |
| Batching.NeverInterleaved | PrivateRecSys-proxy/App/server.cpp:98-98 | in a run of the lock-free queue whose bulks are the batches of the poll thread, with workers claiming meanwhile: of two jobs claimed one after the other the first is not of a later batch |
| Batching.NoneRefusedExactly | PrivateRecSys-proxy/App/server.cpp:96-100 | the queue gets every flushed job as often as it arrived if and only if it accepted every batch with jobs |
| Batching.NothingLostExactly | PrivateRecSys-proxy/App/server.cpp:96-100 | for calls that no worker overlaps: if and only if for every batch with jobs there was index space and malloc had an answer to every call that it needed, both known before the call; any other batch is lost |
| Batching.PollHandler.Work | PrivateRecSys-proxy/App/server.cpp:61-66 | a worker gets the oldest job, which stands at its place of its batch |
| Batching.NothingLostWithoutMemory | PrivateRecSys-proxy/App/server.cpp:96-100 | for such calls and without memory that is if and only if every batch found free blocks and slots |
| Batching.RefusedBatch | PrivateRecSys-proxy/App/server.cpp:98-98 | a batch of one job that enqueue_bulk refuses: the job is gone |
| Batching.ServedFromBatch | PrivateRecSys-proxy/App/server.cpp:98-98 | what a worker is handed there belongs to one batch, which was accepted, and arrived with it |
| Batching.EveryJobServedExactly | PrivateRecSys-proxy/App/server.cpp:60-100 | when the workers of such a run have caught up, every flushed job has been handed out as often as it arrived if and only if no batch with jobs was refused |
| Batching.EveryJobServed | PrivateRecSys-proxy/App/server.cpp:60-100 | which is so if each batch with jobs was provided for when its call began, whatever the workers did during the call, as long as no other producer took a block then (in PProx only the poll thread enqueues) |
| HttpFraming.UpdateHeaders | PrivateRecSys-proxy/Enclave/Enclave.cpp:187-209 | the edits of update_headers, with npos arithmetic on words, compute the specification that the lemmas below are about, exceptions included |
| HttpFraming.UpdatedRequest | PrivateRecSys-proxy/Enclave/Enclave.cpp:187-209 | for every request with a Host header, wherever in its lines the texts of the three names occur first: the lines and the payload that come out, in all three cases of the Connection header |
| HttpAnyRequest.UpdatedAlways | PrivateRecSys-proxy/Enclave/Enclave.cpp:187-209 | for every request whose first line has at least five characters, with Host text in a line, only in the payload, or nowhere: the lines and the payload that come out |
| HttpAnyRequest.TargetOverwritten | PrivateRecSys-proxy/Enclave/Enclave.cpp:190-199 | a request without the text of Host, Connection or Content-Length: what follows the first five characters of the request line is replaced by the address, and the Connection line stands after it |
| HttpAnyRequest.RequestAny | PrivateRecSys-proxy/Enclave/Enclave.cpp:187-209 | for every text, with or without header lines, line ends or an empty line: the slices of the text that a request's edits leave, and when std::string throws |
| HttpAnyRequest.ResponseAny | PrivateRecSys-proxy/Enclave/Enclave.cpp:201-208 | likewise for a response: the number set is that of the characters behind the first empty line, and 0 without one |
| HttpFraming.SetLengthText | PrivateRecSys-proxy/Enclave/Enclave.cpp:202-208 | the last edit, and all that happens to a response: the rest of the first line with the text of Content-Length becomes the length of the payload; without such a line the payload is edited at that text, if it has it |
| HttpFraming.PayloadKept | PrivateRecSys-proxy/Enclave/Enclave.cpp:189-198 | the payload of a request with a Content-Length header is kept if and only if some header line has the text of Connection, or the payload has none, or says Close after its first |
| HttpFraming.PayloadNotAlwaysKept | PrivateRecSys-proxy/Enclave/Enclave.cpp:191-197 | a request whose payload update_headers changes |
| HttpFraming.NextHopFramed | PrivateRecSys-proxy/Enclave/Enclave.cpp:187-209 | whatever the request said, the first Content-Length text of what is sent on, anywhere in its lines, is followed by the length of its payload, which is what do_recv of the next hop reads |
| HttpRequests.LengthSetExactly | PrivateRecSys-proxy/Enclave/Enclave.cpp:202-208 | for every request: its Content-Length header is still that header of what is sent on (section 3.3.2 of RFC 7230), and is the length of the payload if and only if it is the first line of the request with such text, texts behind one that an earlier edit finds not counted, or says so already |
| HttpRequests.HostSetExactly | PrivateRecSys-proxy/Enclave/Enclave.cpp:190-199 | for every request: its Host header is still that header of what is sent on (section 5.4 of RFC 7230), and names the next hop if and only if it is the first line of the request with such text, text behind the Connection text that is edited not counted, or says so already |
| HttpRequests.HeadersSetApart | PrivateRecSys-proxy/Enclave/Enclave.cpp:187-209 | when no line has the text of two of the names, each is set if and only if it is the first line with such text, or says so already |
| HttpFraming.LengthNotAlwaysSet | PrivateRecSys-proxy/Enclave/Enclave.cpp:202-208 | X-Content-Length before Content-Length: the wrong length is sent on |
| HttpFraming.HostNotAlwaysSet | PrivateRecSys-proxy/Enclave/Enclave.cpp:198-199 | X-Forwarded-Host before Host: the Host header is sent on unchanged |
| HttpFraming.LeftAloneExactly | PrivateRecSys-proxy/Enclave/Enclave.cpp:187-209 | update_headers leaves a request as it is if and only if it says Close, the next hop, and the length of its payload after its first such texts |
| HttpRequests.IdempotentExactly | PrivateRecSys-proxy/Enclave/Enclave.cpp:187-209 | applied to its own output it changes nothing if and only if, in the request, no later edit finds the line of the Connection or the Host text that an earlier one finds, or the next such text that is left says the same already |
| HttpRequests.IdempotentApart | PrivateRecSys-proxy/Enclave/Enclave.cpp:187-209 | which holds when no line has the text of two of the names |
| HttpFraming.NotAlwaysIdempotent | PrivateRecSys-proxy/Enclave/Enclave.cpp:187-209 | a request that a second update_headers changes again |
| HttpTransfer.DoRecv | PrivateRecSys-proxy/App/common_socket.cpp:189-207 | the receiving loop ends, with the room left in the buffer as measure, and returns a prefix of the stream; which one is in `HttpReceiving.RecvStops` |
| HttpTransfer.LengthIsRead | PrivateRecSys-proxy/App/common_socket.cpp:204-204 | once the header is complete the loop condition reads exactly the length of the payload, at whatever place of a line the text stands and whatever part of the payload has arrived |
| HttpTransfer.RecvExact | PrivateRecSys-proxy/App/common_socket.cpp:189-207 | for every chunking of a framed message, or of the part of it that was sent: do_recv returns exactly the message if and only if it is whole, shorter than MSG_LENGTH and its first chunk exceeds 16 characters; one of exactly MSG_LENGTH makes it write behind its buffer; else it returns 0 (section 3.3.3 of RFC 7230) |
| HttpReceiving.MoreExactly | PrivateRecSys-proxy/App/common_socket.cpp:204-204 | for every text: without the length text do_recv goes on unless the last four characters are an empty line; with it, until an empty line is there, and then until as much has come as the number on the line of the length text says, or it throws if that is no number |
| HttpReceiving.RecvStops | PrivateRecSys-proxy/App/common_socket.cpp:189-207 | for every stream and every chunking: it ends with the first chunk after which it does not want more, by returning all that has come, throwing, or overrunning the buffer, and returns 0 if there is no such chunk or the first is too short |
| HttpReceiving.RecvUndeclared | PrivateRecSys-proxy/App/common_socket.cpp:189-207 | a stream without the length text: it returns exactly what has come with the first chunk that ends in an empty line, if the first chunk exceeds 16 characters; else it returns 0, or overruns the buffer |
| HttpReceiving.HeaderOnlyExact | PrivateRecSys-proxy/App/common_socket.cpp:189-207 | so a message without payload and length, or what was sent of it, is returned exactly if it is whole, shorter than MSG_LENGTH and its first chunk exceeds 16 characters, for every chunking |
| HttpReceiving.RecvDeclared | PrivateRecSys-proxy/App/common_socket.cpp:189-207 | a message with any declared length, right, wrong or negative: it returns what has come with the chunk that completes the header and that many characters; a length that is no number makes it throw when the header is complete |
| HttpTransfer.DoSend | PrivateRecSys-proxy/App/common_socket.cpp:175-183 | what is sent is a prefix of the buffer, all of it unless send fails; the result is its length, less one after a failure |
| HttpTransfer.SentMost | PrivateRecSys-proxy/App/common_socket.cpp:175-183 | how much is sent: as much as the longest run of calls without a failure sends |
| HttpTransfer.HopDelivers | PrivateRecSys-proxy/App/server.cpp:35-57 | a request edited at one hop and put on the wire by do_send is received at the next exactly as edited if and only if all of it was sent, it is shorter than MSG_LENGTH and its first chunk exceeds 16 characters, for every chunking and every outcome of send |
| HttpTransfer.ShortChunkDropped | PrivateRecSys-proxy/App/common_socket.cpp:196-203 | a message of which 16 characters arrive first is dropped |
| HttpTransfer.FullBufferOverruns | PrivateRecSys-proxy/App/common_socket.cpp:205-205 | a message of 4096 characters makes do_recv write `buffer[4096]` |
| HttpTransfer.SendErrorMiscounts | PrivateRecSys-proxy/App/common_socket.cpp:178-182 | three of five characters sent, and the result is two |
| Strings.StoiDecimal | PrivateRecSys-proxy/App/common_socket.cpp:204-204 | std::stoi reads back what std::to_string printed, whatever follows the digits |
| HttpReceiving.StoiLine | PrivateRecSys-proxy/App/common_socket.cpp:204-204 | std::stoi reads nothing beyond the line, signs and leading spaces included, unless the line is blank |
| Strings.StoiExactly | PrivateRecSys-proxy/App/common_socket.cpp:204-204 | std::stoi on leading spaces, an optional sign, digits and anything that follows: the number if an int can hold it, else it throws, as it does without digits |
| JsonFields.JsonGetIdValue | PrivateRecSys-proxy/Enclave/Enclave.cpp:53-72 | the searches and word arithmetic of json_get_id_value compute the specification below, and move `start` to the end of the field |
| JsonFields.JsonChangeIdValue | PrivateRecSys-proxy/Enclave/Enclave.cpp:74-98 | likewise for json_change_id_value, exceptions included |
| JsonFields.ReadExactly | PrivateRecSys-proxy/Enclave/Enclave.cpp:53-72 | for every message and field: the text that is read, or the empty text, or a copy of negative length, by how long the field is |
| JsonFields.ChangedExactly | PrivateRecSys-proxy/Enclave/Enclave.cpp:74-98 | for every message and field: exactly the span of the text is replaced, headers and all other bytes unchanged, if the span is not empty; otherwise everything after its start is replaced |
| JsonFields.ReadBack | PrivateRecSys-proxy/Enclave/Enclave.cpp:53-98 | for a value in the base64 alphabet (section 4 of RFC 4648), reading after an edit returns it if and only if the old text had at least as many characters as the code takes for its wrapping (two, or one when the payload begins with an escaped quote) |
| JsonFields.FlatEdit | PrivateRecSys-proxy/Enclave/Enclave.cpp:53-98 | for a flat message with a quoted field, whose old text has no comma and in the last field no closing brace: the text that is read, the message after the edit in full, and the value in the base64 alphabet read back |
| JsonFields.NotAlwaysReadBack | PrivateRecSys-proxy/Enclave/Enclave.cpp:88-97 | a one-digit number: the edit loses the rest of the message and the field with it |
| JsonFields.MissingExactly | PrivateRecSys-proxy/Enclave/Enclave.cpp:53-98 | for every message: nothing is read if and only if the name, the colon after it or the end of the field is absent (in a payload that begins with a space the colon is not needed, but the end is), and then the message is left unchanged |
| JsonFields.SpacedExactly | PrivateRecSys-proxy/Enclave/Enclave.cpp:58-70 | a payload that begins with a space and has no colon after the name: its text from the third character on is read and overwritten as the field |
| JsonFields.StartMoves | PrivateRecSys-proxy/Enclave/Enclave.cpp:62-64 | `start` is moved to the comma or brace that ends the field |
| JsonFields.ValueIsNoName | PrivateRecSys-proxy/Enclave/Enclave.cpp:58-71 | a name that occurs only as a value: nothing is read and nothing is changed |
| JsonFields.PayloadStartIs | PrivateRecSys-proxy/Enclave/Enclave.cpp:45-51 | the payload begins behind the first empty line; a message without one, or with nothing behind it, is all payload |

## Left out

Assumptions of the models:

- Weak memory orderings and fences: steps are sequentially consistent.
- Counter closeness: the second guard of a dequeue in `DequeueCounters`, and the explicit producer's dequeues, are used with counters less than 2^63 apart, as the header asks of its index type; that the implicit producer keeps headIndex and tailIndex so close is proved.
- Borrowed blocks: a block that another producer or thread returns comes back in `ImplicitProtocol` with the cells it left with, so that the machine does not show that what others leave in a block does not matter; a producer resets the counter of every block it takes, and writes a cell before it is read.
- An index of more than 2^64 / BLOCK_SIZE slots counts as one that malloc refuses.
- The list of producers in `TryDequeueProtocol` is fixed; producers that appear during a call are not in it.
- Separate pools: in `TryDequeue` each producer has a pool of its own; sharing of the pool is in `ImplicitProtocol`, where other producers borrow and restore blocks.
- The initial pool's counter and the free list are one pool in the producer models; `FreeListProtocol` is the free list itself.
- Pointers are addresses in a sequence of blocks, and `std::string` edits are on values, so that C++ objects do not share storage in other ways.
- `MAX_SUBQUEUE_SIZE` has its default, no limit, and a bulk has at most 2^64 - BLOCK_SIZE elements.
- Kernel: descriptors handed out are not open and below 65536, and a backend socket becomes readable only after its request was sent; `send` does not return 0 for a non-empty buffer.
- Text has no NUL characters, which would cut C strings short, and is shorter than an `int` can count.

Weaker than the code or its design:

- ExplicitQueue.ExplicitProducer.EnqueueBulk: of a failed bulk of the explicit producer only tailIndex and the published elements are described, because block reuse before the failure breaks the contiguity of its index; the implicit one is described in full.
- ImplicitProtocolBulks.BulkWholeOrNot: the step machine keeps tailBlock unchanged until the bulk is published; that the code overwrites it for every block and restores it is in `ImplicitQueue.ImplicitProducer.EnqueueBulk`.
- Batching.NothingLostExactly: is about calls that no worker overlaps, like the class it belongs to. Among workers acceptance depends on what they release during the call; what can be said before it is the sufficient condition of `Batching.EveryJobServed`, which `ImplicitProtocolAlone.AloneExactly` shows to be exact again when nobody overlaps the call.
- Batching.NothingLostWithoutMemory: likewise, since a block released during the call can save a batch that found none before it.
- ImplicitProtocolRuns.AlwaysFifo: like everything that rests on the invariant of the block protocol, is about runs whose claims are of at least one element; what goes wrong otherwise is in `JointProtocol`.
- ImplicitQueue.ImplicitProducer.Dequeue: as seen by one thread the second guard cannot fail; its failure branch, and the give-back of a part, are in `DequeueCounters`.
- HttpFraming.UpdatedRequest: is about requests that have a Host header; for all others the lines that come out are in `HttpAnyRequest.UpdatedAlways`, which asks for a first line of at least five characters, as any request line has (section 3.1.1 of RFC 7230), and the text in `HttpAnyRequest.RequestAny`, which asks for nothing.
- HttpReceiving.RecvDeclared: adds the length and the place of the empty line as integers; the code adds them as 32-bit integers, which a declared length close to 2^31 overflows.

Not modelled:

- A `new_block_index` that fails in the constructor of a producer, which leaves `blockIndex` null.
- Element constructors, destructors and assignments that throw, and element types with moves of their own.
- The counter of empty elements that explicit blocks of more than 32 elements use instead of flags, and the destructor of the explicit producer.
- Recycling of inactive producers and thread-exit listeners, which need thread-local support that this header leaves switched off (line 224).
- `BlockingConcurrentQueue`, consumer tokens and their rotation, `try_enqueue`, queue move and swap, memory statistics, Relacy and debug variants.
- `iterative_encryption`, the layout of `inRAM`, `init_ivs`, RSA, AES, base64 and SGX calls.
- `BUFFER_SHUFFLING` of 0, sockets and epoll beyond the environment above, process set-up, printing.
- Load injectors, notebooks, data set scripts, charts and container files.
