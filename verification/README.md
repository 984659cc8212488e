# folly: protocols, strings, hashes and codecs

This project models the algorithmic core of folly in Dafny and proves what its components promise.

Concurrent components are state machines. A state holds the shared memory and, for every thread, a program
counter; each atomic load, store, compare-and-swap, lock or futex call is one step, and any number of threads
interleave them. A *run* is a sequence of states that starts in an initial state and follows the steps.
`Inv` is what every step keeps; the theorems are about every state, or every pair of moments, of every run. The
`...Calls` files follow one call from its first step to its return and hold its answer against its arguments.
Sequential components are classes, methods and loops proved against functions on plain values.

| component | files |
|---|---|
| `ConcurrentSkipList` | `SkipListProtocol`, `SkipListInvariant`, `SkipListTheorems`, `SkipListSearch`, `SkipListHistory`, `SkipListOutcomes`, `SkipListLookups`, `SkipListCalls`, `SkipListWitnesses` |
| `MPMCQueue`, `TurnSequencer`, `SingleElementQueue` | `TicketStride`, `TurnSequencer`, `MPMCQueue`, `MPMCQueueProof`, `MPMCQueueTheorems`, `MPMCQueueCalls` |
| `AtomicHashArray` | `AtomicHashArray`, `AtomicHashArrayProof`, `AtomicHashArrayTheorems`, `AtomicHashArrayCalls` |
| `AtomicHashMap` | `AtomicHashMap`, `AtomicHashMapProof`, `AtomicHashMapTheorems`, `AtomicHashMapCalls` |
| `IndexedMemPool` | `IndexedMemPool`, `IndexedMemPoolProof`, `IndexedMemPoolTheorems`, `IndexedMemPoolCalls` |
| `fbstring_core`, `append` | `FBStringHeap`, `FBString`, `FBStringPrograms` |
| `SpookyHashV1` | `SpookyShort`, `SpookyHash`, `SpookyInput` |
| `RWSpinLock`, `RWTicketSpinLockT` | `RWSpinLock`, `RWTicketSpinLock` |
| `GroupVarint`, its encoder and decoder | `GroupVarint`, `GroupVarintCodec`, `GroupVarintDecoder` |
| decimal conversions | `Conv`, `ConvParse` |
| `qfind`, `basic_fbstring::find` | `Search` |
| shared | `Options`, `Modular` |

## Assumptions

- Memory is sequentially consistent and each atomic operation is one step.
- What the code leaves to chance or to a clock is any choice: node heights up to the search's top layer, head
  growth, the stripe of a pool call, submap sizes, futex wake-ups without a reason.
- Hash functions are any function; `Mix`, `End`, `ShortMix` and `ShortEnd` of SpookyHash are any functions on
  the hash state, and so is the addition of a whole word of a short message.
- Queue tickets and turns are unbounded. The futex word of `TurnSequencer` holds turns modulo 2^26 as in the
  code, under the code's own assertion that a waited turn is less than 2^25 ahead.
- Counters of `RWTicketSpinLockT` wrap at any modulus m = 2^k, with at most m - 1 users outstanding.
- `ThreadCachedInt::readFull` is exact and `readFast` may miss any number of increments.
- Groups of `GroupVarint` hold 4 values behind 1 byte of header (32 bits) or 5 values behind 2 (64 bits), as
  documented at folly/GroupVarint.h:54-63 and folly/GroupVarint.h:247-256.
- Auxiliary fields (`cnt`, `cur`, `place`, `pushed`, `popped`, `w`, `r`, `u`, ...) record history for the
  statements; no step of the code depends on them.

## Where the code and what is said about it differ

- `MPMCQueue::size()` is documented as reads minus writes (folly/MPMCQueue.h:168-170); the code returns pushes
  minus pops, and so does `MPMCQueueTheorems.Size`.
- `basic_fbstring::find` returns `pos` for an empty needle even beyond the end of the string, where section
  21.4.7.2 of ISO/IEC 14882:2011 asks for `npos`. `Search.FBFind` has the exact condition and
  `Search.EmptyNeedleBeyondEnd` an input.
- `qfind` takes any equality. It finds the first match in all inputs if and only if the equality is right
  Euclidean, as every equivalence is: `Search.QFindIsRightIffEuclidean`, with a miss in `Search.MissedMatch`.
- In builds without SSE2 arithmetic, `RWTicketSpinLockT::try_lock_shared` computes the new `users` from the
  value it loaded, while the word it expects has `users` equal to `read`. If 2^k write locks come and go between the load and the
  swap, the swap succeeds and the counters no longer match the holders:
  `RWTicketSpinLock.ScalarBuildCanLoseCount`. `RWTicketSpinLock.SharedSwapIsExact` has the exact condition, and
  `RWTicketSpinLock.ParallelIsClean` shows that the other build never meets it.
- `IndexedMemPool::capacity()` reports the capacity asked for exactly while the slots can be numbered in 32
  bits: `IndexedMemPoolTheorems.CapacityIsKept`.
  `IndexedMemPoolTheorems.CapacityCanBeLost` has a capacity that is not kept.
- `GroupVarintDecoder` stopped by `maxCount` inside a group recomputes the lengths of the values it returned
  instead of using the header's (folly/GroupVarint.h:562 and 573), so `rest()` may start too early:
  `GroupVarintDecoder.LooseStop`. It starts behind the returned values if and only if these were encoded in as few
  bytes as they need, `GroupVarintCodec.StopIsExactIffTight`, and the encoder's groups are, `GroupVarintCodec.GroupsAreTight`.
- `ConcurrentSkipList::remove` can return false although a linked, unmarked node has the key throughout the call:
  `SkipListWitnesses.RemoveCanRefuseLinkedKey`.
  `SkipListLookups.RefusalIffHalfLinked` says exactly when, and `SkipListOutcomes.FailedRemoveIsJustified` is what
  every failed removal does promise: an instant of the call at which no fully linked, unmarked node has the key.
- `findNode` is documented to return the first node not less than the key (folly/ConcurrentSkipList.h:484-488). When it
  finds nothing it loads the pointer a second time (line 505), so `lower_bound` can return a smaller key that was
  inserted in between: `SkipListWitnesses.LowerBoundCanUndershoot`, for every two keys.
  `SkipListLookups.SecondLoadIffNoneBetween` says exactly when the node found is too small, and
  `SkipListLookups.LowerBoundIsBound` that the result is not, unless a smaller key is inserted during the call.

## Model

| member | source | states |
|---|---|---|
| `SkipListInvariant.InitInv` | folly/ConcurrentSkipList.h:303-304 | an empty list meets the invariant |
| `SkipListInvariant.NextInv` | folly/ConcurrentSkipList.h:326-449 | every step of insertion, removal and head growth, with search results as stale as interleaving allows, keeps the invariant: each layer's pointers chain exactly the nodes linked on it in key order, keys are unique, whoever holds validated locks finds them still valid, and size_ accounts for every update in progress |
| `SkipListTheorems.RunInv` | folly/ConcurrentSkipList.h:203-449 | the invariant holds in every state of every run |
| `SkipListTheorems.LayersAreNestedSortedLists` | folly/ConcurrentSkipList.h:203-449 | at every moment each layer, walked from the head, is strictly sorted, holds exactly the nodes linked on it, and is a sublist of the layer below |
| `SkipListTheorems.UnmarkedNodesAreFullyLinked` | folly/ConcurrentSkipList.h:359-449 | a fully linked, unmarked node is on exactly the layers below its height, and the walk of each of them meets it |
| `SkipListTheorems.SizeIsExact` | folly/ConcurrentSkipList.h:312-314 | size_ is the number of linked data nodes minus the insertions and plus the removals that have not counted theirs yet |
| `SkipListTheorems.InsertAddsKey` | folly/ConcurrentSkipList.h:388-397 | linking layer 0 adds a key that was absent from the set of linked, unmarked keys, and changes nothing else in it |
| `SkipListTheorems.RemoveDropsKey` | folly/ConcurrentSkipList.h:425-432 | marking removes a key that was present, and changes nothing else |
| `SkipListTheorems.StepRefinesSet` | folly/ConcurrentSkipList.h:359-449 | every step of every run leaves the set alone, or is the one step in which an insertion adds its absent key, or the one in which a removal drops its present key |
| `SkipListTheorems.FoundKeyIsPresent` | folly/ConcurrentSkipList.h:368-377 | an insertion that settles for an existing node does so at a moment when its key is in the set |
| `SkipListTheorems.LostRaceIsJustified` | folly/ConcurrentSkipList.h:421-432 | a removal that picked a node and then finds it marked returns false rightly: the key was in the set when picked and absent at some later moment of the call |
| `SkipListHistory.Frozen` | folly/ConcurrentSkipList.h:388-442 | a pointer changes only while its node is linked on the layer or is the head |
| `SkipListHistory.WasTrue` | folly/ConcurrentSkipList.h:203-227 | what a search loads from a node it reached, however stale, followed that node at some instant of the call |
| `SkipListOutcomes.SetFullAddsKey` | folly/ConcurrentSkipList.h:393-394 | completing an insertion adds an absent key to the set of fully linked, unmarked keys, and changes nothing else in it |
| `SkipListOutcomes.TakeDropsKey` | folly/ConcurrentSkipList.h:425-432 | marking drops a present key from it, and changes nothing else |
| `SkipListOutcomes.StepRefinesSolid` | folly/ConcurrentSkipList.h:359-449 | every step of every run leaves that set alone or is one of these two |
| `SkipListOutcomes.FailedInsertIsJustified` | folly/ConcurrentSkipList.h:368-377 | an insertion that returns an existing node had an instant of the call when the key was in that set |
| `SkipListOutcomes.FailedRemoveIsJustified` | folly/ConcurrentSkipList.h:411-449 | a removal that returns false, because its search missed, okToDelete refused or another thread marked first, had an instant of the call when the key was not in that set |
| `SkipListCalls.InsertCallAdds` | folly/ConcurrentSkipList.h:359-409 | an insertion that reports a new element has a step that adds the key it was called with, through any number of retries, and nothing else to the linked, unmarked keys, and a later one that does so to the fully linked ones |
| `SkipListCalls.InsertCallFinds` | folly/ConcurrentSkipList.h:368-377 | one that reports an element already there returns a node with the key it was called with |
| `SkipListCalls.RemoveCallDrops` | folly/ConcurrentSkipList.h:411-449 | a removal that returns true has a step that drops the key it was called with and nothing else |
| `SkipListCalls.CallsEnd` | folly/ConcurrentSkipList.h:359-449 | there are no other ways to return |
| `SkipListCalls.GrowCallGrows` | folly/ConcurrentSkipList.h:544-564 | growHeight puts a head of the asked height in the place of the one it saw, with its pointers and none above, unless that was no longer the head |
| `SkipListLookups.RefusalIffHalfLinked` | folly/ConcurrentSkipList.h:418-421 | of the failed removals, exactly those had the key linked and unmarked throughout that began while its insertion was half done and ended with its node unmarked |
| `SkipListWitnesses.RemoveCanRefuseLinkedKey` | folly/ConcurrentSkipList.h:469-474 | for every key, a run with such a removal |
| `SkipListLookups.FindHitIsJustified` | folly/ConcurrentSkipList.h:317-321 | a node that find returns is linked, unmarked and has the key find was called with at that instant |
| `SkipListLookups.FindMissIsJustified` | folly/ConcurrentSkipList.h:317-321 | a find that returns nothing had an instant of the call when no linked, unmarked node had the key |
| `SkipListLookups.FoundThenRefused` | folly/ConcurrentSkipList.h:411-421 | if a thread's removal of a key it has found fails and the node is never marked, the node was not fully linked at some instant of the removal |
| `SkipListLookups.LowerBoundSkipsNothing` | folly/ConcurrentSkipList.h:536-542 | the node lower_bound returns is linked and unmarked at that instant, and every key from the one asked for up to it was absent at some instant of the call |
| `SkipListLookups.LowerBoundIsBound` | folly/ConcurrentSkipList.h:496-542 | the node returned is not below the key, unless a smaller key was inserted during the call |
| `SkipListLookups.SecondLoadIffNoneBetween` | folly/ConcurrentSkipList.h:504-505 | having found nothing, findNode returns a node not less than the key if and only if no linked key lay between the node where the search ended and the key when that node was last linked |
| `SkipListWitnesses.LowerBoundCanUndershoot` | folly/ConcurrentSkipList.h:505-505 | for every two keys, a run in which lower_bound of the larger returns the smaller |
| `SkipListSearch.LowerBoundIsUnique` | folly/ConcurrentSkipList.h:484-491 | there is only one lower bound, so the searches agree |
| `SkipListSearch.StepRight` | folly/ConcurrentSkipList.h:210-214 | the walk along a layer ends at the last node before the key and its successor |
| `SkipListSearch.FindNodeDownRight` | folly/ConcurrentSkipList.h:496-516 | terminates with the lower bound of the key, and found tells whether the key is linked |
| `SkipListSearch.FindNodeRightDown` | folly/ConcurrentSkipList.h:520-534 | the same for the other search order |
| `SkipListSearch.FindInsertionPoint` | folly/ConcurrentSkipList.h:203-227 | fills preds and succs with the neighbours of the key on every layer, finds the lower bound, reports a layer just if the key is linked, and for a live node that layer is its top one, which okToDelete relies on |
| `SkipListSearch.LowerBound` | folly/ConcurrentSkipList.h:536-542 | the first unmarked node at or after the key, or none just if there is none |
| `SkipListSearch.FindInSet` | folly/ConcurrentSkipList.h:317-321 | returns a node just if the key is in the set, and then the unmarked node of that key |
| `TicketStride.ComputeStride` | folly/MPMCQueue.h:393-410 | the stride is coprime to the capacity, and is the first of the small primes with the best separation, or 1 if none separates |
| `TicketStride.SlotAndTurnNameTheTicket` | folly/MPMCQueue.h:414-422 | slot and turn together name one ticket |
| `TicketStride.TicketFor` | folly/MPMCQueue.h:414-422 | every slot and turn belong to some ticket |
| `TicketStride.WindowVisitsEverySlotOnce` | folly/MPMCQueue.h:379-416 | any capacity-many consecutive tickets visit every slot exactly once |
| `TurnSequencer.EncodeStands` | folly/MPMCQueue.h:722-742 | encode and decode round trip, the waiter delta saturating at 63 |
| `TurnSequencer.AheadIsDistance` | folly/MPMCQueue.h:633-634 | the 32-bit shifted difference is the distance between two turns less than 2^26 apart |
| `TurnSequencer.IsTurnIsExact` | folly/MPMCQueue.h:593-596 | isTurn is true just if the current turn is the one asked for |
| `TurnSequencer.RecordInv` | folly/MPMCQueue.h:633-647 | recording a waiter keeps the invariant for all sleepers on all channels |
| `TurnSequencer.AdvanceInv` | folly/MPMCQueue.h:675-693 | completing a turn, with the decremented delta, keeps it |
| `TurnSequencer.WakeInv` | folly/MPMCQueue.h:684-687 | a wake on a channel shared by 32 turns keeps it |
| `TurnSequencer.NextInv` | folly/MPMCQueue.h:607-693 | every step of any number of waiters and completers keeps it |
| `TurnSequencer.NoLostWakeup` | folly/MPMCQueue.h:607-693 | in every run a sleeper's turn is not over, the recorded delta reaches its channel or a wake on it is pending, and if its turn is current a wake is pending |
| `TurnSequencer.LookOutcome` | folly/MPMCQueue.h:607-625 | a waiter goes on if and only if its turn is the current one when it looks |
| `TurnSequencer.AdvanceOutcome` | folly/MPMCQueue.h:675-693 | completing a turn makes the next turn the current one, and wakes if and only if a waiter is recorded |
| `TurnSequencer.TurnsPassOneByOne` | folly/MPMCQueue.h:675-693 | turns pass only one by one, and only by the thread that completes them |
| `MPMCQueueProof.NextInv` | folly/MPMCQueue.h:427-541 | every step of every push and pop, blocking or not, keeps the queue's invariant, with a turn sequencer in every slot |
| `MPMCQueueTheorems.PopReturnsWhatWasPushed` | folly/MPMCQueue.h:526-541 | the value popped under a ticket is the one pushed under that ticket |
| `MPMCQueueTheorems.HistoryIsFinal` | folly/MPMCQueue.h:526-541 | what was pushed or popped under a ticket never changes, and dispensers only grow |
| `MPMCQueueTheorems.TouchedOnce` | folly/MPMCQueue.h:764-836 | no two moves into or out of a slot are for the same side and ticket |
| `MPMCQueueTheorems.SlotIsExclusive` | folly/MPMCQueue.h:764-825 | at most one thread is between waitForTurn and completeTurn of a slot |
| `MPMCQueueTheorems.ReadyNeverBlocks` | folly/MPMCQueue.h:427-452 | a ticket from tryObtainReadyPushTicket or its pop twin finds its turn there and never waits |
| `MPMCQueueTheorems.ReadyRefusalIsJustified` | folly/MPMCQueue.h:427-452 | write and read refuse only if, when they looked, the next ticket would have blocked: the queue was full, or empty, or an operation on the slot had its ticket and was not done |
| `MPMCQueueTheorems.PromisedRefusalIsJustified` | folly/MPMCQueue.h:459-524 | writeIfNotFull refuses only at an instant when the queue is full, readIfNotEmpty when it is empty |
| `MPMCQueueTheorems.QuiescentOnlyWhenFullOrEmpty` | folly/MPMCQueue.h:268-327 | if every operation in flight is asleep then all are blocking pushes with no pop to wait for, or all blocking pops with no push to wait for |
| `MPMCQueueCalls.PushStoresItsValue` | folly/MPMCQueue.h:236-291 | a push that is done has stored the value it was called with under its ticket, for good |
| `MPMCQueueCalls.PopReturnsValueOfPush` | folly/MPMCQueue.h:296-327 | the pop call granted a ticket returns the value the push call granted that ticket was called with, whichever ends first |
| `MPMCQueueCalls.EarlierCallHasSmallerTicket` | folly/MPMCQueue.h:526-541 | of two pushes, or two pops, one that ends before the other begins has the smaller ticket: with the row above, first in, first out |
| `MPMCQueueCalls.RefusalIsJustified` | folly/MPMCQueue.h:257-327 | a refused call was not a blocking one; writeIfNotFull and readIfNotEmpty had an instant of the call when the queue was full, or empty, and write and read one when their next ticket would have blocked |
| `MPMCQueueTheorems.Size` | folly/MPMCQueue.h:171-195 | the result is the difference of the tickets at one instant within the call, however they move between the loads; otherwise every bracketing saw a change |
| `AtomicHashArrayProof.NextInv` | folly/AtomicHashArray-inl.h:50-243 | every step of insert, find and erase keeps the array's invariant |
| `AtomicHashArrayTheorems.LiveKeysAreReachable` | folly/AtomicHashArray-inl.h:89-188 | every cell before a live key on its probe path holds a permanent key or an erased mark, its value is there, and no key is live in two cells |
| `AtomicHashArrayTheorems.InsertTakesEffect` | folly/AtomicHashArray-inl.h:130-140 | at the step that publishes a key the key is live nowhere, and then is in that cell with its value |
| `AtomicHashArrayTheorems.FullIsFinal` | folly/AtomicHashArray-inl.h:98-187 | once an insert is told the array is full, its key is not live and no key becomes live ever after |
| `AtomicHashArrayTheorems.FindMissIsJustified` | folly/AtomicHashArray-inl.h:50-71 | a find that misses had a moment during the call when the key was not live |
| `AtomicHashArrayTheorems.EraseMissIsJustified` | folly/AtomicHashArray-inl.h:203-243 | the same for an erase that erases nothing, although it also stops at locked cells |
| `AtomicHashArrayTheorems.SizeIsExact` | folly/AtomicHashArray.h:177-182 | entries minus erases is the number of live keys minus the inserts and plus the erases not counted yet |
| `AtomicHashArrayCalls.InsertAnswers` | folly/AtomicHashArray-inl.h:89-188 | insert(k, v): true has a step of the call, by its own thread, that made k, live nowhere, live with value v; false with a cell, an instant when that cell held k with a value; full, that k is not there and never will be, and that maxEntries_ entries were made or no cell is left; an exception, that the constructor threw |
| `AtomicHashArrayCalls.FindAnswers` | folly/AtomicHashArray-inl.h:50-71 | find(k): a hit has an instant of the call when the cell held k with a value, a miss one when k was not live |
| `AtomicHashArrayCalls.EraseAnswers` | folly/AtomicHashArray-inl.h:203-243 | erase(k): 1 has a step of the call that erased k and no other key, 0 an instant when k was not live |
| `AtomicHashMapProof.NextInv` | folly/AtomicHashMap-inl.h:79-234 | every step of the submap chain, including its growth, keeps the chain's invariant |
| `AtomicHashMapTheorems.KeyLivesOnce` | folly/AtomicHashMap-inl.h:79-149 | at every moment a key is live in at most one cell of all published submaps |
| `AtomicHashMapTheorems.InsertTakesEffect` | folly/AtomicHashMap-inl.h:79-149 | a published key was live in no submap |
| `AtomicHashMapTheorems.MissIsJustified` | folly/AtomicHashMap-inl.h:179-234 | a find or erase over the whole chain that reports a miss had a moment during the call when the key was live nowhere |
| `AtomicHashMapCalls.InsertAnswers` | folly/AtomicHashMap-inl.h:79-149 | insert(k, v) on the chain: true has a step of the call in which k, live in no submap, became live in one with value v; false, an instant when a submap held k with a value; it throws only if the constructor threw, or if k is dead in every submap, each of them with maxEntries_ entries or no cell left, and no more submaps can be made |
| `AtomicHashMapCalls.FindAnswers` | folly/AtomicHashMap-inl.h:179-196 | find(k): a hit has an instant of the call when a submap held k with a value, a miss one when k was live nowhere |
| `AtomicHashMapCalls.EraseAnswers` | folly/AtomicHashMap-inl.h:224-234 | erase(k): 1 has a step of the call that erased k in one submap, 0 an instant when k was live nowhere |
| `AtomicHashMapTheorems.IndexRoundTrip` | folly/AtomicHashMap-inl.h:319-329 | an encoded position decodes to itself if and only if offset and submap have their documented widths |
| `IndexedMemPoolProof.NextInv` | folly/IndexedMemPool.h:306-394 | every step of allocIndex and recycleIndex keeps the pool's invariant |
| `IndexedMemPoolTheorems.OnePlacePerIndex` | folly/IndexedMemPool.h:306-394 | every constructed index is in exactly one place: with a caller, in one local list, in one global sublist, or in flight with one thread |
| `IndexedMemPoolTheorems.GrantIsExclusive` | folly/IndexedMemPool.h:355-394 | an index is granted only while nobody owns it |
| `IndexedMemPoolTheorems.AllocatedIffOwned` | folly/IndexedMemPool.h:191-194 | for an index no thread has in flight, isAllocated is true just if a caller owns it |
| `IndexedMemPoolTheorems.LocalListsAreExact` | folly/IndexedMemPool.h:318-340 | following a local head for as many links as its size field says visits exactly its list, which is no longer than the limit |
| `IndexedMemPoolTheorems.GlobalListIsExact` | folly/IndexedMemPool.h:306-352 | the global links chain exactly the sublists, and every sublist has LocalListLimit + 1 nodes |
| `IndexedMemPoolTheorems.RememberedSlotsExist` | folly/IndexedMemPool.h:289-294 | the slot a thread reads after loading a head, however stale, is a constructed one |
| `IndexedMemPoolTheorems.ZeroOnlyAtCapacity` | folly/IndexedMemPool.h:134-146 | a call with no other in progress returns 0 only if at least capacity() indices are allocated |
| `IndexedMemPoolCalls.OwnershipStep` | folly/IndexedMemPool.h:143-161 | a step changes the owned indices only by beginning to recycle an owned one or by granting one nobody owns |
| `IndexedMemPoolCalls.OwnedUntilRecycled` | folly/IndexedMemPool.h:143-161 | an owned index stays owned until its recycling begins |
| `IndexedMemPoolCalls.RecycleGivesBack` | folly/IndexedMemPool.h:158-161 | recycleIndex(idx) takes idx and only idx from the owned ones when it begins, and by its end has pushed idx on its local list, which had room, or moved that full list with idx on top to the global list; until then nobody owns idx |
| `IndexedMemPoolCalls.AllocGrants` | folly/IndexedMemPool.h:355-394 | allocIndex that returns an index took it from the top of its local list, from the top of a global sublist whose rest refilled its empty local list, or constructed the next slot, and then granted it, unowned, to the caller |
| `IndexedMemPoolCalls.AllocFails` | folly/IndexedMemPool.h:355-394 | allocIndex that returns 0 found, one after the other, its local list empty, the global list empty and every slot constructed |
| `IndexedMemPoolTheorems.CapacityIsKept` | folly/IndexedMemPool.h:93-101 | the capacity asked for is the one reported if and only if all slots can be numbered |
| `IndexedMemPoolTheorems.CapacityCanBeLost` | folly/IndexedMemPool.h:93-101 | with the default lists the largest 32-bit capacity is reported as 6201 less |
| `FBString.StringHeap.Create` | folly/FBString.h:384-436 | the new string has the given value, is small, medium or large just by its length, and no other string changes |
| `FBString.StringHeap.Copy` | folly/FBString.h:324-367 | the copy has the value of its source; a large one shares the block |
| `FBString.StringHeap.Move` | folly/FBString.h:369-379 | the target takes the value; a medium or large source is left empty |
| `FBString.StringHeap.Destroy` | folly/FBString.h:438-448 | exactly this string goes, and with it the block if it was the last user |
| `FBString.StringHeap.MutableData` | folly/FBString.h:491-511 | no value changes and the buffer is not shared afterwards |
| `FBString.StringHeap.SetAt` | folly/FBString.h:491-511 | writing a character through it changes that character of that string only |
| `FBString.StringHeap.CStr` | folly/FBString.h:513-541 | the terminator is in place, also in a block others share, and no value or reference count changes |
| `FBString.StringHeap.Shrink` | folly/FBString.h:543-565 | the value loses its last characters, and sharers keep theirs |
| `FBString.StringHeap.Reserve` | folly/FBString.h:567-658 | no value changes, there is room in an unshared buffer, and nothing moves if there was; if not, the capacity does not shrink, and the new buffer is large just if the old one was or more than a medium string must fit |
| `FBString.StringHeap.ExpandNoInit` | folly/FBString.h:660-687 | the old value is a prefix of the new one of the new size, in an unshared buffer |
| `FBString.StringHeap.PushBack` | folly/FBString.h:689-714 | the value gains one character |
| `FBString.StringHeap.AppendFrom` | folly/FBString.h:1342-1377 | the value gains a part of any string, itself included, though the buffer it is read from may move |
| `FBString.StringHeap.AppendText` | folly/FBString.h:1342-1377 | the same for characters outside every string |
| `FBStringPrograms.ExecuteOne` | folly/FBString.h:771-836 | after any operation every reference count is the number of strings that use the block, these agree on size, capacity and block, a medium block has one user and no block has none; and a block is gone if and only if the operation took away its last user |
| `FBStringPrograms.Execute` | folly/FBString.h:313-878 | any sequence of these operations on any number of strings does what it would do on plain values, step by step, with exact counts at every moment and blocks freed exactly with their last user |
| `SpookyShort.Short` | folly/SpookyHashV1.cpp:40-140 | the unrolled loop and the fall-through switch compute the hash over little-endian words with the length in the top byte |
| `SpookyHash.Hash128` | folly/SpookyHashV1.cpp:146-206 | the loop over blocks and the padded buffer compute the specified hash, which the rows of `SpookyInput` describe |
| `SpookyHash.SpookyHashV1.Init` | folly/SpookyHashV1.cpp:211-217 | starts the empty message with the seeds |
| `SpookyHash.SpookyHashV1.Update` | folly/SpookyHashV1.cpp:221-321 | appends any fragment to the message the object stands for |
| `SpookyHash.SpookyHashV1.Final` | folly/SpookyHashV1.cpp:325-371 | gives the one-shot hash of the message and leaves the object standing for it, although it writes into the buffer |
| `SpookyHash.HashFragments` | folly/SpookyHashV1.h:107-117 | for every way of cutting a message, a Final after each Update gives the one-shot hash of the fragments so far |
| `SpookyInput.LongHashMixesBlocks` | folly/SpookyHashV1.cpp:146-206 | from 192 bytes on, the hash is what the blocks of the message, the padded rest last, make of the seeded state |
| `SpookyInput.LastBlockTellsRest` | folly/SpookyHashV1.cpp:195-199 | the padding with zeros and the length loses nothing |
| `SpookyInput.BlocksTellMessage` | folly/SpookyHashV1.cpp:172-199 | the sequence of blocks handed to Mix determines the message |
| `SpookyInput.ShortHashFeedsWords` | folly/SpookyHashV1.cpp:40-140 | below 192 bytes, the hash is what the words of the message, each once and in order, and then the rest with the length, make of the seeded state |
| `SpookyInput.TailTellsRest` | folly/SpookyHashV1.cpp:94-136 | the two last words determine the rest and the length modulo 256, although an empty rest adds sc_const where the length is |
| `SpookyInput.ShortInputTellsMessage` | folly/SpookyHashV1.cpp:68-136 | the words and the two last words determine a message of under 192 bytes |
| `SpookyInput.SeedsHaveTheirPlaces` | folly/SpookyHashV1.cpp:169-171 | each seed has its own places in the two start states |
| `RWSpinLock.NextInv` | folly/RWSpinLock.h:145-256 | every fetch_add, fetch_or and compare-and-swap of every operation keeps the lock word's invariant |
| `RWSpinLock.WordIsExact` | folly/RWSpinLock.h:145-256 | the reader field counts held and transient readers, WRITER is set just if a writer holds, UPGRADED is set only with an upgrader or writer, and the word is 0 when nobody is in |
| `RWSpinLock.LocksExclude` | folly/RWSpinLock.h:145-256 | beside a writer only transient readers, beside an upgrader only readers |
| `RWSpinLock.ReleasesAreEnabled` | folly/RWSpinLock.h:145-256 | what a release subtracts or clears is set in the word |
| `RWSpinLock.TryLockOutcome` | folly/RWSpinLock.h:217-221 | try_lock takes the lock if and only if nobody is in |
| `RWSpinLock.TryLockSharedOutcome` | folly/RWSpinLock.h:229-238 | try_lock_shared makes a reader if and only if there is no writer and no upgrader |
| `RWSpinLock.TryLockUpgradeOutcome` | folly/RWSpinLock.h:248-256 | try_lock_upgrade makes an upgrader if and only if there is no writer and no upgrader |
| `RWSpinLock.UpgradeOutcome` | folly/RWSpinLock.h:241-245 | the upgrader becomes the writer if and only if nobody else is in |
| `RWSpinLock.ReleaseOutcome` | folly/RWSpinLock.h:159-192 | after unlock, unlock_and_lock_shared and unlock_upgrade no flag is left in the word |
| `RWSpinLock.MoveOutcome` | folly/RWSpinLock.h:172-213 | the other releases and downgrades end with their thread, and nobody else, where they say |
| `RWTicketSpinLock.CountersAreExact` | folly/RWSpinLock.h:484-642 | modulo 2^k, read minus write is the number of readers, and users minus read the number of writers holding or queued |
| `RWTicketSpinLock.WritersExclude` | folly/RWSpinLock.h:546-572 | beside a holding writer there is no reader and no other writer, and every queued one has a later ticket |
| `RWTicketSpinLock.UnlockLosesNothing` | folly/RWSpinLock.h:594-610 | the half-word store of unlock advances write and read and keeps the users others added since the load |
| `RWTicketSpinLock.PollOutcome` | folly/RWSpinLock.h:560-572 | a queued writer enters if and only if every ticket before its own has been given up |
| `RWTicketSpinLock.TryLockOutcome` | folly/RWSpinLock.h:546-552 | try_lock takes the lock, which is free then, if and only if it was free at the load and the word has not changed |
| `RWTicketSpinLock.TryLockSharedOutcome` | folly/RWSpinLock.h:623-638 | try_lock_shared makes a reader only with no writer in, and fails only if a writer was in at the load or the word has changed |
| `RWTicketSpinLock.ReleaseOutcome` | folly/RWSpinLock.h:589-642 | unlock gives up the ticket, the downgrade keeps it as a reader, unlock_shared gives up one |
| `RWTicketSpinLock.BuildsAgree` | folly/RWSpinLock.h:623-638 | the two ways try_lock_shared computes the new word agree just if the loaded one showed no writer |
| `RWTicketSpinLock.SharedSwapIsExact` | folly/RWSpinLock.h:623-638 | after the swap the counters match the readers and writers if and only if it is not one computed, without SSE2, from a word that showed a writer |
| `RWTicketSpinLock.ParallelIsClean` | folly/RWSpinLock.h:623-638 | the SSE2 build has no such swap in any run |
| `RWTicketSpinLock.ScalarBuildCanLoseCount` | folly/RWSpinLock.h:623-638 | for every counter width the other build has a run that ends with one reader, no writer, and counters that claim a writer |
| `GroupVarint.KeyIsKey` | folly/GroupVarint.h:234-237 | counting leading zeros gives one less than the bytes a value needs |
| `GroupVarint.PartialSize` | folly/GroupVarint.h:89-96 | the size of a group clipped after the given values |
| `GroupVarint.Encode` | folly/GroupVarint.h:130-145 | overlapping whole-word stores leave header and values in as few bytes as they need |
| `GroupVarintCodec.Encoder.Add` | folly/GroupVarint.h:441-448 | adds one value to the list the output and the buffer stand for |
| `GroupVarintCodec.Encoder.Finish` | folly/GroupVarint.h:455-467 | the output is the encoding of all values added, and the encoder is ready for more |
| `GroupVarintCodec.Decode` | folly/GroupVarint.h:161-179 | on any bytes, each value is cut out where the lengths before it put it |
| `GroupVarintCodec.PartialCount` | folly/GroupVarint.h:102-114 | on any header and size, the largest number of values that end within the size |
| `GroupVarintCodec.ClippedGroupDecodes` | folly/GroupVarint.h:83-96 | the values of a clipped group are found whatever bytes come next, and no further one just if none comes |
| `GroupVarintCodec.ValuesAreShort` | folly/GroupVarint.h:555-574 | values read from any bytes need no more bytes than were read, and just as many if and only if every one of them needs all the bytes its length says |
| `GroupVarintCodec.StopIsExactIffTight` | folly/GroupVarint.h:559-574 | stopped by the limit inside a group, the decoder is behind the last value it returned if and only if these values were encoded tightly |
| `GroupVarintCodec.GroupsAreTight` | folly/GroupVarint.h:130-145 | groups made by the encoder are tight, so there the decoder stops where the next value starts |
| `GroupVarintDecoder.LooseStop` | folly/GroupVarint.h:559-574 | six bytes on which it stops one byte early |
| `GroupVarintDecoder.Decoder.Next` | folly/GroupVarint.h:531-582 | on any bytes, returns the first of the values to come and drops it, or false just if there is none, across groups, clipped groups and the copy to tmp_ |
| `GroupVarintDecoder.Decoder.Rest` | folly/GroupVarint.h:584-591 | the bytes of the original data behind the decoded values |
| `GroupVarintDecoder.DecodeAll` | folly/GroupVarint.h:496-603 | on any bytes and any limit, the decoder's values and rest are those of the specification |
| `GroupVarintDecoder.DecodingOfEncoded` | folly/GroupVarint.h:441-591 | the specification takes the encoding of any list, then any bytes, with the list's length as limit, to the list and those bytes |
| `GroupVarintDecoder.DecodingOfSome` | folly/GroupVarint.h:531-591 | with a limit up to the list's length, it gives that many values and all bytes behind their encoding |
| `GroupVarintDecoder.RoundTrip` | folly/GroupVarint.h:423-603 | encoding any list of numbers and decoding it, with any bytes behind, gives back the list and the bytes |
| `Conv.Digits10` | folly/Conv.h:190-201 | the number of decimal digits |
| `Conv.ToBuffer` | folly/Conv.h:216-233 | writes exactly the decimal digits, most significant first, and nothing behind them |
| `Conv.MaxStringIsMax` | folly/Conv.h:740-743 | the table of maxima holds the maximum of each width |
| `Conv.DigitsTo` | folly/Conv.h:721-787 | accepts a digit string just if it is not empty and its value fits, any number of leading zeros included, and returns that value |
| `Conv.PrintAndParse` | folly/Conv.h:190-233 | parsing what was printed gives the number back |
| `ConvParse.SignTellsRange` | folly/Conv.h:819-829 | the sign of the converted or negated value tells whether it fits the signed type |
| `ConvParse.ToSignedWhole` | folly/Conv.h:812-830 | accepts exactly the representable range, with either sign, and returns the value |
| `ConvParse.Parse` | folly/Conv.h:842-890 | spaces, sign, digits: the value and the rest of the text, or the error, of the specification |
| `ConvParse.SpaceIsExact` | folly/Conv.h:849-853 | the spaces skipped are the six white-space characters of the "C" locale |
| `ConvParse.ParseOfText` | folly/Conv.h:842-890 | any white space, an optional sign for signed targets, digits and anything but a digit: the number and what follows if it is in range, else an error with nothing consumed |
| `ConvParse.ParseOfPrinted` | folly/Conv.h:842-890 | parsing a printed number followed by anything but a digit gives the number and what followed |
| `ConvParse.ToAppend` | folly/Conv.h:345-353 | the negation in 64 bits prints a minus sign and the digits of the absolute value, the smallest number included, in a buffer of 20 |
| `ConvParse.PrintAndParseSigned` | folly/Conv.h:345-353 | printing a signed number and parsing the text, whatever follows it, gives the number and what followed |
| `Search.QFind` | folly/Range.h:757-811 | the loop with its lazily computed skip computes the specified search |
| `Search.FindIsLeast` | folly/Range.h:757-811 | for a right Euclidean equality the search finds the least match at or after a position, or none just if there is none |
| `Search.QFindIsRightIffEuclidean` | folly/Range.h:757-811 | it does so for all inputs if and only if the equality is right Euclidean |
| `Search.MissedMatch` | folly/Range.h:757-811 | an input on which any other equality misses a match |
| `Search.FBFind` | folly/FBString.h:1796-1849 | the least match at or after pos or npos, 64-bit wrap-around included; for an empty needle, pos, which is right just if pos is within the string or is npos itself |
| `Search.EmptyNeedleBeyondEnd` | folly/FBString.h:1798-1799 | an empty needle at position 1 of an empty string is found at 1, which is no position of it |

## Left out

- Memory orders, inline assembly, futex and mmap system calls, spinning and yielding, cache-line padding.
- Skip list: accessors, iterators, `Skipper`, the recycler and reference counts; nodes are never freed in the model.
- Random heights and growth limits of the skip list and growth sizes of `AtomicHashMap`: floating point; any choice in the model.
- Queue destruction, `sizeGuess`, and exceptions from element constructors.
- TicketStride: `ticket * stride` does not wrap; the code computes it in 64 bits.
- `AtomicHashArray` and `AtomicHashMap`: `clear`, iterators, and value changes through them; equality of keys is identity.
- IndexedMemPool: 24-bit tags and the 32-bit `size_` do not overflow; element construction and `locateElem` are not modelled.
- RWSpinLock: the reader field is unbounded.
- `fbstring_core`: the constructor that adopts a malloc-ed buffer, `swap`, the conservative and perverse builds, allocation failure, and concurrent use of shared blocks.
- SpookyHashV1: the 64-bit arithmetic inside `Mix`, `End`, `ShortMix` and `ShortEnd`, and a message length beyond 64 bits.
- `GroupVarint`: the SSSE3 decoder and its tables, and reads past the end of the caller's data; `size` and `encodedSize`.
- `Conv`: floating point, enumerations, string concatenation, and the text of errors.
- The rest of folly: `FBVector`, `Format`, `SpookyHashV2`, `Fingerprint`, `Checksum`, `TimeoutQueue`, `ProducerConsumerQueue`, `Baton`, `Arena`, `Optional` and others would only add easier members.
