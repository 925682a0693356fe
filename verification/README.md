# Verified model of simpleTSDB

simpleTSDB is a small time-series database. Metrics arrive over telnet and HTTP, pass through a
lock-free multi-producer queue (`thirdparty/moodycamel`), and are written by one thread into one
database per metric name; queries are translated to SQL and their results downsampled. This project
models that path, and the asynchronous log pool it logs through, in Dafny, and proves what the code
argues for in comments and asserts, or what its callers rely on.

* **Concurrent parts** (free list, dequeue counters, block index and blocks, producer hash, log pool,
  datastore with producers) are transition systems: one atomic operation of one thread is one step,
  under sequential consistency, with any number of threads and any interleaving. Each has an inductive
  invariant stated with a witness that is not part of the state; main results hold in every reachable
  state.
* **Sequential parts** (the implicit producer run by one thread at a time, ring buffer, bulk dequeue,
  downsampler, splitter, SQL builder, query translation, command line, the datastore's own loops) are
  imperative: classes and loops over arrays, each proved against a specification function about which the
  properties are then proved.

How the files build on each other:

| files | what they model |
|---|---|
| `FreeList` | the CAS list of blocks with its reference word |
| `DequeueCounters` | who gets which indices: optimistic count, overcommit, head, tail |
| `BlockQueue`, `BlockQueueProof`, `BlockQueueConsumer`, `BlockQueueProducer`, `BlockQueuePublish`, `BlockQueueRuns`, `BlockQueueBlocks`, `BlockQueueCells`, `BlockQueueReuse`, `BlockQueueProgress` | blocks, the growable circular block index, `enqueue_bulk` with its undo, consumers at work in their ranges |
| `ProducerQueue` | counters and blocks joined: refinement of an unbounded FIFO queue |
| `ZeroDequeue` | what a bulk dequeue of zero elements does to it |
| `BlockIndex`, `ProducerBlocks`, `ImplicitProducer` | the same producer as objects in memory: block and entry objects, the index array and its doubling copy, all four operations and the undo loop, with the exact condition on which an enqueue succeeds |
| `ProducerHash`, `ProducerHashProof`, `ProducerHashSteps`, `ProducerHashRuns`, `ProducerHashCalls` | the chained, resizing table from thread ids to producers |
| `TokenBulk` | both forms of bulk dequeue over all producers |
| `CircularQ`, `LogPool`, `LogPoolProof`, `LogPoolRuns` | the bounded log queue, the worker pool and its shutdown |
| `Downsampler` | greedy bucketing and aggregation |
| `Utility`, `SqlCondition`, `SelectModel`, `Query`, `QueryMeaning`, `QueryFields` | splitting, the SQL builder, the filter language and what its translation means |
| `CommandLine` | the in-place argument splitter and the quoting it undoes |
| `Metric`, `Datastore`, `DatastoreRuns` | the write path: backlog accounting and exactly-once drain |
| `Counting`, `Modular` | minimum, sums, the pigeonhole principle, remainders |

Five results show that the code does less than one might expect, each with the exact condition:

* a bulk dequeue of zero elements, which no guard stops, may be granted the empty range at the head and then
  looks up a block that need not exist (`ZeroDequeue.ZeroCrashes`); the blocks are right in all runs exactly
  if no dequeue asks for zero (`ZeroDequeue.SafeWithoutZero`), and the datastore's always ask for ten;
* a filter whose value part is empty (`k==`) makes the query's condition unparsable, because that branch
  emits no "and" (`QueryMeaning.TranslationIsRight`, `QueryMeaning.EmptyValueIsNotRight`);
* downsampling no points with interval 0 reads the first point of an empty vector
  (`Downsampler.DecimateIsIdempotent`);
* the reported backlog can be 2^64 - 1, because a metric is counted only after it is enqueued
  (`DatastoreRuns.BacklogCanWrap`); it has wrapped exactly when more metrics are uncounted than are in
  the system (`DatastoreRuns.BacklogWraps`);
* a quote inside an argument is not printed in a way the splitter can undo (`CommandLine.RoundTrip`).

`dafny verify dfyconfig.toml` with a resource limit of 2000000 checks the whole project.

## Model

| member | source | states |
|---|---|---|
| FreeList.StepKeepsInv | thirdparty/moodycamel/concurrentqueue.h:1372-1451 | every atomic step of `add` and `try_get`, by any thread, keeps the list acyclic, each node in one of five places, and the reference word equal to those who refer to it |
| FreeList.OwnershipIsExclusive | thirdparty/moodycamel/concurrentqueue.h:1372-1423 | no two threads own a node, and an owned node is not on the list |
| FreeList.PoppedNodeIsExclusive | thirdparty/moodycamel/concurrentqueue.h:1403-1410 | after the head CAS the node is off the list and nobody else's, and the asserted flag is clear |
| FreeList.NextStableUnderReference | thirdparty/moodycamel/concurrentqueue.h:1395-1402 | no step of any thread changes the next pointer of a node while a reference to it is held |
| FreeList.PopInstallsSuccessor | thirdparty/moodycamel/concurrentqueue.h:1402-1403 | a successful pop removes exactly the first node: no ABA |
| FreeList.NothingIsLost | thirdparty/moodycamel/concurrentqueue.h:1372-1451 | with no operation in flight every node is on the list once or owned |
| FreeList.CountFits | thirdparty/moodycamel/concurrentqueue.h:1457-1458 | the 31-bit count never carries into the flag, for fewer than 2^31 - 1 threads |
| FreeList.LoneTryGet | thirdparty/moodycamel/concurrentqueue.h:1391-1423 | from every reachable state with all threads idle, a `try_get` that runs alone returns owning the first node, the list keeps the rest, and nothing else changes; it returns without one exactly if the list is empty |
| FreeList.LoneAdd | thirdparty/moodycamel/concurrentqueue.h:1372-1383 | an `add` that runs alone puts its node in front of the list |
| FreeList.NullOnlyIfEmpty | thirdparty/moodycamel/concurrentqueue.h:1396-1423 | among others, `try_get` comes to return null only if one of its own loads found the head null |
| FreeList.ReturnsWithNode | thirdparty/moodycamel/concurrentqueue.h:1403-1413 | and leaves otherwise only as the owner of the node it took |
| DequeueCounters.StepKeepsInv | thirdparty/moodycamel/concurrentqueue.h:2470-2540 | every step of single and bulk dequeues and of the producer keeps the balance of the counters against the log of claims |
| DequeueCounters.BoundedKept | thirdparty/moodycamel/concurrentqueue.h:1886-1976 | a claim that keeps something ends, with all that stands before it, below the tail |
| DequeueCounters.HeadNeverPassesTail | thirdparty/moodycamel/concurrentqueue.h:2705-2715 | the head and everything decided to be taken stay within the tail |
| DequeueCounters.ClaimsBalance | thirdparty/moodycamel/concurrentqueue.h:1672-1676 | optimistic = head + overcommit + claims in flight |
| DequeueCounters.OvercommitNotAboveClaim | thirdparty/moodycamel/concurrentqueue.h:2479-2480 | the code's assert that the overcommit read is not above the count got |
| DequeueCounters.GrantsAreDisjoint | thirdparty/moodycamel/concurrentqueue.h:2483-2483 | granted ranges are disjoint, lie end to end, and never exceed the tail in total |
| DequeueCounters.LoneDequeue | thirdparty/moodycamel/concurrentqueue.h:2693-2793 | with no other dequeue in flight a dequeue gets all that is there up to its maximum, zero included, and leaves no trace when nothing is |
| DequeueCounters.FailedDequeue | thirdparty/moodycamel/concurrentqueue.h:2693-2790 | a dequeue that fails among others does so only when every element published was taken, is claimed by another in flight, or was claimed and given back since it read the overcommit |
| DequeueCounters.CircularLess | thirdparty/moodycamel/concurrentqueue.h:406-417 | the 64-bit comparison agrees with `<` exactly when -2^63 < a - b <= 2^63 |
| BlockQueueProof.SlotForBlock | thirdparty/moodycamel/concurrentqueue.h:2862-2872 | from any slot and the key standing in it the same slot is computed for a block |
| BlockQueueProof.PushRinged | thirdparty/moodycamel/concurrentqueue.h:2821-2828 | storing a key keeps the current index a ring of consecutive blocks, whether it fills a slot or reuses the oldest |
| BlockQueueProof.PushKeyed | thirdparty/moodycamel/concurrentqueue.h:2821-2828 | and keeps every superseded index consistent, in which a consumer may still look up |
| BlockQueueProof.GrownRinged | thirdparty/moodycamel/concurrentqueue.h:2875-2917 | growing copies the ring in order into the new index |
| BlockQueueConsumer.LookupFindsBlock | thirdparty/moodycamel/concurrentqueue.h:2857-2873 | a consumer's computed slot is its block's, for whatever valid key it read |
| BlockQueueConsumer.ConsumerKeepsInv | thirdparty/moodycamel/concurrentqueue.h:2715-2783 | every step of a consumer keeps the invariant |
| BlockQueueProducer.GrowKeeps | thirdparty/moodycamel/concurrentqueue.h:2832-2841 | publishing the larger index keeps the invariant, whatever consumers did since the slot was found in use |
| BlockQueueProducer.ClearKeeps | thirdparty/moodycamel/concurrentqueue.h:2580-2590 | the undo clears exactly the entries this operation inserted |
| BlockQueuePublish.PublishKeeps | thirdparty/moodycamel/concurrentqueue.h:2688-2689 | storing the tail makes all constructed elements live at once |
| BlockQueueRuns.StepKeepsInv | thirdparty/moodycamel/concurrentqueue.h:2406-2793 | every step of the producer and of every consumer, except granting an empty range, keeps the invariant of blocks, index and counts; the index found full stays so until the larger one is published |
| BlockQueueRuns.NoConsumerCrashes | thirdparty/moodycamel/concurrentqueue.h:2486-2490 | no consumer follows a null block or reads an element that is not there, in every run whose dequeues each ask for at least one element |
| BlockQueueRuns.LookupIsRight | thirdparty/moodycamel/concurrentqueue.h:2871-2872 | the entry found has the block base as key and a live block holding the element, as the code asserts, in every run whose dequeues each ask for at least one element |
| BlockQueueRuns.ReadsInOrder | thirdparty/moodycamel/concurrentqueue.h:2717-2785 | a consumer granted first..end reads exactly the elements enqueued there |
| BlockQueueRuns.CountsFitTheBlock | thirdparty/moodycamel/concurrentqueue.h:1510-1547 | elementsCompletelyDequeued never exceeds the block size |
| BlockQueueRuns.DrainedBlockIsUnused | thirdparty/moodycamel/concurrentqueue.h:2771-2781 | when a block's count is complete nobody holds an index into it |
| BlockQueueCells.FreedBlockIsEmpty | thirdparty/moodycamel/concurrentqueue.h:2771-2781 | a block that is taken out of the index and given back holds no element: all have been moved out |
| BlockQueueRuns.BlockIsFreedOnce | thirdparty/moodycamel/concurrentqueue.h:2776-2780 | a block a consumer is about to give back is not on the free list, not in the producer's chain, in no other consumer's hands, and no keyed entry of the index points to it, in every run whose dequeues each ask for at least one element |
| BlockQueueRuns.UndoneBlockIsFreedOnce | thirdparty/moodycamel/concurrentqueue.h:2584-2591 | the same of each block that a failed bulk operation gives back |
| BlockQueueRuns.EnqueueIsAllOrNothing | thirdparty/moodycamel/concurrentqueue.h:2543-2690 | whatever allocation fails and whatever consumers do meanwhile, all items are appended in order, or queue and tail block are as before |
| BlockQueueRuns.RestState | thirdparty/moodycamel/concurrentqueue.h:2580-2592 | between operations, undone or not, the index tail is in step with the published blocks and no entry is set beyond them |
| BlockQueueRuns.HeadIsBehindNewBlock | thirdparty/moodycamel/concurrentqueue.h:2574-2576 | the code's assert that the head is not past the block being allocated |
| BlockQueueBlocks.NoBlockIsLost | thirdparty/moodycamel/concurrentqueue.h:2577-2594 | between operations every block is pooled, indexed or being given back: an undone operation freed all it took |
| BlockQueueReuse.BlockIsKeptOnlyIfWanted | thirdparty/moodycamel/concurrentqueue.h:2771-2781 | a block stays in the index only for an element of it that is not yet granted or not yet counted, or until the consumer that took its last one has unlinked it |
| BlockQueueReuse.QuietBlocksHoldElements | thirdparty/moodycamel/concurrentqueue.h:2771-2781 | with nobody at work each block out of the pool starts before the tail and ends beyond the head, so an emptied queue keeps at most one |
| BlockQueueProgress.GoesOn | thirdparty/moodycamel/concurrentqueue.h:2543-2594 | an operation is turned back only by an allocation that fails: not by a full index, which is enlarged, nor by the head |
| BlockQueueProgress.EnqueueSucceeds | thirdparty/moodycamel/concurrentqueue.h:2543-2690 | if every allocation in it succeeds, an enqueue that ends has appended its items, whatever consumers do meanwhile |
| BlockQueueProgress.ProducerFinishes | thirdparty/moodycamel/concurrentqueue.h:2543-2690 | the producer can always go on, and each of its steps lessens the work left in its operation, which no consumer adds to |
| BlockQueueProgress.ConsumerFinishes | thirdparty/moodycamel/concurrentqueue.h:2715-2783 | a consumer at work can always go on and each step brings it closer to the end of its range; no other thread sets it back |
| ProducerQueue.TakeIsGrantable | thirdparty/moodycamel/concurrentqueue.h:2713-2715 | what the counters grant has been published |
| ProducerQueue.StepRefinesFifo | thirdparty/moodycamel/concurrentqueue.h:2406-2793 | every step of every thread leaves the abstract queue alone, appends a whole enqueue, or takes a front part promised to that consumer |
| ProducerQueue.PromiseIsStable | thirdparty/moodycamel/concurrentqueue.h:2483-2532 | nothing any thread does changes what a consumer was promised |
| ProducerQueue.DeliveredAsPromised | thirdparty/moodycamel/concurrentqueue.h:2717-2785 | the consumer hands out exactly what it was promised |
| ZeroDequeue.ZeroCrashes | thirdparty/moodycamel/concurrentqueue.h:2693-2790 | a run in which one bulk dequeue of zero elements, among any positive ones, makes a consumer follow a block pointer that was never set |
| ZeroDequeue.SafeWithoutZero | thirdparty/moodycamel/concurrentqueue.h:2693-2790 | for dequeues that ask for numbers of elements from any set with a positive one in it, no run makes a consumer crash if and only if zero is not in the set |
| BlockIndexes.BlockIndex.NewBlockIndex | thirdparty/moodycamel/concurrentqueue.h:2875-2917 | the copied slots keep their order behind as many fresh ones, and the tail stands on the newest old slot |
| BlockIndexes.BlockIndex.Insert | thirdparty/moodycamel/concurrentqueue.h:2815-2842 | the oldest slot is used exactly if it is usable, else the index doubles exactly if memory allows; no other entry changes |
| BlockIndexes.BlockIndex.Find | thirdparty/moodycamel/concurrentqueue.h:2857-2873 | the slot computed by signed division from the key in the tail slot is that many places around the ring, forwards too, as the undo loop needs |
| ProducerBlocks.Growths | thirdparty/moodycamel/concurrentqueue.h:2832-2841 | the least number of doublings that makes room |
| ProducerBlocks.AffordStep | thirdparty/moodycamel/concurrentqueue.h:2577-2577 | what one more block costs, in index growth and in blocks |
| ProducerBlocks.BulkIsOneByOne | thirdparty/moodycamel/concurrentqueue.h:2562-2594 | the blocks of a bulk operation are to be had exactly if they are when taken one at a time |
| ProducerBlocks.ListedRoom | thirdparty/moodycamel/concurrentqueue.h:2815-2842 | the slot after the tail is usable exactly if fewer blocks are live than there are slots, and growing keeps all of them listed |
| ProducerBlocks.UndoneStep | thirdparty/moodycamel/concurrentqueue.h:2585-2589 | clearing the oldest inserted entry while rewinding from the newest undoes one insertion, although the two meet |
| ProducerBlocks.UndoneEnd | thirdparty/moodycamel/concurrentqueue.h:2580-2592 | after as many undo turns as insertions the index lists just the blocks it listed before |
| ImplicitProducers.ImplicitProducer.constructor | thirdparty/moodycamel/concurrentqueue.h:2343-2349 | an empty queue, with an index only if it could be allocated |
| ImplicitProducers.ImplicitProducer.FindSlot | thirdparty/moodycamel/concurrentqueue.h:2850-2873 | the entry found has the index's block base as key and its block as value |
| ImplicitProducers.ImplicitProducer.AddBlock | thirdparty/moodycamel/concurrentqueue.h:2418-2432 | a new block is in the index and nothing else has changed, or nothing has changed but the size of the index |
| ImplicitProducers.ImplicitProducer.CountOut | thirdparty/moodycamel/concurrentqueue.h:2771-2781 | a block leaves the index and returns to the pool exactly when its last element was counted |
| ImplicitProducers.ImplicitProducer.Undo | thirdparty/moodycamel/concurrentqueue.h:2578-2594 | blocks and index are as before the operation, and all its blocks are back in the pool |
| ImplicitProducers.ImplicitProducer.Fill | thirdparty/moodycamel/concurrentqueue.h:2624-2689 | the walk along the chain constructs every item in its place and ends in the last block |
| ImplicitProducers.ImplicitProducer.Enqueue | thirdparty/moodycamel/concurrentqueue.h:2406-2469 | appends the element if and only if a block that it may need is to be had, else the queue is as before |
| ImplicitProducers.ImplicitProducer.EnqueueBulk | thirdparty/moodycamel/concurrentqueue.h:2543-2690 | appends all items in order if and only if memory lasts for the blocks beyond the pool and the index doublings; else contents, live blocks and tail block are as before and no pooled block is lost |
| ImplicitProducers.ImplicitProducer.Dequeue | thirdparty/moodycamel/concurrentqueue.h:2471-2540 | takes the oldest element, and none exactly if there is none |
| ImplicitProducers.ImplicitProducer.DequeueBulk | thirdparty/moodycamel/concurrentqueue.h:2692-2793 | takes the oldest min(max, size) elements in order, for every max including 0 |
| ProducerHashProof.EmptyEndsSearch | thirdparty/moodycamel/concurrentqueue.h:3316-3353 | an empty slot ends a probe: the id is not further on |
| ProducerHashRuns.StepKeepsInv | thirdparty/moodycamel/concurrentqueue.h:3293-3441 | every step of every call keeps the invariant |
| ProducerHashRuns.NewCapacityGrows | thirdparty/moodycamel/concurrentqueue.h:3366-3369 | the new capacity is a power of two, not smaller, and more than twice the count |
| ProducerHashRuns.TablesAreNeverFull | thirdparty/moodycamel/concurrentqueue.h:3313-3436 | in every table fewer than three quarters of the slots are ever used |
| ProducerHashRuns.ProbesEnd | thirdparty/moodycamel/concurrentqueue.h:3316-3430 | every probing loop ends before three quarters of the table |
| ProducerHashRuns.IdsAreUnique | thirdparty/moodycamel/concurrentqueue.h:3293-3441 | a thread id occurs at most once in a table |
| ProducerHashRuns.ProducersAreStableAndPrivate | thirdparty/moodycamel/concurrentqueue.h:3293-3441 | all calls of a thread return one producer, and no other thread gets it |
| ProducerHashRuns.SearchMissesNothing | thirdparty/moodycamel/concurrentqueue.h:3312-3357 | the chain visits every table, and a thread about to be counted is in none |
| ProducerHashRuns.CountIsExact | thirdparty/moodycamel/concurrentqueue.h:3357-3405 | with no call running the count is the number of ids in the tables, failed calls included |
| ProducerHashCalls.FailsOnlyWithoutMemory | thirdparty/moodycamel/concurrentqueue.h:3398-3406 | a call returns null only if an allocation in one of its own steps failed |
| ProducerHashCalls.NeverFailsAgain | thirdparty/moodycamel/concurrentqueue.h:3309-3353 | a thread that was given a producer never fails or makes another, and is given the same one again |
| ProducerHashCalls.LoneCall | thirdparty/moodycamel/concurrentqueue.h:3293-3441 | a call that runs alone and is given memory ends with a producer and the thread in the newest table, and makes a larger table exactly if the thread is new and its count reaches half |
| TokenBulk.ConcurrentQueue.TryDequeueBulk | thirdparty/moodycamel/concurrentqueue.h:1147-1157 | without a token: one round from the list's tail |
| TokenBulk.ConcurrentQueue.TryDequeueBulkToken | thirdparty/moodycamel/concurrentqueue.h:1165-1205 | with a token: output, what is left, the token's place and quota, and the rotation of all tokens |
| TokenBulk.ConcurrentQueue.Rest | thirdparty/moodycamel/concurrentqueue.h:1184-1204 | the loop whose bound moves ends, and takes just the rest of one round |
| TokenBulk.ConcurrentQueue.UpdateCurrentProducerAfterRotation | thirdparty/moodycamel/concurrentqueue.h:1305-1343 | the token's place after any number of rotations |
| TokenBulk.RoundTakesAll | thirdparty/moodycamel/concurrentqueue.h:1165-1205 | exactly min(max, all there is) elements are taken, wherever the round starts |
| TokenBulk.RoundKeepsOrder | thirdparty/moodycamel/concurrentqueue.h:1165-1205 | the output is contiguous front parts of the producers' elements; the rest of each is left in order |
| TokenBulk.StandsAtLastGiver | thirdparty/moodycamel/concurrentqueue.h:1172-1203 | after a round the token stands at the last producer that gave anything, with what that one gave, or has stayed and has what it took there added |
| TokenBulk.TokensAreSpread | thirdparty/moodycamel/concurrentqueue.h:1317-1325 | the first token starts at the oldest producer, and tokens whose offsets differ modulo the number of producers never stand at the same one, after equally many rotations |
| TokenBulk.RotationsAddUp | thirdparty/moodycamel/concurrentqueue.h:1328-1338 | one rotation moves a token one producer on, and missed rotations are made up for all at once |
| CircularQ.PushKeepsNewest | thirdparty/gabime/spdlog/include/spdlog/details/circular_q.h:26-36 | after any pushes the queue holds the newest elements up to its capacity |
| CircularQ.CircularQueue.PushBack | thirdparty/gabime/spdlog/include/spdlog/details/circular_q.h:26-36 | refines the bounded queue; pushed = popped + held + overrun is kept |
| CircularQ.CircularQueue.PopFront | thirdparty/gabime/spdlog/include/spdlog/details/circular_q.h:40-44 | takes the oldest element |
| CircularQ.CircularQueue.Empty | thirdparty/gabime/spdlog/include/spdlog/details/circular_q.h:46-49 | true exactly when nothing is held |
| CircularQ.CircularQueue.Full | thirdparty/gabime/spdlog/include/spdlog/details/circular_q.h:51-55 | true exactly when the next push would overrun |
| CircularQ.CircularQueue.OverrunCounter | thirdparty/gabime/spdlog/include/spdlog/details/circular_q.h:57-60 | what was pushed and is neither popped nor held |
| LogPoolProof.StepKeepsInv | thirdparty/gabime/spdlog/include/spdlog/details/mpmc_blocking_q.h:35-69 | every critical section and every notification keeps conservation, delivery and enough threads awake |
| LogPoolRuns.WorkerIsAlive | thirdparty/gabime/spdlog/include/spdlog/details/thread_pool.h:145-148 | while a terminate is left to post some worker is alive |
| LogPoolRuns.HandledExactlyOnce | thirdparty/gabime/spdlog/include/spdlog/details/thread_pool.h:196-234 | after destruction everything posted has left in order and every message not overrun was handled exactly once |
| LogPoolRuns.BlockingHandlesAll | thirdparty/gabime/spdlog/include/spdlog/details/thread_pool.h:184-194 | with the blocking policy every message posted has been handled |
| LogPoolRuns.OverrunOnlyWhenFull | thirdparty/gabime/spdlog/include/spdlog/details/mpmc_blocking_q.h:35-55 | a message is overrun only by a post that does not block on a full queue, and then it is the oldest; a post with room loses nothing |
| LogPoolRuns.OneTerminateEach | thirdparty/gabime/spdlog/include/spdlog/details/thread_pool.h:227-230 | each worker consumes exactly one terminate |
| LogPoolRuns.NeverStuck | thirdparty/gabime/spdlog/include/spdlog/details/mpmc_blocking_q.h:35-69 | no wakeup is lost: until destruction some thread can go on without timeouts or spurious wakeups |
| LogPoolRuns.ShutdownCompletes | thirdparty/gabime/spdlog/include/spdlog/details/thread_pool.h:141-158 | once nobody posts, the steps to the end are bounded and never blocked |
| Downsampler.Downsampler.Decimate | src/downsampler.cpp:60-153 | computes the specified buckets and aggregates, or faults |
| Downsampler.Downsampler.NextBucket | src/downsampler.cpp:94-145 | the inner loop stops at the first point an interval or more after the start |
| Downsampler.Downsampler.Avg | src/downsampler.cpp:155-172 | the mean of the range, 0 for none |
| Downsampler.Downsampler.Sum | src/downsampler.cpp:174-186 | the sum of the range |
| Downsampler.Downsampler.Min | src/downsampler.cpp:188-209 | the least value of the range |
| Downsampler.Downsampler.Max | src/downsampler.cpp:211-232 | the greatest value of the range |
| Downsampler.MinIsMin | src/downsampler.cpp:188-209 | what the loop computes is a value of the range and below all others |
| Downsampler.MaxIsMax | src/downsampler.cpp:211-232 | what the loop computes is a value of the range and above all others |
| Downsampler.BucketsPartition | src/downsampler.cpp:90-148 | the buckets partition any input, each narrower than the interval, each start an interval or more after the last |
| Downsampler.GreedyIsOptimal | src/downsampler.cpp:90-148 | no partition of sorted points into such runs has fewer |
| Downsampler.SumIsConserved | src/downsampler.cpp:60-153 | SUM points add up to the input's sum, whatever the interval |
| Downsampler.MinIsConserved | src/downsampler.cpp:60-153 | the least MIN point is the input's least value, whatever the interval |
| Downsampler.MaxIsConserved | src/downsampler.cpp:60-153 | the greatest MAX point is the input's greatest value, whatever the interval |
| Downsampler.AverageIsWithin | src/downsampler.cpp:60-172 | every AVG point lies within the range of its bucket, or of the whole input with interval 0 |
| Downsampler.NoMethodKeepsAll | src/downsampler.cpp:63-66 | without a method the points are handed on unchanged |
| Downsampler.PointsAreOfGroups | src/downsampler.cpp:69-148 | one point for each group, with the time of the group's first point and the average, sum, least or greatest of its values |
| Downsampler.OutputIsSpaced | src/downsampler.cpp:63-148 | for sorted points the output is an interval or more apart, so it is bounded by the time spanned; with interval 0 it is one point |
| Downsampler.DecimateIsIdempotent | src/downsampler.cpp:63-149 | downsampling again changes nothing, for any input with wrap-around; there is a fault exactly for no points and interval 0 |
| Utility.SplitString | src/utility.cpp:35-53 | the loop yields the specified pieces |
| Utility.SplitInvertsJoin | src/utility.cpp:35-53 | splitting undoes joining exactly for delimiter-free pieces with a last piece that is not empty |
| Utility.JoinInvertsSplit | src/utility.cpp:35-53 | joining undoes splitting up to a delimiter at the end |
| SelectModel.SelectModel.Str | thirdparty/six-ddc/sql-builder/sql.h:321-395 | the statement rendered from the parts |
| SelectModel.SelectModel.Append | thirdparty/six-ddc/sql-builder/sql.h:324-332 | the loop that puts a separator after all parts but the last |
| SelectModel.SelectModel.Select | thirdparty/six-ddc/sql-builder/sql.h:239-248 | appends the columns in order |
| SelectModel.SelectModel.Where | thirdparty/six-ddc/sql-builder/sql.h:267-270 | appends a condition |
| SelectModel.RenderedText | thirdparty/six-ddc/sql-builder/sql.h:321-395 | the statement with its keywords written out, each clause left out when empty |
| Query.Query.constructor | src/query.cpp:16-123 | statement, metric and downsampler for every query string, valid or not |
| Query.AddFilters | src/query.cpp:61-115 | one condition for each well-formed filter, in order |
| Query.FilterCondition | src/query.cpp:79-113 | the condition of one filter, with or without alternatives |
| QueryMeaning.LexConditions | src/query.cpp:84-113 | the emitted text as tokens |
| QueryMeaning.ParseFilters | src/query.cpp:79-113 | the filters are read as operands up to the first with an empty value part |
| QueryMeaning.TranslationIsRight | src/query.cpp:61-115 | the condition parses and means time range and, over well-formed filters, one of their alternatives, if and only if no filter has an empty value part |
| QueryMeaning.QueryIsRight | src/query.cpp:16-123 | the same for every quote-free query string that yields a statement |
| QueryMeaning.EmptyValueIsNotRight | src/query.cpp:16-123 | the query string on which it fails, through the whole translation |
| QueryFields.FieldsAreRead | src/query.cpp:24-120 | for every `a:m{f}` and `a:m{f}:d` the metric is m, the downsampler d or empty, and the statement that of a and the filters of f |
| QueryFields.OnlyWildcardsChange | src/query.cpp:67-67 | each asterisk becomes a percent sign and no other character changes |
| QueryFields.FilterMeans | src/query.cpp:64-115 | a filter `key=v|w` asks for one of its values, wildcards translated, under its key |
| QueryFields.WholeQueryMeans | src/query.cpp:16-123 | for every query spelled from its parts, the fields are these parts and the condition selects exactly the rows in the time range with one of the wanted values for each filter |
| QueryFields.StatementText | src/query.cpp:18-46 | the statement with its texts |
| CommandLine.CommandLineToArgv | src/win32service.cpp:416-518 | every write is inside the one allocation, and argv points at the NUL-terminated arguments |
| CommandLine.Split | src/win32service.cpp:456-509 | the character loop refines the specification step by step |
| CommandLine.Turn | src/win32service.cpp:458-508 | one turn of the loop, on flags, pointers and buffer |
| CommandLine.ArgumentsFit | src/win32service.cpp:440-446 | for every line: at most (len + 1) / 2 arguments and len + 1 bytes |
| CommandLine.RoundTrip | src/win32service.cpp:272-275 | splitting printed arguments gives them back exactly when none holds a quote |
| CommandLine.RoundTripWithGaps | src/win32service.cpp:482-493 | the same with any run of spaces, tabs and line ends between and around the arguments |
| CommandLine.ServiceStarts | src/win32service.cpp:272-275 | the service's own command line is split into program, option and file exactly when no path holds a quote |
| Datastore.Datastore.QueueMetric | src/datastore.cpp:65-69 | a metric is counted exactly when it was enqueued |
| Datastore.Datastore.Hand | src/datastore.cpp:383-396 | one metric goes to the database of its name, created when first needed |
| Datastore.Datastore.Drain | src/datastore.cpp:379-402 | the batch loops empty the queue, hand over everything and count down by as much |
| Datastore.Datastore.Process | src/datastore.cpp:374-426 | one turn: backlog reported, all written, statistics queued |
| Datastore.Datastore.Stop | src/datastore.cpp:432-468 | everything written, nothing queued, handles closed |
| Datastore.LogsGetTheirOwn | src/datastore.cpp:383-396 | each metric is written once, in order, to the log of its own name, or its database could not be created and no other log is touched |
| Datastore.LogGrows | src/datastore.cpp:383-396 | the log of a name grows by all its metrics if its database is open, or if the name is not empty and it can be created, and otherwise by none |
| Datastore.RoundsTakeAll | src/datastore.cpp:379-379 | the batches take as many metrics as were queued |
| DatastoreRuns.StepKeepsInv | src/datastore.cpp:65-69 | every step of producers and of the datastore's thread keeps the accounting |
| DatastoreRuns.BacklogIsAccounted | src/datastore.cpp:65-69 | size = queued + in hand - uncounted, modulo 2^64, until the thread stops |
| DatastoreRuns.BacklogIsExact | src/datastore.cpp:374-374 | it is the number queued exactly when as many are in hand as are uncounted |
| DatastoreRuns.BacklogWraps | src/datastore.cpp:65-69 | the size is above what is queued and in hand exactly when more metrics are uncounted than that |
| DatastoreRuns.BacklogCanWrap | src/datastore.cpp:374-402 | a run in which the backlog reported at the start of a turn is 2^64 - 1 |
| DatastoreRuns.ProducersKeepOrder | src/datastore.cpp:379-383 | what was taken from a producer and what is still queued is what it enqueued, in order |
| DatastoreRuns.EachIsHandedOnce | src/datastore.cpp:381-399 | each metric taken is handed once to its own database or dropped because that could not be created |
| DatastoreRuns.DroppedOnlyWithoutDatabase | src/datastore.cpp:383-396 | in a run in which every database can be created no metric with a name is dropped |
| DatastoreRuns.StopDrainsTheQueue | src/datastore.cpp:436-459 | with no producer at work the queue is empty when the thread has stopped, and all was handed over |
| DatastoreRuns.StoppingEnds | src/datastore.cpp:436-459 | a thread that is stopping can always go on, and without new metrics each of its steps brings it closer to the end |

## Left out

- Weak memory orders and fences: every model is sequentially consistent.
- Exceptions in element constructors and assignments, and the undo paths they take in the queue.
- `ExplicitProducer`, producer tokens and queue moves and swaps: the datastore enqueues without a token.
- BlockQueueRuns.NoConsumerCrashes: runs with a dequeue of zero elements are excluded, because there it is false (ZeroDequeue.ZeroCrashes); the run that shows it also ends a lookup at an entry that has no block (BlockQueueRuns.LookupIsRight), and BlockQueueRuns.BlockIsFreedOnce is stated for the same runs.
- BlockQueueRuns.StepKeepsInv: the pool of blocks is this producer's own, where the source shares it among all producers; the producer's test of the next slot loads the head, which is never found too far behind, and the slot's value in one step.
- BlockQueueRuns.HeadIsBehindNewBlock: the first index is taken as allocated (ImplicitProducers has the case that it is not) and the sub-queue size as unlimited, as the default traits have it; indices are unbounded integers, tied to the 64-bit ones by DequeueCounters.CircularLess.
- BlockQueueRuns.BlockIsFreedOnce: the free list is a set there; that `try_get` hands out a node to one thread only is FreeList.PoppedNodeIsExclusive.
- ImplicitProducers.ImplicitProducer.EnqueueBulk: one thread at a time; the parent's initial pool and free list are one list of blocks; the test for a full sub-queue, which cannot be met at unlimited size, is not repeated there; superseded indices, which only concurrent readers see, are not kept; the destructor is left out.
- ImplicitProducers.ImplicitProducer.DequeueBulk: the output iterator is a sequence that is returned.
- ProducerHashRuns.StepKeepsInv: the configuration without thread-exit notification, in which no slot is reused and no producer recycled; masking with capacity - 1 is written as a remainder, the capacities being proved powers of two.
- TokenBulk.ConcurrentQueue.TryDequeueBulkToken: run by one thread, on sub-queues that are FIFO sequences.
- LogPoolRuns.ShutdownCompletes: spurious wakeups and timeouts may happen, but are not counted as steps; thread creation and joining are not modelled.
- The MinGW form of the blocking queue, which notifies before it releases the mutex.
- Downsampler.Downsampler.Decimate: values are reals, so rounding is not modelled; the output is returned rather than appended to a vector that its caller always passes empty; parsing of the downsampler's name is left out.
- QueryMeaning.QueryIsRight: query strings with an apostrophe are excluded; LIKE is any predicate on patterns.
- SelectModel.SelectModel.Str: update, insert and delete statements and column expressions of the builder are left out.
- CommandLine.CommandLineToArgv: a null command line, which asks the system for the program's path.
- Datastore.Datastore.Process: SQLite, the file scan at start, statistics and sleeping; a database is the log of what was handed to it, and an insert that SQLite rejects counts as handed over.
- Sockets, HTTP, JSON, configuration, service control, time parsing and statistics: I/O and formatting.
