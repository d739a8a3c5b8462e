# Verified model of the DARTS runtime's queue and applications

DARTS is a dataflow runtime. Programs are threaded procedures made of codelets, which fire when their dependency
counters reach zero. This project models the runtime's lock-free queue and semaphore, and five of its applications,
and proves what they guarantee for every interleaving, every schedule and every input.

- **Queue** (`Spsc*`, `ReaderWriterQueues`, `Bits`): the single-producer single-consumer
  queue as two step machines, one atomic load or store per step, over a circular list of power-of-two blocks. It
  refines a sequence; every call is answered as promised; no internal assertion fails; both roles are wait-free.
  `ReaderWriterQueues` is the same object used by one thread.
- **Semaphore and blocking wrapper** (`Semaphore*`, `Blocking*`): permits are conserved, also on the timed-out path,
  and cover the elements of the queue. The wrapper is the product of the queue's machines and the semaphore's.
- **Cannon's matrix multiply** (`Grid`, `CannonJob`, `Pipeline*`, `Bulk*`, `CannonMatrices`, `CannonAgreement`,
  `TileMemory`, `Matrices`, `Sums`): the pipelined program, which has one barrier, and the bulk-synchronous program, which
  has one per round. No run of either gets stuck, and every complete one leaves the product of the two matrices in C, by
  the same products in the same order; the double buffers are free of races.
- **Mixed-radix FFT** (`Rings`, `Complexes`, `Dft`, `FftKernels`, `FftButterflies`, `Fft`, `FftPlan`): the recursion
  that exchanges source and destination at every level computes the discrete Fourier transform, for every n.
- **Fork-join merge sort** (`Ranges`, `MergeLoops`, `ForkJoin*`) and **sort/merge network** (`MergeNetwork*`,
  `QuickSort`): every schedule ends and sorts; for the network, exactly for the sizes that it handles.
- **Tiled matrix multiply** (`TiledMultiply`, `TileCodelets`) and **ring buffer** (`RingBuffer*`).

Concurrent code is a transition system: a state, the moves a scheduler may choose, and a deterministic step. A sequence
of moves is an interleaving, so a lemma about every sequence is a lemma about every schedule. The state carries history
variables (logs, counters of past events) that no step reads. What a client sees is computed from the calls it makes
and the answers it gets, outside the steps (`SpscCalls`, `SemaphoreCalls`, `BlockingCalls`, `RingBufferCalls`). Memory
is sequentially consistent. Code that runs alone is an imperative method over arrays, proved against a function.
`double` is `real`, and `int` is unbounded where no width is given; the counters of the ring buffer, the mask of the
queue and `ceilToPow2` work on words of a given width.

A few results say that a promise of the source holds exactly under a condition:

- `ceilToPow2` gives a power of two exactly for arguments from 1 to half the word's range (`Bits.CeilToPow2`).
- A signal keeps the semaphore's books exactly if its count is not 0 or the counter is not negative
  (`Semaphore.SignalKeeps`), and a run keeps them exactly if all its signals do (`Semaphore.PermitsConserved`); `signal(0)`
  can wake a waiter without a permit (`Semaphore.ZeroSignalBreaks`). The queue always signals 1.
- `mergeBase` sorts all inputs of a size exactly if SIZE % 8 <= 1 or SIZE < 8 (`MergeNetworkSorts.SortsExactly`);
  for each other size `MergeNetworkSorts.EveryScheduleFails` names an input that no schedule sorts.
- The ring buffer is a bounded queue exactly if the capacity is a power of two (`RingBufferCapacity.FifoExactly`).

## Model

| member | source | states |
|---|---|---|
| `SpscCapacity.EveryRunIsFifo` | include/common/readerwriterqueue.h:271-475 | for every constructor argument and interleaving of one producer and one consumer: no internal assertion fails, no unused slot is read, and removed elements followed by held ones are the enqueued ones in order |
| `SpscCalls.EveryCallAnswers` | include/common/readerwriterqueue.h:220-475 | for every constructor argument and interleaving, in terms of the calls made and their answers: results of the removals followed by the contents are the arguments of the insertions that returned true; an insertion that began with room returns true and adds no block, try_enqueue never adds one and is refused only if it began with the promised number of elements, enqueue only without memory; nothing is returned only if the queue was empty when the call began, peek points at the oldest element |
| `SpscCalls.RoomStays` | include/common/readerwriterqueue.h:538-616 | an insertion that began with room finds it, with no allocation and whatever the memory |
| `SpscCalls.InsertsWhereRoomIs` | include/common/readerwriterqueue.h:538-616 | an element goes in only where there is room for it |
| `SpscCalls.ConsumeMakesRoom` | include/common/readerwriterqueue.h:271-355 | what the consumer does in between takes no room away |
| `SpscResults.ProduceRefines` | include/common/readerwriterqueue.h:524-630 | a producer step appends its argument exactly when it is the store with which the call succeeds, and otherwise leaves the sequence alone |
| `SpscResults.ConsumeRefines` | include/common/readerwriterqueue.h:271-355 | a consumer step removes the oldest element exactly when it is the store that releases its slot, and returns that element |
| `SpscResults.ConsumeReturns` | include/common/readerwriterqueue.h:370-475 | peek points at the oldest element; false or null is returned only if the queue was empty at some instant of the call |
| `SpscProducer.ProducerKeeps` | include/common/readerwriterqueue.h:543-617 | every step of inner_enqueue keeps the ring invariant: blocks between front and tail block full, blocks behind the tail block empty, shadow indices conservative |
| `SpscConsumer.ConsumerKeeps` | include/common/readerwriterqueue.h:298-354 | every step of try_dequeue, pop and peek keeps the ring invariant |
| `SpscProducer.NextTailStep` | include/common/readerwriterqueue.h:557-572 | the assertion that the next free block is empty holds |
| `SpscConsumer.NextHolds` | include/common/readerwriterqueue.h:325-335 | the assertion that the block behind an empty front block holds an element |
| `SpscInvariant.ConsumerStable` | include/common/readerwriterqueue.h:291-321 | what the producer may do in between leaves the values in the consumer's registers right, whatever it has read |
| `SpscInvariant.ProducerStable` | include/common/readerwriterqueue.h:538-566 | what the consumer may do in between leaves the values in the producer's registers right |
| `SpscBlocks.StoreTail` | include/common/readerwriterqueue.h:538-553 | publishing the element at the tail of a block with room adds it as the newest of that block and keeps both shadow indices conservative |
| `SpscBlocks.StoreFront` | include/common/readerwriterqueue.h:300-308 | releasing the slot at the front removes the oldest element of the block |
| `SpscProducer.LinkStep` | include/common/readerwriterqueue.h:589-612 | a new block is linked into the circle behind the tail block without disturbing it |
| `SpscConsumer.AdvanceStep` | include/common/readerwriterqueue.h:337-340 | leaving an exhausted front block keeps the order of the remaining blocks |
| `SpscResults.ConsumerContents` | include/common/readerwriterqueue.h:337-352 | over all blocks, a consumer step removes at most the head of the represented sequence |
| `SpscResults.ProducerContents` | include/common/readerwriterqueue.h:538-612 | over all blocks, a producer step adds at most one element at the end of the represented sequence |
| `SpscCapacity.RefusesOnlyWhenFull` | include/common/readerwriterqueue.h:220-260 | try_enqueue returns false only if the queue held at least the constructor's size at some instant of the call, also after growth; enqueue only without memory |
| `SpscCapacity.RefusalJustified` | include/common/readerwriterqueue.h:556-624 | the same for one step from any state that satisfies the invariant |
| `SpscCapacity.CountSuffices` | include/common/readerwriterqueue.h:102-109 | the constructor's block size and block count leave room for size elements, one slot per block and one block being spare |
| `SpscCapacity.NewQueue` | include/common/readerwriterqueue.h:91-143 | the constructor's loop builds a circle of empty blocks |
| `SpscCapacity.InitInv` | include/common/readerwriterqueue.h:91-143 | the constructed queue is empty and satisfies the invariant |
| `SpscCapacity.WaitFree` | include/common/readerwriterqueue.h:271-630 | a call ends after at most 13 (producer) or 14 (consumer) of its own steps |
| `SpscCapacity.SizeApprox` | include/common/readerwriterqueue.h:479-492 | while neither thread is inside a call size_approx is exact, with wrapping subtraction |
| `SpscCapacity.MaxCapacity` | include/common/readerwriterqueue.h:503-514 | max_capacity adds up the usable slots of every block once |
| `SpscCapacity.UsableSuffices` | include/common/readerwriterqueue.h:503-514 | max_capacity is never below the constructor's size |
| `SpscFilling.NeverOverfull` | include/common/readerwriterqueue.h:503-514 | no reachable state holds more elements than max_capacity counts |
| `SpscFilling.CapacityAttained` | include/common/readerwriterqueue.h:499-514 | an idle empty queue takes exactly that number by calls of try_enqueue, without a new block |
| `Bits.CeilToPow2` | include/common/readerwriterqueue.h:640-652 | the bit-smearing loop rounds up to a power of two exactly for 1 <= x <= half the range, and gives 0 otherwise |
| `Bits.MaskWraps` | include/common/readerwriterqueue.h:302-307 | `(i + 1) & sizeMask` steps a ring index of a power-of-two block |
| `Bits.MaskedMinus` | include/common/readerwriterqueue.h:484-489 | `(tail - front) & sizeMask` counts the slots also when the unsigned subtraction wraps |
| `ReaderWriterQueues.ReaderWriterQueue.constructor` | include/common/readerwriterqueue.h:91-147 | a new queue is empty |
| `ReaderWriterQueues.ReaderWriterQueue.Take` | include/common/readerwriterqueue.h:271-475 | used by one thread: nothing is returned if and only if the queue is empty; try_dequeue and pop remove the head, peek leaves it |
| `ReaderWriterQueues.ReaderWriterQueue.Insert` | include/common/readerwriterqueue.h:220-260 | used by one thread: the element is appended if and only if there is room, or allocation is allowed and there is memory; a block is added exactly when it is appended without room; try_enqueue fails only with the promised number of elements inside |
| `ReaderWriterQueues.InnerEnqueue` | include/common/readerwriterqueue.h:524-630 | the same for the steps of inner_enqueue in sequence |
| `Semaphore.PermitsConserved` | include/common/atomicops.h:583-658 | for every interleaving the books are right in all states if and only if no signal adds 0 to a counter below 0; then successful waits plus count equal the signals when the waiter is idle, no kernel token is left over, oldCount >= -1 |
| `Semaphore.SignalKeeps` | include/common/atomicops.h:649-658 | signal(n) keeps the books if and only if n is not 0 or the counter is not negative |
| `Semaphore.ZeroSignalBreaks` | include/common/atomicops.h:649-658 | a run in which signal(0) lets a wait succeed without a permit |
| `Semaphore.WaitReturns` | include/common/atomicops.h:583-647 | a successful wait takes one permit; a failed one, also after a timeout, returns when there is none and leaves the count at that |
| `SemaphoreCalls.EveryWaitAnswers` | include/common/atomicops.h:583-658 | for every interleaving without a harmful signal(0), by the kind of the wait: tryWait returns within two steps and does not sleep, a wait without timeout never returns false, a timed one only after its timeout, and none that began with a permit; with no call going on the count is the signals less the waits that returned true |
| `SemaphoreCalls.TryWaitDecides` | include/common/atomicops.h:629-637 | tryWait returns false if and only if its load meets no permit |
| `SemaphoreCalls.WaitAdvances` | include/common/atomicops.h:583-627 | every step of a wait brings its end nearer, but for the repair while the signaller is between its two accesses |
| `SemaphoreCalls.WaitCanGoOn` | include/common/atomicops.h:583-647 | tryWait and a timed wait whose timeout passes are never stuck, a wait only without a permit |
| `SemaphoreCalls.TimeoutReturns` | include/common/atomicops.h:604-626 | a timed wait returns within five steps after its timeout, once the signaller has made its pending step |
| `Semaphore.NoLostWakeup` | include/common/atomicops.h:597-606 | a waiter for whom there is a permit finds a kernel token now or after the signaller's next step |
| `Semaphore.RepairSpinsOnlyForPost` | include/common/atomicops.h:611-621 | the loop after a timeout repeats only while the signaller is between its two accesses |
| `BlockingQueue.PermitsCoverElements` | include/common/readerwriterqueue.h:770-909 | for every interleaving: permits never exceed the elements, a granted removal succeeds, and peek after a non-zero size_approx is not null |
| `BlockingCalls.EveryBlockingCallAnswers` | include/common/readerwriterqueue.h:770-909 | for every interleaving, in terms of the calls made and their answers: what removals returned, hold or left is what insertions were accepted, in order; one signal for each insertion that succeeds, one permit for each removal; a removal returns an element if and only if it was granted a permit, always if one was there when it began, and is never refused without timeout; a peek that began with an element returns the oldest; insertions end within 17 steps, try_dequeue, pop and peek within 18 |
| `BlockingCalls.SizeAnswers` | include/common/readerwriterqueue.h:907-910 | while no removal is in progress size_approx is the number of elements, less one whose signal is pending; exact while both threads are idle |
| `BlockingCalls.SizeIsPermits` | include/common/atomicops.h:660-664 | in every state availableApprox is the number of permits, less the one that a registered waiter is going to take |
| `BlockingCalls.CanGoOn` | include/common/readerwriterqueue.h:770-909 | no call is stuck, but for a wait without a permit whose timeout has not passed |
| `BlockingQueue.BStepKeeps` | include/common/readerwriterqueue.h:795-909 | elements = permits + elements whose signal is pending + permits whose removal is pending, kept by every step |
| `Grid.TorusWellWired` | apps/Cannon-dfswp/cannonTP.h:262-292 | for every s the constructor's index tables are bijections along rows and columns that shift by one and skew by the row or column |
| `Grid.ShiftKeepsInner` | apps/Cannon-dfswp/cannonTP.h:438-440 | the tile passed on has the inner index that the receiver needs next |
| `Grid.SkewStarts` | apps/Cannon-dfswp/cannonTP.h:464-466 | the skew hands every tile the two tiles of its first iteration |
| `SyncSlots.SyncSlot.DecCounter` | include/threading/SyncSlot.h:66-70 | of the decrements since the last reset, from a counter of n, exactly the n-th returns true, and the next one 2^32 later |
| `SyncSlots.SyncSlot.ResetCounter` | include/threading/SyncSlot.h:80-86 | a new round of decrements begins, to which the same applies with the reset value |
| `SyncSlots.SyncSlot.Ready` | include/threading/SyncSlot.h:92-95 | the counter is 0 exactly when the decrements of the round have been made, 2^32 more apart |
| `SyncSlots.EnablesOnLast` | include/threading/SyncSlot.h:66-70 | the same for the functions by which all codelet models count |
| `PipelineResults.EveryRunComputes` | apps/Cannon-dfswp/cannonTP.h:315-479 | for every interleaving the continuation is signalled at most once, no dangling head is used, and then every block of C is its tile's accumulated product |
| `PipelineProofs.StepInv` | apps/Cannon-dfswp/cannonTP.h:315-479 | every micro-step of every codelet keeps the invariant |
| `PipelineProofs.AllSkewed` | apps/Cannon-dfswp/cannonTP.h:315-321 | no compute codelet runs before all skew codelets have pushed, so every queue has one producer at a time |
| `PipelineResults.EveryRunQueues` | apps/Cannon-dfswp/cannonTP.h:409-445 | the A queue of tile (r,c) is A[r][(r+c-t) mod s] for t from its own pops to its left neighbour's pushes, the B queue is the column analogue, and both heads have the same inner index |
| `PipelineResults.EveryRunMultiplies` | apps/Cannon-dfswp/cannonTP.h:409-445 | at any time a tile has multiplied the first of its s operand pairs, each once and in order; a finished tile all of them |
| `PipelineResults.RowTokens` | apps/Cannon-dfswp/cannonTP.h:438-443 | the A tiles queued in a row, less those being handed on, are s |
| `PipelineResults.ColumnTokens` | apps/Cannon-dfswp/cannonTP.h:438-443 | the same for the B tiles of a column |
| `PipelineResults.QueueABound` | apps/Cannon-dfswp/cannonTP.h:438-443 | an A queue holds at most s tiles, s + 1 between a push and its pop |
| `PipelineResults.QueueBBound` | apps/Cannon-dfswp/cannonTP.h:438-443 | the same for a B queue |
| `PipelineProgress.LeastAdvancedHasWork` | apps/Cannon-dfswp/cannonTP.h:409-419 | a least advanced tile finds both of its heads |
| `PipelineProgress.NeverStuck` | apps/Cannon-dfswp/cannonTP.h:400-479 | in every reachable state that is not final some moves bring the rank down |
| `PipelineProgress.RankDecreases` | apps/Cannon-dfswp/cannonTP.h:400-448 | remaining work decreases with every move but a peek that finds an empty queue |
| `PipelineProgress.CanFinish` | apps/Cannon-dfswp/cannonTP.h:400-479 | every reachable state can be continued to the final one |
| `CannonMatrices.PipelineMultiplies` | apps/Cannon-dfswp/cannonTP.h:248-479 | for every s, p, A, B and interleaving: C's blocks are those of the row-major product |
| `CannonMatrices.AccumulatesProduct` | apps/Cannon-dfswp/matrix.cpp:35-53 | accumulating backwards around the cycle from any start gives the block of the product |
| `CannonAgreement.PipelineLeavesProduct` | apps/Cannon-dfswp/matrix.cpp:35-53 | read as a matrix, the memory of C is the product |
| `BulkProgress.EveryBulkRunEnds` | apps/Cannon/cannonTP.h:338-434 | every interleaving is bounded, and it cannot be continued if and only if the continuation has been signalled; the loop codelet has then fired exactly s + 1 times and C is complete |
| `BulkProgress.NeverStuck` | apps/Cannon/cannonTP.h:338-434 | in every reachable state in which the continuation has not been signalled some codelet can move: no signal is lost across resetCodelet |
| `BulkProgress.RankDecreases` | apps/Cannon/cannonTP.h:338-434 | every move of every codelet leaves less work |
| `BulkProgress.CanFinish` | apps/Cannon/cannonTP.h:338-434 | every reachable state can be continued to the final one |
| `BulkRounds.EveryBulkRunComputes` | apps/Cannon/cannonTP.h:378-402 | at any time the loop codelet has fired at most s + 1 times and the continuation has been signalled at most once; when it has, every block of C is the accumulated product of its tile |
| `BulkRounds.StepInv` | apps/Cannon/cannonTP.h:261-434 | every micro-step of every codelet keeps the invariant of the double buffers and counters |
| `BulkProofs.LoopSignalled` | apps/Cannon/cannonTP.h:379-402 | no signal to the self-resetting loop codelet is lost, and it is enabled by the last one of a round |
| `BulkRounds.NextRoundBuffers` | apps/Cannon/cannonTP.h:53-60 | after all buffers have been exchanged, what was sent in the last round is what is read in the next |
| `BulkRaces.NoRace` | apps/Cannon/cannonTP.h:349-424 | of two steps of any codelets in one round: a buffer has one writer only, is not written once it has been read, and is read after a write only by the skew codelet that waited for its copy codelet |
| `BulkRaces.WrittenOnce` | apps/Cannon/cannonTP.h:367-424 | in each whole round, round 0 included, every buffer of A and of B on the side that is not read is written exactly once |
| `BulkRaces.WriteSide` | apps/Cannon/cannonTP.h:349-424 | every write goes to the other side than the one read, by the tile that sends there, or fills a tile before round 0 sends it |
| `BulkRaces.ReadSide` | apps/Cannon/cannonTP.h:346-412 | only the tile's own codelet reads its buffers, on the side of the round; in round 0 after the copy |
| `BulkRaces.OnlyWritesChange` | apps/Cannon/cannonTP.h:260-424 | the buffers that a step is said to write are all that it changes |
| `BulkRaces.ReadsSuffice` | apps/Cannon/cannonTP.h:338-424 | the buffers that a step is said to read are all that its effect depends on |
| `BulkRounds.EveryBulkRunMultiplies` | apps/Cannon/cannonTP.h:339-376 | at any time every tile has multiplied the first of its s operand pairs, each once, in the order of the rounds; at the end all of them |
| `CannonAgreement.BulkMultiplies` | apps/Cannon/cannonTP.h:193-434 | for every s, p, A, B and interleaving of the bulk-synchronous program: it ends, and at the end C is the product |
| `CannonAgreement.SameOperands` | apps/Cannon-dfswp/cannonTP.h:409-445 | removing the barrier changes neither the operand pairs of any tile nor their order: between any two runs, one list continues the other; at the end the lists and C are the same |
| `TileMemory.CopyTileIn` | apps/Cannon-dfswp/cannonTP.h:323-371 | the copy codelets fill the scratch tile with the block of the flat matrix |
| `TileMemory.CopyTileOut` | apps/Cannon-dfswp/cannonTP.h:373-398 | the copy-back codelet changes exactly its block of the flat C |
| `TileMemory.PasteTile` | apps/Cannon-dfswp/cannonTP.h:383-391 | writing one block changes that tile of the grid and no other |
| `TileMemory.Multiply` | apps/Cannon-dfswp/matrix.cpp:35-53 | the three loops leave the row-major product |
| `Fft.FftAux` | apps/FFT/fftSerial.cpp:2894-3013 | for every n and list of radices, through every exchange of in and out: out receives the n-point transform of in, nothing outside the n places changes |
| `Dft.MixedRadix` | apps/FFT/fftSerial.cpp:2938-3009 | Cooley-Tukey over any commutative ring: entry q + m k from the entries q of the r interleaved transforms |
| `FftPlan.FastTransform` | apps/FFT/fftSerial.cpp:3015-3046 | for every int n >= 1 and a correct table W, dst is the n-point transform of src |
| `FftPlan.Plan` | apps/FFT/fftSerial.cpp:3024-3037 | the factor list fits its 40 places and is a list of radices for n |
| `FftPlan.Factor` | apps/FFT/fftSerial.cpp:76-95 | the returned radix divides n, and for odd n is its least divisor above 1 |
| `FftKernels.Unshuffle` | apps/FFT/fftSerial.cpp:112-139 | row j of out is the j-th interleaved subsequence of in |
| `FftKernels.Unshuffle2` | apps/FFT/fftSerial.cpp:237-250 | the same for radix 2 |
| `FftKernels.Unshuffle4` | apps/FFT/fftSerial.cpp:355-371 | the same for radix 4 |
| `FftKernels.TwiddleSum` | apps/FFT/fftSerial.cpp:150-166 | with l0 staying in 0..nW the inner loop adds the terms of one entry of the transform |
| `FftKernels.TwiddleGen1` | apps/FFT/fftSerial.cpp:141-170 | one column becomes its entries, other places are unchanged |
| `FftKernels.TwiddleGen` | apps/FFT/fftSerial.cpp:172-190 | halving the range of columns reaches every column once |
| `FftButterflies.Radix4` | apps/FFT/fftSerial.cpp:252-353 | the four combinations with powers of -i are the four entries |
| `FftButterflies.Radix2` | apps/FFT/fftSerial.cpp:193-235 | sum and difference are the two entries |
| `FftButterflies.Twiddle2` | apps/FFT/fftSerial.cpp:207-235 | columns lo..hi hold their entries of the transform |
| `FftButterflies.Twiddle4` | apps/FFT/fftSerial.cpp:292-353 | columns lo..hi hold their entries of the transform |
| `FftButterflies.Base2` | apps/FFT/fftSerial.cpp:193-205 | the two-point transform |
| `FftButterflies.Base4` | apps/FFT/fftSerial.cpp:252-290 | the four-point transform |
| `ForkJoinMerge.EveryScheduleMerges` | apps/FastMergesort/Merge.cpp:58-103 | for every schedule and cutoff: final is signalled at most once, and when it has been the destination is sorted with the elements of both stretches, each place written exactly once |
| `ForkJoinProgress.EveryMergeEnds` | apps/FastMergesort/Merge.cpp:58-103 | schedules are bounded, and one cannot be continued if and only if final has been signalled: it is signalled once, by the last move |
| `ForkJoinMerge.MergeStepKeeps` | apps/FastMergesort/Merge.cpp:58-103 | every move of every task keeps the tree's invariant and writes into its own destination only |
| `ForkJoinMerge.SplitKeeps` | apps/FastMergesort/Merge.cpp:86-95 | the pivot lands in its final place and divides both stretches |
| `ForkJoinMerge.JoinKeeps` | apps/FastMergesort/Merge.cpp:98-103 | two merged halves around the pivot are the merge |
| `MergeLoops.MergeStretches` | apps/FastMergesort/Merge.cpp:23-32 | the three loops merge two sorted stretches and write nothing else |
| `MergeLoops.BinSearch` | apps/FastMergesort/Merge.cpp:44-55 | the loop finds the place that Search does, also on an empty range |
| `MergeLoops.SearchDivides` | apps/FastMergesort/Merge.cpp:44-55 | that place divides a sorted stretch into smaller and not smaller elements |
| `ForkJoinSort.EveryScheduleSorts` | apps/FastMergesort/MergeSort.cpp:33-60 | for every schedule, if both arrays agree on the range at entry, src ends there as a sorted permutation and nothing outside the range is touched |
| `ForkJoinSort.SortStepKeeps` | apps/FastMergesort/MergeSort.cpp:33-60 | every move keeps the invariant of the exchanged buffers, siblings touch only their own ranges |
| `ForkJoinProgress.EveryScheduleEnds` | apps/FastMergesort/MergeSort.cpp:33-60 | with CUTOFF_SORT >= 1 schedules are bounded, and one cannot be continued if and only if final has been signalled |
| `MergeNetwork.EveryScheduleAgrees` | apps/Mergesort/mergeUnrolledTP.h:158-191 | every order of the codelets leaves the same result, that of the network as a function of IN |
| `MergeNetworkProgress.EveryScheduleEnds` | apps/Mergesort/mergeUnrolledTP.h:158-191 | each codelet fires exactly once, and toSig is signalled by the last firing: if and only if the schedule cannot be continued |
| `MergeNetworkProgress.NetCanMove` | apps/Mergesort/mergeUnrolledTP.h:158-191 | a network that has not produced its result has a codelet that can fire |
| `MergeNetworkSorts.SortsExactly` | apps/Mergesort/mergeUnrolledTP.h:158-191 | all inputs of a size are sorted if and only if size % 8 <= 1 or size < 8 |
| `MergeNetworkSorts.EveryScheduleSorts` | apps/Mergesort/mergeUnrolledCD.cpp:129-164 | under that condition every schedule can be continued until all fifteen codelets have fired, and then OUT is a sorted permutation of IN |
| `MergeNetworkSorts.EveryScheduleFails` | apps/Mergesort/mergeUnrolledTP.h:176-181 | for every other size a single 1 among zeros, at 6 (SIZE / 8), ends out of order when all fifteen have fired, whatever their order |
| `MergeNetworkSorts.ScheduleThatFails` | apps/Mergesort/mergeUnrolledTP.h:176-181 | a complete schedule of fifteen firings that leaves that input out of order |
| `MergeNetworkCodelets.FireQuick` | apps/Mergesort/mergeUnrolledCD.cpp:129-133 | quicksort on the array, with any pivots, is the step of a quicksort codelet of the network |
| `MergeNetworkCodelets.FireJoin` | apps/Mergesort/mergeUnrolledCD.cpp:135-164 | the loop of merge on the arrays is the step of a merge codelet of the network, whichever of the two arrays it writes |
| `MergeNetworkCodelets.SortedIsQsorted` | apps/Mergesort/mergeUnrolledCD.cpp:117-133 | a stretch that ends sorted and permuted is the sorted permutation, whatever the pivots |
| `QuickSort.Quicksort` | apps/Mergesort/mergeUnrolledCD.cpp:117-127 | for any choice of pivots the range ends sorted and permuted, the rest unchanged |
| `QuickSort.Partition` | apps/Mergesort/mergeUnrolledCD.cpp:99-115 | the pivot is in place between smaller-or-equal and greater elements |
| `QuickSort.SortedUnique` | apps/Mergesort/mergeUnrolledCD.cpp:129-133 | the result of a quicksort codelet does not depend on the pivots |
| `QuickSort.FireMerge` | apps/Mergesort/mergeUnrolledCD.cpp:135-164 | the loop writes the merge of the two halves of its input |
| `TiledMultiply.EveryOrderMultiplies` | apps/MatrixMultiply/loopCodelets.cpp:39-67 | whatever the cuts and the order of the tile codelets: it ends after iCut * jCut firings and not before, with the product in C |
| `TiledMultiply.TileCovers` | apps/MatrixMultiply/matrix.h:148-155 | every row (column) index belongs to a tile |
| `TiledMultiply.TilesApart` | apps/MatrixMultiply/loopCodelets.cpp:41-42 | and to one only, which lies within the matrix |
| `TiledMultiply.CopyMatrix` | apps/MatrixMultiply/matrix.cpp:137-186 | which entries are copied from where, for all relations of the dimensions |
| `TiledMultiply.CopyPastes` | apps/MatrixMultiply/matrix.cpp:151-179 | a tile is pasted at (x, y) also when it is as wide or as high as the destination |
| `TileCodelets.FireTile` | apps/MatrixMultiply/loopCodelets.cpp:39-67 | DGEMM into a tile of its own and copyMatrix into C are the step of the tile codelet, equal dimensions included |
| `TileCodelets.CopyStrip` | apps/MatrixMultiply/loopTPs.h:61-65 | the strip that an iloop copies is the rows of A that its tiles multiply |
| `TileCodelets.SubMatrix` | apps/MatrixMultiply/matrix.h:83-98 | the sub-matrix constructor copies exactly the m x n entries from (x, y) on |
| `TileCodelets.MultiplyTiled` | apps/MatrixMultiply/loopTPs.h:35-84 | the two-level loop over strips and tiles, on flat memory, leaves the product in C for all cuts |
| `RingBuffer.EveryRunIsBoundedFifo` | include/common/ringbuffer.h:47-69 | for power-of-two capacities and runs of any length: a bounded queue, across the wrap of the counters, and no access out of bounds |
| `RingBufferCalls.EveryCallAnswers` | include/common/ringbuffer.h:47-69 | for every interleaving in which 0 is not pushed: results of the pulls followed by the elements held are the arguments of the pushes that returned true; a push fails only if the buffer was full, a pull returns 0 only if it was empty, when the call began |
| `RingBuffer.PushKeeps` | include/common/ringbuffer.h:47-56 | a push appends, and returns false only on a full buffer |
| `RingBuffer.PullKeeps` | include/common/ringbuffer.h:58-68 | a pull takes and returns the oldest element, or returns 0 with the buffer empty; if no 0 is ever pushed, it returns 0 if and only if the buffer is empty |
| `RingBuffer.IndexIs` | include/common/ringbuffer.h:51-62 | the mask selects the same place before and after the counter wraps |
| `RingBuffer.PowersOfTwoExactly` | include/common/ringbuffer.h:51-62 | distinct places for a full buffer if and only if the capacity is a power of two |
| `RingBufferCapacity.FifoExactly` | include/common/ringbuffer.h:47-69 | every run is that of a bounded queue if and only if the capacity is a power of two |
| `RingBufferCapacity.WrongPull` | include/common/ringbuffer.h:47-69 | for every other capacity a run in which a pull returns a wrong element |

## Left out

- Weak memory orders, fences, cache padding, alignment, raw allocation, destructors, copies and moves of queues.
- Queue, Cannon programs, merge sort tree and network as mutable objects: these are concurrent, and are modelled on values as step machines, so aliasing is not captured; `ReaderWriterQueues` is the queue as an object with one thread, its blocks being values.
- `SpscCapacity.SizeApprox`: exact only while neither thread is inside a call; a racing call is not modelled.
- `SpscCapacity.NewQueue`: starts from the rounded block size; sizes above half the range of `size_t`, for which `ceilToPow2` gives 0, cannot be allocated and are not modelled.
- A negative timeout of `wait_dequeue_timed` is the untimed wait; the lengths of timeouts are not modelled.
- `Semaphore.PermitsConserved`: the kernel semaphore is a token counter, and a timeout may happen at any moment.
- `DGEMM` bodies: C := beta C + A B on row-major matrices; the transposed layout of the branches without CBLAS or MKL.
- Floating-point rounding.
- The generated FFT kernels of radix 8, 16 and 32, and their unshufflings: taken at what a butterfly and an unshuffling of that radix compute.
- `FftPlan.FastTransform`: the table of `compute_w_coefficients` (sine and cosine) is a hypothesis, `Complexes.Coefficients`.
- The FFT codelet graphs (`apps/FFT/fftCD.cpp`), whose inner stages use the twiddle stride of the whole transform.
- `qsort` in the merge sort is taken at its contract; its comparison `a - b` is exact here, where C may overflow.
- `MergeNetwork.EveryScheduleAgrees`: a codelet of the network fires in one step; their places are disjoint, which the frame lemmas show.
- `TiledMultiply.EveryOrderMultiplies`: a tile codelet fires in one step, for the same reason.
- Copying one tile is one step of the Cannon models; `BulkRaces.NoRace` shows that no other codelet touches the buffers meanwhile.
- `mergeSort`, `quickSort` and the other threaded procedures of `apps/Mergesort` around `mergeBase`.
- Scheduler policies, reference counts of threaded procedures, start-up, the loop macros of `nested.h`, locked containers, tracing, drivers.
