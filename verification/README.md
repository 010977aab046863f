# Fossilizid, verified

Fossilizid is a C++ library of concurrent containers, a memory pool and a small framework for
remote calls. This project models its core in Dafny and proves what that core is for.

**The four queues of `container/`.** Each is a transition system: one step is one atomic load,
store, exchange, compare-and-exchange, counter change or mutex operation of one operation, any
number of operations run at once, and every operation has a program counter (`Local`) that
follows the loops of the source. Atomics are sequentially consistent, a weak
compare-and-exchange and a `try_lock` may fail for no reason, and nodes are never reused.
`Linearizability.dfy` says what correctness means: there is one order of the operations that is a
legal run of a plain sequence and that keeps the order of any two operations that did not
overlap. The proofs keep such an order (the log of a history) up to date through every step.

- `msque` is linearizable for any number of pushes, pops and clears. Every list ever installed
  keeps its own log; the logs put one after the other are the linearization, including the
  operations that land on a list that has already been replaced. From every reachable state an
  operation that goes on alone returns after a bounded number of its own instructions, and one that
  is called then answers what the sequential queue answers.
- `optimisticque` is linearizable for any number of threads if a pop starts over after its repair
  walk (`retry`). The source does not (`container/optimisticque.h:121-133`): it goes on to exchange
  the head with the null link it read before. For the source as it stands the project proves that
  it is linearizable, for any number of pushes and pops at once, if no pop reads the link of the head
  while the push behind the head has added its node and not yet stored that link; keeping pushes and
  pops apart is enough. The condition is exact: a pop that reads the link at such a moment and goes
  on alone puts null into the head, and one that reads it at any other moment does not. Operations
  that go on alone return, answer what the sequential queue answers, and count: a push in every
  such run, a pop unless it has no retry and the push behind the head is half done.
- `swapque` is linearizable for any number of pushes as long as no two pops search at once, and
  for any number of pops as long as every swap finds one of its two chains at its end; a swap keeps the
  order exactly then. Two pops can break the order (`container/swapque.h:126-137`), and a run that
  does is given. For any number of pops it is still a bag: nothing is lost, duplicated or made up, and
  "empty" is only said when everything pushed before has been taken. An operation that goes on alone
  while nobody else holds the mutex returns with the answer of the sequential queue.
- `ringque` is linearizable, through all resizes and for any number of pushes and pops at once, in
  every run in which no action has one of six flaws (`RingqueFlaws.dfy`): a push claims the last slot
  of a full ring, because its test is stale (`container/ringque.h:94, 113`); it claims a slot that
  another push has yet to fill (`:113-116`); it doubles an array with push equal to pop (`:94-102, 163`);
  a pop finds nothing behind a tail that is not the tail any more (`:137`), because after a failed
  exchange the tail is not computed again; it claims the slot of such a tail (`:141`); or it claims a
  slot that another pop has yet to empty (`:141-142`). None of the six can be allowed: for each a run is
  given that has no other flaw and is not linearizable. A seventh flaw, a pop that claims any other slot
  of an empty ring (`:137, 141`), keeps the order, but a pop may then wait, whatever is pushed, until
  another pop is called; without it every pop that has claimed a slot finds it full or about to be
  filled. With one consumer at a time only the first and the third have to be kept out, and with one
  producer and one consumer at a time there is no flaw at all. In a run without a flaw an operation
  that goes on alone while nobody else holds the mutex returns with the answer of the sequential queue,
  if what it has read is not out of date. A push that comes to its test with a slide right behind pop
  while pop is below push does not return (`:94-107, 163-176`): the resize leaves pop where it is and
  the slide is not read again, so the test stays true and the array is doubled again and again. The
  condition is exact, and a run that comes there is given.

The element type `Value` is left abstract. The runs are those of `After`: a schedule in which an
action that is not possible is skipped.

**Remote calls.** Any number of services are joined by channels that deliver in order; each makes
calls, each handles calls. The steps are the two halves of an asynchronous call, the main loop taking a
command, and a handler pushing its reply. Identifiers are assumed fresh, and a handler does not
yield. A call is handled exactly if its method was provided before, every reply is delivered to the
callback of its own call, and nothing is delivered twice. `RpcService.dfy` has the objects of the
source and proves that their methods do what the steps do.

**The memory pool.** Arenas of free lists threaded through the free blocks, and maps of chunks
above 64K. Which `try_lock` succeeds, and what `malloc` returns, are inputs; clients may write
anything into blocks they hold. Requests may have any length: a chunk above 64K is not taken out of
the map when it is given out, and a second one of its length is dropped, so the partition is proved
for all runs in which neither happens, and runs in which each happens are given. What is freed last
is given out first, for requests of at most 512 bytes. The constants are those of the source, where
`_1K` is 32768 and `_2K` 65536 (`pool/mempool.cpp:26-27`), so that classes 6 to 10 are never used, and
blocks of 513 to 65536 bytes are given back and never given out again, because the test against
`_4K` (`:140`) is about their standard length.

**The interface parser.** The objects of `statemachine.py`, one character at a time, with the
aliasing of the argument lists, and a printer that may put a gap wherever the parser allows one: the
gaps are exactly the texts the parser strips. Arguments have a type and may have a name. Beyond what is
printed, `ParserMeaning.dfy` says what any function, module or struct becomes, whatever text stands in
it, and exactly when there is an exception: members of a struct run together, words behind a closing
parenthesis join the last argument, and a newline between two modules hides everything behind it
(`juggle/rpcmake/statemachine.py:138-147`).

**The bucketed map.** 1023 buckets with a map each, one operation at a time, over unsigned keys and
strings. The hash of 32-bit keys is an injective mixing, cut to the number of buckets; a set crashes
exactly when no key of its hash has been inserted.

## Files

| file | content |
|---|---|
| `Linearizability.dfy` | what a correct queue is, and how to build the order step by step |
| `NodeChains.dfy`, `Counting.dfy`, `SharedMutex.dfy` | nodes, wrapping counters and the shared mutex |
| `Msque.dfy`, `MsqueProof.dfy`, `MsqueProgress.dfy` | `container/msque.h` |
| `Optimisticque.dfy`, `OptimisticqueProof.dfy`, `OptimisticqueRepair.dfy`, `OptimisticqueCareful.dfy`, `OptimisticqueProgress.dfy` | `container/optimisticque.h` |
| `Swapque.dfy`, `SwapqueProof.dfy`, `SwapqueBag.dfy`, `SwapqueTwoConsumers.dfy`, `SwapqueProgress.dfy` | `container/swapque.h` |
| `Ringque.dfy`, `RingqueResize.dfy`, `RingqueFlaws.dfy`, `RingqueProof.dfy`, `RingqueSingle.dfy`, `RingqueOneConsumer.dfy`, `RingqueRuns.dfy`, `RingqueLimits.dfy`, `RingqueProgress.dfy` | `container/ringque.h` |
| `Rpc.dfy`, `RpcProof.dfy`, `RpcService.dfy` | `juggle/service/` and the generated handlers |
| `Mempool.dfy`, `MempoolProof.dfy` | `pool/mempool.cpp` |
| `Parser.dfy`, `ParserProof.dfy`, `ParserMeaning.dfy` | `juggle/rpcmake/statemachine.py` |
| `Hashes.dfy`, `SmallHashMap.dfy` | `container/small_hash_map.h` |

`dafny verify dfyconfig.toml` verifies all of them.

## Model

| member | source | states |
|---|---|---|
| `Linearizability.PoppedInOrder` | test/test_container/main.cpp:162-173 | without clears, what a legal log pushes is, in this order, what it pops and then what is left |
| `Linearizability.ElementsKeepTheirOrder` | test/test_container/main.cpp:156-173 | in a linearizable trace, of two elements one of which was in before the other was pushed, the first is not popped by a pop that was called after the second was out |
| `Linearizability.EmptyAfterPush` | container/ringque.h:125-150 | in a linearization without clears, when a pop finds nothing every element whose push was over before the pop was called has been popped |
| `MsqueProof.MsqueIsLinearizable` | container/msque.h:71-151 | every interleaving of any number of pushes, pops and clears is linearizable: a push at its exchange of `_next`, a pop at that of `_begin`, an empty pop at its read of a null `_next`, a clear at its exchange of the list |
| `MsqueProof.EveryListHasItsHistory` | container/msque.h:71-144 | in every reachable state there are histories, one for each list ever installed, put one after the other a linearization; each is a legal run of a queue of its own that starts with the clear that installed the list and leaves what the list holds, late pushes and pops included, and the counter plus linked but uncounted pushes minus popped but uncounted pops is the length modulo 2^32 |
| `MsqueProof.EveryListIsOneChain` | container/msque.h:87-138 | in every reachable state every list ever installed is one chain from its dummy, `_end` is its last or second-to-last node and `_begin` at most one node past `_end` |
| `MsqueProof.SizeIsExactAtRest` | container/msque.h:64-66 | when no operation is between its effect and its counting, the counter is the length modulo 2^32 of the queue that a linearization leaves |
| `MsqueProgress.OperationsFinishAlone` | container/msque.h:87-144 | from every reachable state an operation, wherever it stands, that goes on alone without spurious failures returns within 15 of its own instructions, with the answer of a linearization |
| `MsqueProgress.CallsAreAnsweredAlone` | container/msque.h:87-144 | one that is called and goes on alone answers what the sequential queue answers behind a linearization of everything so far: a pop the first element that is left, or "empty" |
| `Msque.Instr` | container/msque.h:87-144 | an instruction moves no operation but its own; what it does to the lists is what the results above are about |
| `OptimisticqueProof.OptimisticqueIsLinearizable` | container/optimisticque.h:76-148 | with a retry after the repair walk every interleaving is linearizable: a push at its exchange of `detail`, before the forward link exists, a pop at that of `head`, an empty pop when it reads `detail` |
| `OptimisticqueProof.LinearizableWhileIntact` | container/optimisticque.h:105-148 | as the source has it, every run is linearizable as long as the head has not become null |
| `OptimisticqueProof.SizeIsExactAtRest` | container/optimisticque.h:58-60 | when no operation is between its effect and its counting, the counter is the length modulo 2^32 |
| `OptimisticqueProgress.PushedIsLinked` | container/optimisticque.h:89-93 | in every reachable state whose head has not become null, the node of every push that has returned is linked forwards |
| `OptimisticqueProgress.OperationsFinishAlone` | container/optimisticque.h:76-148 | with the retry, or in a run that meets the condition below, an operation that goes on alone returns: a push within 8 instructions, a pop within a number that depends on how many elements are left; with the answer of a linearization, and counted modulo 2^32 |
| `OptimisticqueProgress.CallsAreAnsweredAlone` | container/optimisticque.h:76-148 | one that is called and goes on alone answers what the sequential queue answers behind a linearization of everything so far, and the counter goes one up, one down, or stays |
| `OptimisticqueRepair.LinksNeverDisagree` | container/optimisticque.h:83-131 | a forward link that is set leads to the node whose backward link leads back, whoever stored it |
| `OptimisticqueRepair.BackwardReachesHead` | container/optimisticque.h:83-94 | following `prev` from `detail` reaches `head`, which is never past it |
| `OptimisticqueRepair.RepairStoresEveryLink` | container/optimisticque.h:121-131 | throughout a repair walk, under any interference, every forward link from the node reached to the tail it started from is stored and backward links lead on to the head |
| `OptimisticqueRepair.RepairEnds` | container/optimisticque.h:125-130 | under any interference a repair walk is left after a bounded number of its own instructions |
| `OptimisticqueRepair.LonePopOutcome` | container/optimisticque.h:106-135 | a pop that runs alone finds nothing exactly when head is the tail; otherwise it takes the node behind the head, except that without the retry it puts null into the head exactly when the link of the head is not stored |
| `OptimisticqueRepair.TheSourceCanCrash` | container/optimisticque.h:118-134 | without the retry there is a run that puts null into the head |
| `OptimisticqueCareful.CarefulIsLinearizable` | container/optimisticque.h:76-148 | as the source has it, every run of any number of pushes and pops is linearizable, and the head never null, if no pop reads the link of the head between the two halves of the push behind it |
| `OptimisticqueCareful.HastyIffCrash` | container/optimisticque.h:120-135 | in such a run, a pop about to read the link of the head puts null into the head, going on alone, if and only if it reads between the two halves of a push |
| `OptimisticqueCareful.ApartIsCareful` | container/optimisticque.h:89-90 | a run in which no push overlaps a pop meets the condition, however many pushes or pops overlap each other |
| `Optimisticque.Instr` | container/optimisticque.h:83-140 | an instruction moves no operation but its own |
| `SwapqueProof.SwapqueIsFifoForOneConsumer` | container/swapque.h:85-163 | linearizable for any number of pushes when no two pops search at once |
| `SwapqueProof.SwapqueIsFifoWhenSwapsAreClean` | container/swapque.h:126-142 | linearizable for any number of pops when every swap finds a chain at its end |
| `SwapqueProof.SwapKeepsOrderIff` | container/swapque.h:133-138 | in every reachable state in which a pop is about to swap, the links determine one order of the waiting nodes before and one after, and the two are the same if and only if one of the chains is at its end |
| `SwapqueProof.SwapqueIsABag` | container/swapque.h:85-163 | for any number of pushes and pops every trace is a legal order of a bag in which "empty" means that nothing is there |
| `SwapqueProof.PopIsSafe` | container/swapque.h:144-148 | the counter is above zero when a pop takes one off it, and the next node a pop is about to make the begin, or has made it, is never null |
| `SwapqueProof.SizeIsExactAtRest` | container/swapque.h:69-71 | for any number of pushes and pops, when no operation is between its link or its exchange and its counting, the counter is the length of what a bag order leaves, or a linearization where there is one |
| `SwapqueProgress.OperationsFinishAlone` | container/swapque.h:85-163 | from every reachable state in which nobody else holds the mutex, an operation that goes on alone returns within 22 instructions and is counted; a pop finds nothing exactly if nothing is left |
| `SwapqueProgress.CallsAreAnsweredAlone` | container/swapque.h:85-163 | one that is called then and goes on alone answers what the sequential queue answers behind an order of everything so far, with the counter one up, one down, or as it was |
| `SwapqueBag.PoppedOnce` | container/swapque.h:144-149 | an element that is pushed once is not popped twice |
| `SwapqueBag.PoppedWasPushed` | container/swapque.h:144-149 | an element that is popped was pushed |
| `SwapqueBag.EmptyMeansTaken` | container/swapque.h:109-129 | when a pop finds nothing, every element whose push was over before it was called has been taken by a pop that was called before it was over |
| `SwapqueTwoConsumers.TwoConsumersBreakTheOrder` | container/swapque.h:126-142 | there is a run with two consumers that is not linearizable |
| `Swapque.Instr` | container/swapque.h:90-152 | an instruction moves no operation but its own |
| `RingqueProof.OrderlyIsFifo` | container/ringque.h:87-151 | for an array of any length and any number of pushes and pops at once, linearizable through all claims, fills, takes and resizes in every run with no flaw but that pops may claim slots of an empty ring |
| `RingqueLimits.OrderIsKeptIff` | container/ringque.h:87-151 | if there are three different elements: of the flaws, claims of slots of an empty ring are the only one with which every run that has no other flaw is linearizable |
| `RingqueProof.CleanPopsAreServed` | container/ringque.h:141-142 | in a run without any flaw, the slot a pop has claimed is full or a push that has claimed it is about to fill it |
| `RingqueProof.SizeIsExactAtRest` | container/ringque.h:48-50 | when no operation is between its claim and its counting, the counter is the length modulo 2^32 of what a linearization leaves, in the same runs |
| `RingqueProgress.OperationsFinishAlone` | container/ringque.h:87-151 | in a run without a flaw, while nobody else holds the mutex and what it has read does no harm, an operation that goes on alone returns within 20 instructions, a resize included, and is counted, with the answer of a linearization |
| `RingqueProgress.CallsAreAnsweredAlone` | container/ringque.h:87-151 | one that is called then and goes on alone answers what the sequential queue answers behind a linearization of everything so far |
| `RingqueProgress.TestEndsIff` | container/ringque.h:94-107 | a push in a run without a flaw that comes to its test, nobody else holding the mutex, and would not double an array with push equal to pop, returns alone if and only if its slide is not right behind pop with pop below push; otherwise it doubles the array for ever |
| `RingqueLimits.APushDoublesForever` | container/ringque.h:94-107 | there is a run without a flaw in which a push that goes on alone never returns |
| `RingqueOneConsumer.OneConsumerIsClean` | container/ringque.h:87-151 | with any number of pushes and pops that do not overlap, a run in which no push claims the last slot of a full ring and no resize finds push equal to pop has no flaw |
| `RingqueOneConsumer.OneConsumerIsFifo` | container/ringque.h:87-151 | every such run is linearizable |
| `RingqueSingle.SingleIsClean` | container/ringque.h:87-151 | when pushes do not overlap and pops do not overlap, no run has a flaw |
| `RingqueSingle.RingqueIsFifo` | container/ringque.h:87-151 | for an array of any length, linearizable through all claims, fills, takes and resizes when pushes do not overlap and pops do not overlap |
| `RingqueSingle.FillNeverWaits` | container/ringque.h:113-118 | then the slot a push has claimed is null |
| `RingqueSingle.FullTestIsExact` | container/ringque.h:93-104 | then the test for a full ring is true exactly when all slots but one are claimed, and a resize keeps the row of slots |
| `RingqueSingle.SizeIsExactWhenSingle` | container/ringque.h:48-50 | then, when no operation is between its claim and its counting, the counter is the length modulo 2^32 |
| `RingqueResize.FullIff` | container/ringque.h:93-94 | push is right behind pop exactly when all slots but one are claimed, and meets it exactly when none is |
| `RingqueResize.ResizeKeepsRowIff` | container/ringque.h:154-180 | the doubled ring is in range, holds the same row of slots if and only if push and pop differ, and is null elsewhere |
| `RingqueResize.Ring.GetQue` | container/ringque.h:183-193 | an array of null slots |
| `RingqueResize.Ring.Copy` | container/ringque.h:163-176 | a copy loop moves a stretch of slots and leaves the others |
| `RingqueResize.Ring.Resize` | container/ringque.h:154-180 | both copy branches give the array and the pop slide of which the lemmas speak |
| `RingqueFlaws.PushClaimIsSoundIff` | container/ringque.h:109-113 | in every run, the exchange of a push adds the claimed slot to the row and nothing else if and only if the ring is not full when it happens; otherwise the row is gone |
| `RingqueFlaws.PopClaimIsSoundIff` | container/ringque.h:132-142 | in every run, the exchange of a pop takes one slot, the one it goes on to empty, off the row if and only if the ring is not empty and the tail is that of the slide it replaces |
| `RingqueFlaws.EmptyTestIsRightIff` | container/ringque.h:132-139 | in every run, the test of a pop for an empty ring is right if and only if its tail is the tail or neither of the two is at push |
| `RingqueFlaws.ResizeIsSoundIff` | container/ringque.h:100-101 | in every run, a resize keeps the row if and only if push and pop differ |
| `RingqueLimits.OverlappingPushesLoseElements` | container/ringque.h:93-118 | there is a run with overlapping pushes, one consumer and no resize, with claims in a full ring as its only flaw, that is not linearizable: two elements are in the ring and a pop finds it empty |
| `RingqueLimits.HeldPushSwaps` | container/ringque.h:113-118 | there is a run, with claims of a slot another push has yet to fill as its only flaw, in which an element is popped after one that was pushed later |
| `RingqueLimits.EmptyResizeSwaps` | container/ringque.h:93-107 | there is such a run with resizes of an empty ring as its only flaw |
| `RingqueLimits.StaleEmptyMisses` | container/ringque.h:134-141 | there is a run, with tests of an old tail as its only flaw, in which a pop finds nothing although an element is in the ring before it is called and never taken |
| `RingqueLimits.StaleClaimSwaps` | container/ringque.h:134-142 | there is a run, with claims of the slot of an old tail as its only flaw, in which an element is popped after one that was pushed later |
| `RingqueLimits.HeldPopSwaps` | container/ringque.h:141-142 | there is such a run with claims of a slot another pop has yet to empty as its only flaw |
| `RingqueLimits.EmptyClaimBlocksAPop` | container/ringque.h:134-142 | there is a run, with claims of slots of an empty ring as its only flaw, in which a pop never returns, whatever is pushed, unless another pop is called |
| `RingqueLimits.OverlappingPushesMakePhantoms` | container/ringque.h:90-107 | there is a run of overlapping pushes after which two slots of an empty ring count as claimed that no push is filling |
| `RingqueLimits.OverlappingPushesBlockAPop` | container/ringque.h:93-107 | there is a run with overlapping pushes in which an empty ring is doubled, an element is pushed, and a pop called after that never returns, whatever is pushed, unless another pop is called |
| `RingqueLimits.OverlappingPopsBlockOne` | container/ringque.h:132-148 | there is a run with overlapping pops in which one takes the one element and the other never returns, whatever is pushed, unless another pop is called |
| `Ringque.Instr` | container/ringque.h:88-150 | an instruction moves no operation but its own |
| `Rpc.ArgumentArrivesIff` | juggle/service/caller.cpp:39-41 | a handler reads the argument the caller wrote unless it has the name of a header field that is overwritten with something else |
| `RpcProof.CallbackGetsItsOwnReply` | juggle/service/service.cpp:70-87 | a callback is invoked only where its call was made, after a handler at the other end was given exactly the command of that call, and with what that handler returned |
| `RpcProof.AtMostOnce` | juggle/service/service.cpp:81-86 | no call is delivered twice or handled twice, although callbacks are never erased |
| `RpcProof.RepliesAreNeverDropped` | juggle/service/caller.cpp:43-45 | every reply waiting at an end finds its callback |
| `RpcProof.CallIsHandledIff` | juggle/service/service.cpp:76-80 | a call that is taken is handled if and only if its method was provided before, and then one reply, with its identifier, its method and what the handler returns, goes back with the next answer |
| `RpcProof.ReplyIsDelivered` | juggle/service/service.cpp:81-86 | a reply that is taken is delivered to the callback registered for it |
| `RpcProof.IgnoredWasNotProvided` | juggle/service/service.cpp:76-86 | only calls are ever ignored, and only calls of a method that was not provided by then |
| `RpcProof.RepliesKeepTheOrderOfCalls` | juggle/service/service.cpp:70-87 | at one end of a channel replies are delivered in the order in which their calls were pushed |
| `RpcProof.TokensAreConserved` | juggle/service/service.cpp:70-87 | a call is in no two of: being sent, one position of one queue, a reply about to be pushed, delivered once, ignored once |
| `RpcProof.TokensAreNeverLost` | juggle/service/service.cpp:70-87 | a call that was registered is in one of them |
| `RpcService.Caller.CallModuleMethodAsync` | juggle/service/caller.cpp:38-46 | the object is turned into the request, the callback registered and the request pushed |
| `RpcService.JuggleService.RegisterModuleMethod` | juggle/service/service.cpp:139-142 | the first registration of a name stays |
| `RpcService.JuggleService.RegisterRpcCallback` | juggle/service/service.cpp:144-147 | the first registration of an identifier stays |
| `RpcService.JuggleService.Serve` | test/test_service/juggle_scprit/server/jugglemodule.h:705-715 | a generated handler pushes the reply to the command with what the method returned |
| `RpcService.JuggleService.DispatchOne` | juggle/service/service.cpp:71-86 | one channel loses its first command, a call of a registered method adds one object with the result of the handler to what is pushed, the callback of a reply is invoked, and nothing else happens |
| `RpcService.JuggleService.Dispatch` | juggle/service/service.cpp:70-87 | one pass does this to every channel, and the callbacks are invoked in the order of the channels |
| `Mempool.StandardCovers` | pool/mempool.cpp:34-73 | the standard length is the least of the six used classes that covers the request, or the least multiple of 4096 above 65536, classes from 6 on are never used, and one class means one standard length |
| `Mempool.Block.LowerBoundOf` | pool/mempool.cpp:146-147 | the smallest length of a chunk that is large enough, if there is one |
| `Mempool.Mempool.Ask` | pool/mempool.cpp:139-151 | an arena whose lock is held gives the head of the list, which moves on, or the smallest chunk that is large enough, which stays |
| `Mempool.Mempool.HandOut` | pool/mempool.cpp:163-165 | all words in the standard length are set to zero, words behind it stay |
| `Mempool.Mempool.Allocator` | pool/mempool.cpp:132-166 | the first arena that is free and can serve does, otherwise malloc; the block is cleared throughout its standard length |
| `Mempool.Mempool.Deallocator` | pool/mempool.cpp:173-192 | the block goes to the front of the list of its class, or into the map of chunks, of the arena that is next when a lock succeeds |
| `MempoolProof.AllocateGivesAFreeBlock` | pool/mempool.cpp:132-166 | a block that is given out, other than a reused chunk, was not in use, has room for the request, is zero throughout its standard length, and no other block in use changes |
| `MempoolProof.SmallRequestsReuse` | pool/mempool.cpp:136-161 | a request of at most 512 bytes is answered with the head of the list of its class in the first arena that has one and whose lock is free, without malloc; if there is none, by malloc |
| `MempoolProof.MiddleRequestsNeverReuse` | pool/mempool.cpp:139-161 | a request of 513 to 65536 bytes is answered by malloc, whatever is on the lists |
| `MempoolProof.LargeRequestsShare` | pool/mempool.cpp:145-161 | above that, the first arena whose lock is free and that has a large enough chunk answers with its smallest one, which stays in the map; if there is none, malloc answers |
| `MempoolProof.FreedBlocksGoFirst` | pool/mempool.cpp:176-192 | a freed block of a class is the head of its list in the arena `misses` modulo the number of arenas, and points at the block that was the head |
| `MempoolProof.FreedChunksAreKept` | pool/mempool.cpp:183-185 | a freed chunk joins the chunks of that arena under its standard length, unless that is taken |
| `MempoolProof.FreedLastGivenFirst` | pool/mempool.cpp:132-192 | a block of at most 512 bytes that is freed is what the next request of its class is given by that arena, and every list is as it was before |
| `MempoolProof.InitHasOneOfEach` | pool/mempool.cpp:90-114 | a fresh arena has one block of the right length on every list |
| `MempoolProof.AllocateKeepsPartitionIff` | pool/mempool.cpp:136-161 | allocation keeps every block in exactly one place if and only if it does not answer out of a map of chunks |
| `MempoolProof.DeallocateKeepsPartitionIff` | pool/mempool.cpp:173-192 | deallocation, with a length whose standard length fits the block, keeps every block in exactly one place if and only if the map of chunks does not already have its length |
| `MempoolProof.ListsAreDetermined` | pool/mempool.cpp:141-142 | head and first words of the blocks determine a free list, which is finite |
| `MempoolProof.BlocksArePartitioned` | pool/mempool.cpp:132-192 | in every run of allocations and frees of any length, with any locks, any writes of clients and frees into any arena, as long as no chunk is reused or dropped, each block is in exactly one place and every free list ends |
| `MempoolProof.ChunksAreGivenOutTwice` | pool/mempool.cpp:145-149 | there is a run after which a chunk is given to one client and, while that one holds it, to another |
| `MempoolProof.ChunksAreDropped` | pool/mempool.cpp:183-185 | there is a run after which a freed chunk is in no place any more |
| `Parser.Func.Push` | juggle/rpcmake/statemachine.py:53-90 | one character does to a function what the step function says, or raises the exception |
| `Parser.Module.Push` | juggle/rpcmake/statemachine.py:99-117 | the same for a module |
| `Parser.Struct.Push` | juggle/rpcmake/statemachine.py:21-40 | the same for a struct |
| `Parser.StateMachine.Push` | juggle/rpcmake/statemachine.py:129-147 | the same for a file, modules and structs |
| `Parser.StateMachine.SyntaxAnalysis` | juggle/rpcmake/statemachine.py:155-157 | from any state, all characters of all lines are fed in order, until an exception |
| `ParserProof.StripGap` | juggle/rpcmake/deletenonespacelstrip.py:5-12 | a gap in front of a word is stripped, whole: newlines, tabs, zeros, tabs, spaces, tabs |
| `ParserProof.OnlyGapsAreStripped` | juggle/rpcmake/deletenonespacelstrip.py:5-12 | what is stripped from any text is such a gap |
| `ParserProof.FeedToEnd` | juggle/rpcmake/statemachine.py:53-90 | a printed function, with or without arguments and whatever its gaps, is parsed to its parts |
| `ParserProof.ParsesWhatIsPrinted` | juggle/rpcmake/statemachine.py:129-157 | parsing the printed modules gives back the modules, whatever the gaps |
| `ParserProof.FilePartsAre` | juggle/rpcmake/statemachine.py:131-134 | for distinct names the result has exactly the printed modules, each with its functions |
| `ParserProof.ParsingLosesOnlyGaps` | juggle/rpcmake/statemachine.py:129-157 | two files that parse alike print the same modules, with the same functions and arguments in the same order |
| `ParserMeaning.FunctionMeans` | juggle/rpcmake/statemachine.py:53-90 | any text without a semicolon or closing brace, and a semicolon, adds to the module the parts its words mean, each argument with all its words wherever they stand; there is an exception exactly when a comma or closing parenthesis ends a word before the first opening parenthesis |
| `ParserMeaning.ModuleMeans` | juggle/rpcmake/statemachine.py:99-147 | a module with any header, any functions and anything behind the last semicolon is recorded under its stripped header with what the functions mean, or there is an exception, exactly when one of them means nothing |
| `ParserMeaning.StructMeans` | juggle/rpcmake/statemachine.py:21-40 | a struct with any header and any body: one member for each semicolon, with everything in front of each of its blanks |
| `ParserMeaning.ClosedBeforeOpened` | juggle/rpcmake/statemachine.py:99-147 | a closing brace without an opening one records a module or a struct without a name |
| `ParserMeaning.PilesUp` | juggle/rpcmake/statemachine.py:137-147 | outside of modules and structs nothing happens until the characters spell a keyword |
| `ParserMeaning.NothingIsFoundBehind` | juggle/rpcmake/statemachine.py:137-147 | once they do not begin a keyword, none is ever found |
| `ParserMeaning.NewlineHidesTheRest` | juggle/rpcmake/statemachine.py:137-147 | whatever stands behind a module and a newline is not parsed |
| `ParserProof.MembersRunTogether` | juggle/rpcmake/statemachine.py:21-40 | each word kept for a member of a struct is everything from the opening brace up to a blank |
| `Hashes.MixingIsInjective` | container/small_hash_map.h:247-256 | two 32-bit keys never have the same mixed word |
| `Hashes.MixedByProducts` | container/small_hash_map.h:247-256 | the mixed word in arithmetic: three products modulo 2^32 and exclusive ors with quotients |
| `Hashes.XorOfBits` | container/small_hash_map.h:249-253 | the exclusive or of two words has the bits that are set in one of them and not in both |
| `Hashes.Hash64Is` | container/small_hash_map.h:262-264 | keys below 1023 are their own hash, and keys hash alike exactly when they are a multiple of 1023 apart |
| `Hashes.SignedHashIsAnIndexIff` | container/small_hash_map.h:258-260 | the hash of a signed 64-bit key is the index of a bucket if and only if the key is not negative or a multiple of 1023 |
| `Hashes.HashOf` | container/small_hash_map.h:208-215 | the loop over a string computes 5831 times 34 to the power of the length plus the sum of each code times 34 to the power of how many follow it, modulo 2^32 and then 1023 |
| `Hashes.HashIsWeightedSum` | container/small_hash_map.h:208-215 | cutting to 32 bits at every step or once at the end is the same |
| `SmallHashMap.MapOfUint32` | container/small_hash_map.h:247-256 | a fresh map over 32-bit keys is a valid empty map that finds buckets by the mixed word modulo 1023 |
| `SmallHashMap.MapOfUint64` | container/small_hash_map.h:262-264 | a fresh map over 64-bit keys is a valid empty map that finds buckets by the key modulo 1023 |
| `SmallHashMap.MapOfString` | container/small_hash_map.h:208-215 | a fresh map over strings is a valid empty map that finds buckets by the weighted sum |
| `SmallHashMap.SmallHashMap.Insert` | container/small_hash_map.h:105-135 | the map gets the value for the key, and the counter goes up either way |
| `SmallHashMap.SmallHashMap.Search` | container/small_hash_map.h:140-160 | the value of the key, if it has one |
| `SmallHashMap.SmallHashMap.Erase` | container/small_hash_map.h:165-188 | the key is removed and the counter goes down exactly when it was there |
| `SmallHashMap.SmallHashMap.Set` | container/small_hash_map.h:83-100 | the value changes exactly when the key is there; a bucket nothing was inserted into is a null pointer |
| `SmallHashMap.SmallHashMap.ForEach` | container/small_hash_map.h:67-78 | every key is visited exactly once, with its value |
| `SmallHashMap.Perform` | container/small_hash_map.h:83-195 | any sequence of inserts, erases, searches and sets on a fresh map has the answers and leaves the content that one plain map has, up to a crash, and the counter is inserts minus successful erases in 32 bits |
| `SmallHashMap.CrashesIff` | container/small_hash_map.h:83-95 | a sequence crashes if and only if it sets a key before any key of the same hash is inserted |
| `SmallHashMap.SizeExceedsKeys` | container/small_hash_map.h:134-187 | that count is the number of keys and the number of inserts that found their key there |

## Left out

- Queue operations as methods with loops: the retry loops of the queues are modelled as program counters of a state machine over values, because other threads step in between; update in place of shared nodes is a change of the maps `next` and `prev`.
- Reclamation of nodes and lists (`retire`, `put_node`, `put_list`, `put_que`): `container/detail/_hazard_ptr.h` is not part of this model, and nodes are never reused.
- Memory orders: all atomics are sequentially consistent.
- `clear` of `optimisticque`, `swapque` and `ringque`: they depend on the destruction of locked or protected objects; with one list only, the load of the list pointer is not a step.
- Msque.Instr: its contract only says that other operations stay where they are; what an instruction does to the lists is what the results about all runs are about.
- Optimisticque.Instr: the same.
- Swapque.Instr: the same.
- Ringque.Instr: the same.
- OptimisticqueProof.OptimisticqueIsLinearizable: is about a pop that starts over after its repair walk, which the source lacks; what holds of the source is in `OptimisticqueCareful`.
- OptimisticqueProof.LinearizableWhileIntact: its condition is that the head has not become null; a condition that callers can keep is in `OptimisticqueCareful.CarefulIsLinearizable`.
- OptimisticqueRepair.LonePopOutcome: a pop that runs alone; among others it is covered by `OptimisticqueCareful.CarefulIsLinearizable`.
- Swapque.Enabled: a push counts only while the queue holds fewer than 2^32 - 1 elements, so the wrap of this counter is not modelled; a pop that sees a wrapped zero would say "empty".
- Overflow of the slides of `ringque` beyond 2^32 slots.
- RpcProof: what a handler returns is any string, so state inside handlers is not modelled; `remove_rpcsession`, the fibers, semaphores and timers of the main loop, and `call_module_method_sync` are left out.
- RpcService.JuggleService.Serve: the handlers are functions of the command; vector results are left out.
- Mempool.Init: the start-up memsets and the order of static initialisation; an arena starts with one block in each list.
- MempoolProof.BlocksArePartitioned: no chunk is reused or dropped; the two lemmas on allocation and deallocation say exactly when that breaks the partition.
- Mempool.Standard: the rounding up of lengths within 4095 of 2^31, which overflows an `int`.
- Interleaving inside one allocation: an arena is only touched under its lock, and the scan is one action.
- Parser: `deletenote.py` and the text emitted by `codegen.py`.
- SmallHashMap: the locks of the buckets, the hash of signed 32-bit keys, whose shifts overflow, maps over signed keys, and the order of the keys within a bucket.
- OptimisticqueProgress.OperationsFinishAlone: without the retry it is about runs that meet the condition of `OptimisticqueCareful`; a pop that looks for the next node also needs the push behind the head not to be half done, because otherwise it puts null into the head.
- SwapqueProgress.OperationsFinishAlone: nobody else holds the mutex; an operation waits for the others as long as they hold it.
- RingqueProgress.OperationsFinishAlone: the same, in runs without a flaw, and for an operation that has read nothing that would be a flaw; `RingqueProgress.TestEndsIff` says when the test of a push comes back for ever.
- The sockets of `remoteq/`, the JSON plug-in, `chuckledb`, `uuid` and the fibers of `context/`: input and output or library wrappers.
