# A verified model of the pair proxy

The pair proxy carries one TCP stream over several parallel TCP links. The transmitter
proxy cuts the intercepted stream into blocks of 1000 bytes; worker threads, one for each
link, race to claim blocks, stamp each with a 16-bit joint sequence number and send it.
On the other side one receiver thread for each link puts what arrives into a shared binary
heap, and one forwarder takes consecutive runs off the heap and sends them to the
destination. This project models that code in Dafny and proves what it promises, and where
the promise ends.

## How the files fit together

- `network.dfy`: blocks, stamps, packets, framing, and the zero-filled stream.
- `heaporder.dfy`, `pqueue.dfy`: the intrusive heap, with its array, back-pointers and
  sift loops, for any strict weak order; `CmpPri` is the order the receiver proxy installs.
- `sockets.dfy`: how much one socket call moves is up to the network, so it is a parameter.
- `splitter.dfy`, `receptor.dfy`, `forward.dfy`, `stream.dfy`: the code of the proxies and
  of the file source, as classes and methods in the source's shape.
- `batch.dfy`: what `fill_queue` takes from the queue, stated over the queue's contents.
- `protocol.dfy`: the whole system as a state machine over any number of links.
- `refinement.dfy`: the methods above take exactly the steps of that machine.
- `runs.dfy`: facts about every run in every environment, and a bound on its length.
- `ledger.dfy`, `linkbytes.dfy`, `safety.dfy`: where each block is, byte for byte.
- `onelink.dfy`: over a single link the order holds at any length.
- `liveness.dfy`: a run that cannot go on has delivered everything.
- `limits.dfy`: the runs in which the destination receives something else, and the exact
  condition under which there are none.
- `completeness.dfy`: the exact condition under which every run that cannot go on has
  delivered the stream.
- `turns.dfy`: what one turn of a thread does to the machine's state, and what comes of turns
  in which every thread gets its turn again and again.
- `system.dfy`: the code of all threads, run on the same objects in any order.

## The main results

1. `System.Deliver`. Take any list of turns, in each of which one thread of either proxy runs
   its own code on the shared objects: the splitter reads and appends a block, a worker claims
   a block or makes some of its `send` calls, a receiver collects and queues a packet, the
   forwarder fills its buffer or makes some of its `send` calls. Each turn does what its thread
   has to do, as far as the sockets answer, and nothing else (`System.Proxies.TakeTurn`), and
   the objects are described by a state that the machine reaches along these turns. So results
   2 to 6 hold of the code: what the destination has received is the beginning of the stream
   under the condition of result 2, and once all threads have ended without a broken link it is
   the whole stream. And they have ended, however little each call has taken, once the turns
   have gone round all threads 6 |stream| + 5001 + 2001 links times with an answer of the
   socket in each (`Turns.EndsAfterRounds`). `System.DeliverAll`: turns of threads that have
   something to do come to that end after finitely many.
2. `Limits.ExactSafety`. For any number of links, every run on every stream of a given length
   shows the destination only the beginning of that stream, if and only if nothing can be sent
   at all (no link, or an empty stream), or the destination's socket takes whole blocks, no
   worker's `send` returns 0 inside a packet, and there is a single link or the stream has at
   most 65536 blocks. Each of the three ways to fail is a behaviour of the code: the stamp
   wraps around (tx_proxy/split.c:230) while the forwarder compares it with a counter that does
   not (rx_proxy/forward.c:169); a partly taken block is offered again from its first byte
   (rx_proxy/forward.c:129); and a truncated packet is queued with the rest of its buffer
   uninitialised (rx_proxy/link_receptor.c:72-74). The equivalence is stated for a forwarding
   buffer that grows with its batch. In the source that buffer is allocated with 10000 bytes
   for each batch (rx_proxy/forward.c:161), while the capacity that decides when it is enlarged
   keeps its value from earlier batches (rx_proxy/forward.c:180-184); a long batch after a
   long one can outgrow it, and what happens then is not part of this model.
3. `Completeness.ExactCompleteness`. Every run that cannot go on has delivered the whole
   stream, if and only if the stream is empty, or there is a link, no link ever breaks, the
   destination takes whole blocks, and the stream has at most 65536 blocks.
4. `Safety.Conservation`, `Safety.ForwardsEachOnce` and `Safety.LossIsBounded`. As long as no
   link breaks inside a packet, for streams of any length and however the destination takes its
   bytes, every state of every run has a ledger that puts each claimed block in exactly one
   place. So no block is ever forwarded twice, the k-th block forwarded has a number congruent
   to k modulo 65536, and no more blocks are lost than links have closed.
5. `Safety.DeliversInOrder`: while the stamps suffice, the k-th block forwarded is block k.
   `OneLink.DeliversAtAnyLength`: over one link it is block k at any length, since the array
   keeps block 0 above the later blocks that have its stamp.
6. `Liveness.EveryMaximalRunDelivers` and `Runs.RunsAreBounded`. No run takes more than
   6 |stream| + 5001 + 2001 links steps, and a run of a healthy system that cannot go on has
   forwarded every block, a thousand bytes for each; if the destination takes whole blocks,
   they are the stream.
7. `Liveness.CeilingIsExact`. A stream can be delivered completely if and only if it has at
   most 65536 blocks.
8. The heap operations with their logarithmic bounds, and `Forward.FillQueue` on the real heap.

## How the machine reads the source

One action is one critical section or one socket call. `SplitRecv`, `SplitAppend`,
`SplitEof` and `SplitFin` are the receive call, the append, the append of the residue and
the finish flag of `split_loop`; `Claim`, `TxSend`, `TxSendZero` and `TxFinish` are the
branches of `tx_chain`; `RxRecv`, `RxEnqueue` and `RxEof` are those of `rx_chain`; `Fill`,
`FwdSend` and `FwdDone` are `fill_queue`, one send of `forward_data`, and the update of
`sent_min_seq`. Calls that fail and are retried, timeouts, and a `fill_queue` that returns
-1 change nothing and are not listed.

Assumptions of the model:

- Each critical section is atomic. The forwarder takes its lock once before its loop
  (rx_proxy/forward.c:95) and releases it in every round, so from the second round on
  `fill_queue` is only atomic as long as the timed wait hands the lock back; the model takes
  `fill_queue` to be atomic in every round.
- The array breaks ties between equal keys, and the machine leaves them open, with one
  exception that `KeepsTop` states: until something has been taken, the oldest item with key 0
  is on top. No key is smaller and a node only rises past one that it strictly precedes
  (rx_proxy/libpqueue/pqueue.c:36-39, 109-111), and `Refinement` proves it of the array.
- The forwarder may run at any time, since it polls with a timeout (rx_proxy/forward.c:98-103);
  the condition variable only makes it run sooner.
- A socket call is a step of the machine by definition. The `Refinement` methods show that the
  calls a thread makes between two critical sections are such steps, and `System` interleaves
  them. There a worker's or the forwarder's turn may be a single call; a turn of the splitter
  or of a receiver makes all the calls for one block or packet.
- `stream` is what the splitter's connection delivers before its first `recv` that returns 0
  or fails; both end the loop in the same way (tx_proxy/split.c:530-531).
- Both proxies have the same byte order. `Network.UnframeFrame` says what happens otherwise.
- The documentation comment of `fill_queue` says that packets that are not next are put back;
  the code puts back the one it popped, which is what is modelled.
- The buffer that `fill_queue` fills is a growing sequence, and a stored block is its bytes.

## Model

| member | source | states |
|---|---|---|
| Limits.ExactSafety | tx_proxy/split.c:223-260 | for every number of links, length and environment: all runs on all streams of that length are faithful if and only if there is no link, the stream is empty, or the destination takes whole blocks, no link breaks inside a packet, and there is one link or at most 65536 blocks |
| Limits.WrapAroundFails | tx_proxy/split.c:230 | over two or more links, for every longer stream length there is a stream and a run in which block 65536 is delivered in place of block 0 |
| Limits.PartialSendFails | rx_proxy/forward.c:128-136 | a destination that takes one byte at a time receives the first byte of a block twice |
| Limits.BreakInsidePacketFails | rx_proxy/link_receptor.c:64-74 | after a `send` that returns 0 behind the header, the receiver queues a packet whose payload is junk, and it is delivered |
| Limits.SafeWhen | rx_proxy/forward.c:123-141 | the sufficient half of the exact condition |
| Limits.Load | tx_proxy/split.c:516-543 | from any reachable state with an empty receive buffer the splitter can append the next block of the stream |
| Limits.Carry | tx_proxy/split.c:227-244 | an idle link can carry the next unclaimed block to the heap and is idle again |
| System.Deliver | tx_proxy/split.c:223-263 | for every list of turns of all threads on the real objects and all answers of all sockets: the states go from turn to turn as the threads' code says, and the objects are described by the last one, which the machine reaches; so the output is the beginning of the stream under the exact condition, and the whole zero-filled stream once everything has ended and no link has broken; and everything has ended when the turns have gone round all threads 6 times the stream's length + 5001 + 2001 times the number of links times and every socket has answered in every turn |
| System.Proxies.TakeTurn | tx_proxy/split.c:224-253 | a turn does exactly what the thread has to do: the splitter appends the next block or sets the flag; a worker claims the next block, ends, or sends what its answers take; a receiver queues the packet that has arrived; the forwarder takes a batch exactly when sent + 1 is the smallest key, or sends what its answers take; nothing else changes |
| Turns.EndsAfterRounds | tx_proxy/split.c:223-260 | fairness is enough: when every thread has had its turn at least as many times over as any run has steps, and every socket has answered in every turn, all threads have ended, in whatever order the turns came and however little each call has taken |
| System.DeliverAll | tx_proxy/split.c:545-547 | turns of threads that have something to do, with sockets that take what they are offered, end; then the zero-filled stream has been delivered if there is a link and it has at most 65536 blocks |
| System.Proxies.FinishedMeansDelivered | rx_proxy/forward.c:98-113 | when all threads have ended, no link has broken and the heap holds nothing that is next, every block has been forwarded |
| System.LinkCarries | rx_proxy/link_receptor.c:54-74 | over the code of both ends of a link: what the receiver queues for the bytes of a worker that has ended are exactly the stamped blocks that the worker has claimed; a worker whose calls take a packet each sends all its blocks, and ends if and only if the flag is set |
| Completeness.ExactCompleteness | tx_proxy/split.c:234-251 | every run that cannot go on, on every stream of a length, has delivered it, if and only if the stream is empty, or there is a link, no link breaks, the destination takes whole blocks and there are at most 65536 blocks |
| Completeness.BreakLosesAll | tx_proxy/split.c:242-243 | a `send` that returns 0 before its first packet loses block 0, and then nothing is ever delivered |
| Safety.LossIsBounded | tx_proxy/split.c:242-243 | unless a link breaks inside a packet, each closed link has lost at most one block, and no other block is lost |
| Safety.Conservation | tx_proxy/split.c:224-233 | at every moment of every run without breaks inside packets, for any stream and any destination, a ledger puts each claimed block in exactly one place (a link, the heap, the forwarder, or lost with a broken link), and the bytes found there are that block's |
| Safety.AgreesStep | rx_proxy/forward.c:163-196 | each action moves in the ledger what it moves in the system and nothing else: a claim adds a block, an arrival takes the oldest block off its link, a batch takes the oldest queued blocks with its items, a break loses the last block of its link |
| Safety.ForwardsEachOnce | rx_proxy/forward.c:123-141 | in every such run, at any length, no block is forwarded twice, the k-th one's number is k modulo 65536, and the k-th thousand bytes of the output are prefixes of that block alone |
| Safety.DeliversInOrder | rx_proxy/forward.c:155-203 | with at most 65536 blocks, the k-th block forwarded is block k in every state, and a destination that takes whole blocks has received exactly the first sent + 1 blocks of the zero-filled stream |
| Safety.NeverTruncated | rx_proxy/link_receptor.c:72-74 | unless a link breaks inside a packet, a receiver that sees the end of its link has no partial packet, so none is queued |
| Safety.QueueIsFresh | rx_proxy/forward.c:163-196 | with at most 65536 blocks, between two batches no key is queued twice and none has been forwarded |
| Safety.EnqueueStep | rx_proxy/link_receptor.c:98-103 | the packet that is queued is the oldest block its link owes, and its ledger entry moves from the link to the heap |
| Safety.ClaimStep | tx_proxy/split.c:227-231 | a claim adds the next block to the ledger as pending on the claiming link, with its exact bytes |
| Safety.BreakStep | tx_proxy/split.c:242-243 | a link that breaks before the first byte of a packet loses that block and no other |
| Safety.FillStep | rx_proxy/forward.c:168-196 | each item of a batch is a queued block, taken off the heap intact and in order; of several blocks with the same item the oldest goes |
| OneLink.DeliversAtAnyLength | rx_proxy/libpqueue/pqueue.c:109-118 | over one link, for streams of any length, the blocks forwarded are the first ones of the stream, in order |
| OneLink.ZeroFirst | rx_proxy/libpqueue/pqueue.c:36-39 | block 0 is the first block taken, even when later blocks with its stamp are queued |
| OneLink.TakenInSequence | rx_proxy/forward.c:169 | over one link a later block cannot be taken for an earlier one with its stamp, because block 65536, whose stamp 0 is smaller, is queued before it |
| LinkBytes.FullBuffer | rx_proxy/link_receptor.c:59-68 | a full receive buffer is exactly the frame of the oldest block in transit, whatever the segmentation |
| Liveness.EveryMaximalRunDelivers | tx_proxy/split.c:545-547 | every run is bounded, and a healthy run that cannot go on has forwarded every block and no more, a thousand bytes for each; to a destination that takes whole blocks that is the zero-filled stream |
| Liveness.CeilingIsExact | commons/network/network.h:53-56 | over at least one link a run that delivers the whole stream exists if and only if the stream has at most 65,536,000 bytes |
| Liveness.RunOn | rx_proxy/forward.c:98-113 | every run can be continued until nothing is left to do |
| Runs.RunsAreBounded | tx_proxy/split.c:235-244 | no run takes more than 6 times the stream's length + 5001 + 2001 times the number of links steps |
| Runs.StepWorks | rx_proxy/link_receptor.c:54-78 | every action strictly decreases the weighed work left in the system |
| Runs.DeliveryCeiling | rx_proxy/forward.c:187 | in every run of every environment `sent` stays below 65536 and the output at 65,536,000 bytes |
| Runs.Counters | rx_proxy/forward.c:104-108 | each block sent has cost exactly 1000 accepted bytes, and between two batches `sent_min_seq` is the number of blocks sent |
| Runs.AvailWasQueued | rx_proxy/link_receptor.c:102-103 | every number from 1 to `avail_min_seq` was the stamp of a packet that some step of the run queued |
| Runs.AvailIsLongest | rx_proxy/link_receptor.c:102-103 | in every run `avail_min_seq` has reached k if and only if packets with the stamps 1 to k were queued in this order, whatever was queued in between |
| Runs.FinishingIsSafe | tx_proxy/split.c:246-249 | when a worker may close because of the finish flag, the whole stream has been appended and claimed, then and in every later state |
| Runs.FinIsFinal | tx_proxy/split.c:539-547 | once the finish flag is set no block is appended any more |
| Refinement.RoundTakesSteps | rx_proxy/forward.c:98-113 | one round of the forwarder's code is a path of the machine that takes a batch and sends what the answers take of it; it leaves the transmitter and the links alone, stops early only when no answer is left, and sends all of the batch unharmed when as many whole answers come as it has blocks; so under the exact condition what the code has sent is the beginning of the stream |
| Refinement.FillTakesStep | rx_proxy/forward.c:103-108 | the code of `fill_queue` takes the machine's fill step, with the root of the heap first, or no step when it returns -1 because sent + 1 is not the smallest queued key; nothing else changes |
| Refinement.SendBatchTakesSteps | rx_proxy/forward.c:104-108 | the sends of a batch, from wherever they have got to, and the update of `sent_min_seq` are a path of the machine to the state that the answers decide, also when packets have arrived since; the calls stop early only when no answer is left; nothing but the forwarder changes |
| Refinement.EnqueueTakesStep | rx_proxy/link_receptor.c:89-112 | the code of `add2queue` takes the machine's enqueue step with the received packet, whatever the forwarder is doing; nothing but the pool and its link changes |
| Refinement.ReceiveTakesSteps | rx_proxy/link_receptor.c:54-78 | collecting and queueing one packet, or what is left on a closed link, is a path of the machine to exactly the state with that packet queued |
| Refinement.ClaimTakesStep | tx_proxy/split.c:224-253 | the code of a claim takes the machine's claim step, its finish step, or none: the next block if there is one, and otherwise the finish if the flag is set; only the claiming link and the index change |
| Refinement.SendTakesSteps | tx_proxy/split.c:233-244 | the calls that send one packet, or the rest of it, are a path of the machine in the mildest environment that allows the answers: the sum of the answers goes out, until all of it is sent, an answer is 0, or none is left |
| Refinement.SplitTakesSteps | tx_proxy/split.c:524-543 | reading and appending one block, or what is left of the last one, is a path of the machine that appends exactly that block and changes nothing but the splitter and the buffer |
| Refinement.AppendTakesStep | tx_proxy/split.c:561-599 | the code of `add2buff` takes the machine's append step, and nothing else changes |
| Refinement.FinTakesStep | tx_proxy/split.c:545-547 | setting the finish flag takes the machine's step, and nothing else changes |
| Refinement.StartsAsInit | tx_proxy/split.c:350-362 | freshly made objects are as the machine's initial state describes them |
| PriorityQueue.PQueue.Init | rx_proxy/libpqueue/pqueue.c:61-88 | a new queue is valid and empty, with room for n nodes |
| PriorityQueue.PQueue.Size | rx_proxy/libpqueue/pqueue.c:96-101 | the size is the number of queued nodes |
| PriorityQueue.PQueue.BubbleUp | rx_proxy/libpqueue/pqueue.c:103-119 | from an array in order but for the edge above the start slot i, restores order, membership and back-pointers in at most floor(log2 i) moves; another node at the root stays there unless the moving one outranks it |
| PriorityQueue.PQueue.PercolateDown | rx_proxy/libpqueue/pqueue.c:137-153 | the same for the edges below the start slot i, in at most floor(log2((size - 1) / i)) moves, and none when the slot is no longer live |
| PriorityQueue.PQueue.MaxChildOf | rx_proxy/libpqueue/pqueue.c:122-134 | a child that no sibling outranks, or 0 exactly for a leaf |
| PriorityQueue.PQueue.Insert | rx_proxy/libpqueue/pqueue.c:165-188 | adds exactly the node and keeps heap order and back-pointers, growing by `step` exactly when the array is full; the root stays unless the new node outranks it |
| PriorityQueue.PQueue.ChangePriority | rx_proxy/libpqueue/pqueue.c:190-203 | restores heap order and back-pointers for any new priority, sifting in one direction only |
| PriorityQueue.PQueue.Remove | rx_proxy/libpqueue/pqueue.c:214-224 | takes out exactly the node, wherever it sits, the last slot included |
| PriorityQueue.PQueue.Pop | rx_proxy/libpqueue/pqueue.c:235-247 | takes out a node that no queued node outranks; returns null exactly on an empty queue |
| PriorityQueue.PQueue.Peek | rx_proxy/libpqueue/pqueue.c:250-257 | returns the root, which no queued node outranks, without taking it out |
| PriorityQueue.PQueue.Drain | rx_proxy/libpqueue/pqueue.c:293-294 | popping until empty yields every node exactly once, no later one outranking an earlier one |
| PriorityQueue.PQueue.SubtreeIsValid | rx_proxy/libpqueue/pqueue.c:299-316 | for any nodes in the live slots, true exactly when no child outranks its parent anywhere in the subtree |
| PriorityQueue.PQueue.IsValid | rx_proxy/libpqueue/pqueue.c:318-321 | for any nodes in the live slots, true exactly when no child outranks its parent anywhere in the array |
| PriorityQueue.PQueue.ValidIsChecked | rx_proxy/libpqueue/pqueue.c:318-321 | the validity that every operation keeps implies that the check succeeds |
| HeapOrder.OrderedMeansAncestorsOutrank | rx_proxy/libpqueue/pqueue.c:299-321 | for any strict weak order: no parent is outranked by a child if and only if no slot is outranked by any slot below it |
| HeapOrder.DescentBound | rx_proxy/libpqueue/pqueue.c:103-153 | a walk from slot a towards the leaves that stays within n makes at most floor(log2(n / a)) moves, and at most floor(log2 n); the bounds of both sifts rest on it |
| HeapOrder.BubbleStep | rx_proxy/libpqueue/pqueue.c:109-115 | one move of a rising hole leaves only the edge above the new hole in doubt |
| HeapOrder.PercolateStep | rx_proxy/libpqueue/pqueue.c:143-149 | one move of a sinking hole leaves only the edges below the new hole in doubt |
| HeapOrder.RefilledUp | rx_proxy/libpqueue/pqueue.c:216-219 | if the last element outranks the one it replaces, only the edge above can be out of order |
| HeapOrder.RefilledDown | rx_proxy/libpqueue/pqueue.c:220-221 | if it does not, or at the root, only the edges below can be |
| HeapOrder.CmpPriIsStrictWeakOrder | rx_proxy/libpqueue/pqueue.c:36-39 | the installed comparator is a strict weak order |
| Batch.BatchIsLongestRun | rx_proxy/forward.c:143-154 | with distinct keys not yet forwarded, a batch is exactly the longest run of queued keys starting at sent + 1, and the rest stays |
| Batch.TakeBatch | rx_proxy/forward.c:168-172 | a non-empty batch can be taken if and only if sent + 1 is the smallest queued key |
| Forward.FillQueue | rx_proxy/forward.c:155-203 | on the real heap, for any queued keys: the buffer holds the batch's payloads in order, the root of the heap first, the heap is valid and holds exactly the rest, and -1 stands for an empty batch |
| Forward.TakeNext | rx_proxy/forward.c:163-171 | pops the smallest node if it carries the expected key and otherwise leaves the queue as it was |
| Forward.ForwardData | rx_proxy/forward.c:123-141 | for any answers of the socket, and from any point of a batch, `sent` and the output move exactly as the sequence of answers says; calls are made until everything has been sent or no answer is left, and no longer |
| Forward.ForwardOnce | rx_proxy/forward.c:98-113 | one round takes a batch and sends what the answers take of it, and adds its size to `sent_min_seq` when all of it has been sent; it stops early only when no answer is left, and as many whole answers as the batch has blocks send all of it, unharmed |
| Forward.WholeBatch | rx_proxy/forward.c:127-138 | answers that take whole blocks or nothing, at least as many that take something as there are blocks, send exactly the blocks |
| Forward.WholeSends | rx_proxy/forward.c:128-138 | when every call that takes anything takes a whole block, the output is the blocks in order |
| Forward.ExactlyWhole | rx_proxy/forward.c:129-130 | a block that has been sent is unharmed, whatever its bytes, if and only if the first call that took anything took all of it |
| Receptor.RxChain | rx_proxy/link_receptor.c:54-78 | under any segmentation, with failed calls in between and whatever other receivers queue meanwhile, every whole packet of the wire is queued exactly once, and a truncated last one too, filled up with what the buffer held; `avail_min_seq` follows the order of all arrivals |
| Receptor.LinkRoundTrip | rx_proxy/link_receptor.c:54-74 | what a receiver queues for the frames of some packets is exactly those packets |
| Receptor.Pool.Add2Queue | rx_proxy/link_receptor.c:89-112 | queues exactly the unframed packet, moves `avail_min_seq` only when the packet is the next one, and signals only for the number after `sent_min_seq` |
| Receptor.RepresentsRemove | rx_proxy/forward.c:177-188 | the node popped off the heap carried one of the queued items, and taking it out takes out exactly that item |
| Receptor.Pool.Enqueue | rx_proxy/libpqueue/pqueue.c:109-118 | a packet with the same key as the root does not displace it |
| Sockets.ReceiveUpTo | rx_proxy/link_receptor.c:56-67 | the receive loop collects exactly the wanted bytes, or what is left before the end, under any segmentation and with any failed calls in between |
| Splitter.ProxyBuff.constructor | tx_proxy/split.c:350-362 | the shared buffer starts empty with nothing claimed |
| Splitter.ProxyBuff.Add2Buff | tx_proxy/split.c:561-599 | appends exactly the zero-filled block; the array doubles exactly when fewer than 2 * sizeof(char*) entries remain, every earlier block survives, and there is always room |
| Splitter.ProxyBuff.Claim | tx_proxy/split.c:226-249 | hands out each block exactly once, stamped with its number modulo 65536, and reports the end only when every block has been claimed |
| Splitter.SendPacket | tx_proxy/split.c:234-244 | for any answers of the socket the link takes the first bytes of the packet, as many as the answers add up to; calls are made until all of it was taken, an answer is 0 (closed), or no answer is left (pending), and no longer |
| Splitter.ShipsOneWay | tx_proxy/split.c:235-243 | the answers decide how many of them are used and how the sending of a packet ends |
| Splitter.TxChain | tx_proxy/split.c:223-263 | whatever other workers claim meanwhile, a worker's bytes are the frames of the stamped blocks it has claimed, in increasing order, as far as the answers go; it stops only on an answer of 0, for want of an answer for a packet it has begun, or when every block is claimed, for good if and only if the flag is set; alone it claims every block, and with calls that take a packet each it sends all it claims |
| Splitter.SplitLoop | tx_proxy/split.c:516-548 | under any segmentation, while workers claim blocks, appends exactly the blocks of the stream, then sets the finish flag; blocks are claimed by the workers only |
| Splitter.BlocksArePadded | tx_proxy/split.c:567-573 | the blocks of a stream, one after the other, are the stream followed by zeros up to the next multiple of 1000 |
| Network.UnframeFrame | commons/network/network.h:53-56 | a packet survives framing if and only if both hosts have the same byte order or its stamp is a multiple of 257; its payload always does |
| Network.FrameLayout | commons/network/network.h:53-56 | on the wire the payload follows the two header bytes unchanged; the low byte of the stamp comes first or second with the byte order |
| Network.ParseFrames | rx_proxy/link_receptor.c:59-68 | cutting the frames of any list of packets, with an incomplete tail, gives back the packets and the tail |
| Stream.StreamFile | stream/stream.c:118-135 | for any answers of the socket what has been written is a prefix of the file: as many bytes as the answers add up to, if none exceeds its offer; all of it, if every successful write takes its offer and there are as many as the file has blocks, or in any case once there are as many as it has bytes; and no call is made after that |
| Stream.WrittenWhen | stream/stream.c:118-135 | the same laws of the function that gives the bytes written, and their exact number when every successful write takes its offer: a block each, up to the length of the file |

## Left out

- Sockets, polling, netfilter, address lookup, signals, configuration, arguments and logging; the model starts after a successful accept.
- The inverted assertion on the result of `accept` (tx_proxy/split.c:504).
- `receive/receive.c`: it counts residue bytes twice and prints an unterminated buffer.
- Splitter.TxChain: the other workers are calls of the claim between this worker's rounds, and blocks that are appended later belong to its next call; System.Deliver has every interleaving.
- Splitter.SplitLoop: the workers are calls of the claim between two blocks.
- Receptor.RxChain: the other receivers are calls of `add2queue` between this one's rounds, and the forwarder takes nothing meanwhile; System.Deliver has every interleaving.
- System.LinkCarries: the worker runs to its end before the receiver starts; over one FIFO link the receiver's bytes are the same either way.
- System.Deliver: a receiver's turn waits until a whole packet, or the end of its link, has arrived; the partly filled receive buffers in between are states of the machine only.
- Sockets.ReceiveUpTo: what the socket does is a parameter, and a connection that fails for ever is not among its values; in the splitter's loop a failed call ends the stream.
- PriorityQueue.PQueue.Drain: `pqueue_print` pops a copy that shares its nodes, and so overwrites the positions of the printed queue; only the order of the output is claimed.
- PriorityQueue.PQueue.BubbleUp: the walk of the hole, whose length counts the moves, is a ghost result.
- Splitter.ProxyBuff.Add2Buff: the array holds the bytes of a block and not a pointer to the receive buffer, which the source never touches again.
- The bookkeeping of `byte_capacity` and `byte_count` (rx_proxy/forward.c:180-184), which does not track the freshly allocated buffer; a batch that outgrows it is not modelled.
- The `PASSIVE` link state, which nothing sets, and the fields of the link list.
- Failed allocations, leaks, and integer widths other than the 16-bit stamp.
