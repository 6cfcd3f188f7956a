/** The forwarder (rx_proxy/forward.c): taking consecutive packets off the heap and
    sending them to the destination. */
module Forward {
  import opened Network
  import opened HeapOrder
  import opened PriorityQueue
  import opened Batch
  import opened Receptor
  import opened Sockets

  class FQueue {
    var buffer: seq<Block>
    var sent: int
    var out: seq<byte> // what the destination's socket has accepted

    constructor ()
      ensures sent == -1 && out == [] && buffer == []
    {
      buffer, sent, out := [], -1, [];
    }
  }

  /** Nothing queued precedes a popped node, so the node decides whether key `k` is next. */
  lemma HeadDecides(pq: PQueue, head: Node, nodes: set<Node>, q: multiset<Item>, k: int)
    requires pq.cmp == CmpPri && Represents(nodes, q) && head in nodes && pq.Leads(head, nodes)
    ensures forall x :: x in q ==> x.key >= head.pri
    ensures IsMinKey(q, k) <==> head.pri == k
  {
    forall x | x in q
      ensures x.key >= head.pri
    {
      var n := RepresentsMember(nodes, q, x);
    }
    RepresentsRemove(nodes, head, q);
  }

  /** Pops a node and keeps it if it carries key `k`; otherwise puts it back. */
  method TakeNext(pl: Pool, k: int) returns (ns: Node?)
    requires pl.Valid()
    modifies pl`queued, pl.pq, pl.pq.d, pl.pq.nodes`pos
    ensures pl.Valid() && pl.pq.nodes <= old(pl.pq.nodes)
    ensures pl.pq.d == old(pl.pq.d) || fresh(pl.pq.d)
    ensures ns == null ==> pl.queued == old(pl.queued) && !IsMinKey(pl.queued, k)
    ensures ns != null ==>
      && pl.pq.nodes < old(pl.pq.nodes)
      && ns.pri < STAMPS && ns.pri == k
      && old(pl.pq.size) > 1 && ItemOf(ns) == old(pl.Top())
      && old(pl.queued) == multiset{ItemOf(ns)} + pl.queued
      && forall x :: x in pl.queued ==> x.key >= k
  {
    ghost var all, q := pl.pq.nodes, pl.queued;
    ns := pl.pq.Pop();
    if ns == null {
      EmptyHasNoMin(all, q, k);
      return;
    }
    HeadDecides(pl.pq, ns, all, q, k);
    RepresentsRemove(all, ns, q);
    if ns.pri == k {
      pl.queued := pl.queued - multiset{ItemOf(ns)};
    } else {
      pl.pq.Insert(ns);
      assert pl.pq.nodes == all;
      ns := null;
    }
  }

  lemma EmptyHasNoMin(nodes: set<Node>, q: multiset<Item>, k: int)
    requires Represents(nodes, q) && nodes == {}
    ensures !IsMinKey(q, k)
  {
    forall x: Item
      ensures x !in q
    {
      assert Holders(nodes, x) == {};
    }
  }

  lemma TakenGrows(q: multiset<Item>, sent: int, batch: seq<Item>, x: Item, rest: multiset<Item>)
    requires IsTaken(q, sent, batch, multiset{x} + rest)
    requires x.key == sent + |batch| + 1 && forall y :: y in rest ==> y.key >= x.key
    ensures IsTaken(q, sent, batch + [x], rest)
    ensures Payloads(batch + [x]) == Payloads(batch) + [x.payload]
  {}

  /** One round: pops, and either extends the buffer or puts the node back. */
  method TakeOne(pl: Pool, fq: FQueue, packCnt: nat, ghost q: multiset<Item>, ghost batch: seq<Item>)
    returns (taken: bool, ghost batch': seq<Item>)
    requires pl.Valid() && IsTaken(q, fq.sent, batch, pl.queued)
    requires packCnt == |batch| && fq.buffer == Payloads(batch)
    modifies pl`queued, pl.pq, pl.pq.d, pl.pq.nodes`pos, fq`buffer
    ensures pl.Valid() && pl.pq.nodes <= old(pl.pq.nodes)
    ensures pl.pq.d == old(pl.pq.d) || fresh(pl.pq.d)
    ensures if taken
      then IsTaken(q, fq.sent, batch', pl.queued) && pl.pq.nodes < old(pl.pq.nodes)
      else IsBatch(q, fq.sent, batch', pl.queued)
    ensures if taken then old(pl.pq.size) > 1 && batch' == batch + [old(pl.Top())] else batch' == batch
    ensures fq.buffer == Payloads(batch')
  {
    var ns := TakeNext(pl, fq.sent + packCnt + 1);
    taken, batch' := ns != null, batch;
    if taken {
      TakenGrows(q, fq.sent, batch, ItemOf(ns), pl.queued);
      batch' := batch + [ItemOf(ns)];
      fq.buffer := fq.buffer + [ns.raw];
    }
  }

  /** Extends a batch that has been begun until nothing more can be taken. */
  method TakeRest(pl: Pool, fq: FQueue, ghost q: multiset<Item>, ghost begun: seq<Item>)
    returns (packCnt: nat, ghost batch: seq<Item>)
    requires pl.Valid() && IsTaken(q, fq.sent, begun, pl.queued)
    requires |begun| == 1 && fq.buffer == Payloads(begun)
    modifies pl`queued, pl.pq, pl.pq.d, pl.pq.nodes`pos, fq`buffer
    ensures pl.Valid() && pl.pq.nodes <= old(pl.pq.nodes)
    ensures pl.pq.d == old(pl.pq.d) || fresh(pl.pq.d)
    ensures begun <= batch && IsBatch(q, fq.sent, batch, pl.queued)
    ensures fq.buffer == Payloads(batch) && packCnt == |batch|
  {
    batch, packCnt := begun, 1;
    var taken := true;
    while taken
      invariant pl.Valid() && pl.pq.nodes <= old(pl.pq.nodes)
      invariant pl.pq.d == old(pl.pq.d) || fresh(pl.pq.d)
      invariant if taken then IsTaken(q, fq.sent, batch, pl.queued) else IsBatch(q, fq.sent, batch, pl.queued)
      invariant packCnt == |batch| && fq.buffer == Payloads(batch) && begun <= batch
      decreases pl.pq.nodes, taken
    {
      taken, batch := TakeOne(pl, fq, packCnt, q, batch);
      if taken {
        packCnt := packCnt + 1;
      }
    }
  }

  /** Moves the longest consecutive run that starts at sent + 1 from the heap to the
      buffer, the root of the heap first; -1 stands for an empty run. */
  method FillQueue(pl: Pool, fq: FQueue) returns (packCnt: int, ghost batch: seq<Item>)
    requires pl.Valid()
    modifies pl`queued, pl.pq, pl.pq.d, pl.pq.nodes`pos, fq`buffer
    ensures pl.Valid() && pl.pq.nodes <= old(pl.pq.nodes)
    ensures pl.pq.d == old(pl.pq.d) || fresh(pl.pq.d)
    ensures IsBatch(old(pl.queued), fq.sent, batch, pl.queued)
    ensures fq.buffer == Payloads(batch)
    ensures packCnt == if batch == [] then -1 else |batch|
    ensures batch != [] ==> old(pl.pq.size) > 1 && batch[0] == old(pl.Top())
  {
    fq.buffer := [];
    ghost var q := pl.queued;
    var taken;
    taken, batch := TakeOne(pl, fq, 0, q, []);
    if !taken {
      return -1, [];
    }
    packCnt, batch := TakeRest(pl, fq, q, batch);
  }

  // ---------------------------------------------------------------- sending a batch

  datatype Progress = Progress(count: nat, bytes: nat, out: seq<byte>)

  /** The effect of one call that takes `k` bytes. Each call offers the block from its first
      byte, however much of it has been taken before. */
  function SendOne(blocks: seq<Block>, p: Progress, k: nat): Progress
    requires p.count < |blocks| && p.bytes + k <= BLOCKSIZE
  {
    var out := p.out + blocks[p.count][..k];
    if p.bytes + k == BLOCKSIZE then Progress(p.count + 1, 0, out) else Progress(p.count, p.bytes + k, out)
  }

  /** Within a batch, between two calls. */
  predicate IsOngoing(blocks: seq<Block>, p: Progress) {
    p.count <= |blocks| && p.bytes < BLOCKSIZE && (p.count == |blocks| ==> p.bytes == 0)
  }

  /** The effect of the first `n` of a series of send results on a batch that has got as far
      as `start`. */
  function SendFrom(blocks: seq<Block>, start: Progress, results: seq<int>, n: nat): (p: Progress)
    requires n <= |results| && IsOngoing(blocks, start)
    ensures IsOngoing(blocks, p) && start.count <= p.count
    ensures |p.out| == |start.out| + BLOCKSIZE * (p.count - start.count) + p.bytes - start.bytes
  {
    if n == 0 then start
    else
      var p := SendFrom(blocks, start, results, n - 1);
      if p.count == |blocks| then p else SendOne(blocks, p, Accepted(results[n - 1], BLOCKSIZE - p.bytes))
  }

  /** The same from the beginning of the batch. */
  function SendAll(blocks: seq<Block>, results: seq<int>, n: nat): (p: Progress)
    requires n <= |results|
    ensures IsOngoing(blocks, p) && |p.out| == BLOCKSIZE * p.count + p.bytes
  {
    SendFrom(blocks, Progress(0, 0, []), results, n)
  }

  /** Once all of a batch has been sent, nothing more is. */
  lemma {:induction false} SentForGood(blocks: seq<Block>, start: Progress, results: seq<int>, m: nat, n: nat)
    requires m <= n <= |results| && IsOngoing(blocks, start)
    requires SendFrom(blocks, start, results, m).count == |blocks|
    ensures SendFrom(blocks, start, results, n) == SendFrom(blocks, start, results, m)
  {
    if m < n {
      SentForGood(blocks, start, results, m, n - 1);
    }
  }

  /** After `k` answers something is left to send. */
  ghost predicate IsNeeded(blocks: seq<Block>, start: Progress, results: seq<int>, k: nat)
    requires k <= |results| && IsOngoing(blocks, start)
  {
    SendFrom(blocks, start, results, k).count < |blocks|
  }

  /** The first `n` calls all found something left to send. */
  ghost predicate NoneWasted(blocks: seq<Block>, start: Progress, results: seq<int>, n: nat)
    requires n <= |results| && IsOngoing(blocks, start)
  {
    forall k {:trigger IsNeeded(blocks, start, results, k)} :: 0 <= k < n ==> IsNeeded(blocks, start, results, k)
  }

  lemma OneMoreNeeded(blocks: seq<Block>, start: Progress, results: seq<int>, n: nat)
    requires n < |results| && IsOngoing(blocks, start) && NoneWasted(blocks, start, results, n)
    requires SendFrom(blocks, start, results, n).count < |blocks|
    ensures NoneWasted(blocks, start, results, n + 1)
  {
    assert IsNeeded(blocks, start, results, n);
  }

  /** So many calls are made: until everything has been sent, or no answer is left. */
  ghost predicate MakesCalls(blocks: seq<Block>, start: Progress, results: seq<int>, calls: nat)
    requires IsOngoing(blocks, start)
  {
    && calls <= |results| && NoneWasted(blocks, start, results, calls)
    && (IsNeeded(blocks, start, results, calls) ==> calls == |results|)
  }

  /** The answers used decide what the answers given come to. */
  lemma SentInAll(blocks: seq<Block>, start: Progress, results: seq<int>, calls: nat)
    requires IsOngoing(blocks, start) && MakesCalls(blocks, start, results, calls)
    ensures SendFrom(blocks, start, results, calls) == SendFrom(blocks, start, results, |results|)
  {
    if calls < |results| {
      SentForGood(blocks, start, results, calls, |results|);
    }
  }

  /** When every call that takes anything takes a whole block, the output is the blocks. */
  lemma {:induction false} WholeSends(blocks: seq<Block>, results: seq<int>, n: nat)
    requires n <= |results| && AreWhole(results)
    ensures var p := SendAll(blocks, results, n); p.bytes == 0 && p.out == Bytes(blocks[..p.count])
  {
    if n > 0 {
      WholeSends(blocks, results, n - 1);
      var p := SendAll(blocks, results, n - 1);
      if p.count < |blocks| && results[n - 1] > 0 {
        assert blocks[..p.count + 1][..p.count] == blocks[..p.count];
      }
    }
  }

  /** Such calls leave no block half taken. */
  lemma {:induction false} WholeStays(blocks: seq<Block>, start: Progress, results: seq<int>, n: nat)
    requires n <= |results| && AreWhole(results) && IsOngoing(blocks, start) && start.bytes == 0
    ensures SendFrom(blocks, start, results, n).bytes == 0
  {
    if n > 0 {
      WholeStays(blocks, start, results, n - 1);
    }
  }

  /** Each of them that takes something sends one more block. */
  lemma {:induction false} WholeCount(blocks: seq<Block>, start: Progress, results: seq<int>, n: nat)
    requires n <= |results| && AreWhole(results) && IsOngoing(blocks, start) && start.bytes == 0
    ensures SendFrom(blocks, start, results, n).count == Min(start.count + Successes(results, n), |blocks|)
  {
    if n > 0 {
      WholeCount(blocks, start, results, n - 1);
      WholeStays(blocks, start, results, n - 1);
    }
  }

  /** So as many whole answers as there are blocks send all of them, as they are. */
  lemma WholeBatch(blocks: seq<Block>, results: seq<int>)
    requires AreWhole(results) && Successes(results, |results|) >= |blocks|
    ensures SendAll(blocks, results, |results|) == Progress(|blocks|, 0, Bytes(blocks))
  {
    WholeCount(blocks, Progress(0, 0, []), results, |results|);
    WholeSends(blocks, results, |results|);
    assert blocks[..|blocks|] == blocks;
  }

  /** Earlier output is never taken back. */
  lemma {:induction false} OutputGrows(blocks: seq<Block>, results: seq<int>, m: nat, n: nat)
    requires m <= n <= |results|
    ensures SendAll(blocks, results, m).out <= SendAll(blocks, results, n).out
  {
    if m < n {
      OutputGrows(blocks, results, m, n - 1);
    }
  }

  /** The first call that takes anything takes a whole block. */
  predicate StartsWhole(results: seq<int>) {
    results != [] && (if results[0] <= 0 then StartsWhole(results[1..]) else results[0] >= BLOCKSIZE)
  }

  lemma {:induction false} SkipFailed(blocks: seq<Block>, results: seq<int>, n: nat)
    requires 1 <= n <= |results| && results[0] <= 0
    ensures SendAll(blocks, results, n) == SendAll(blocks, results[1..], n - 1)
  {
    if n > 1 {
      SkipFailed(blocks, results, n - 1);
    } else {
      assert SendAll(blocks, results, 0) == Progress(0, 0, []);
    }
  }

  /** A block that has been sent is unharmed, whatever its bytes, exactly when no call took
      only a part of it. */
  lemma {:induction false} ExactlyWhole(results: seq<int>)
    requires forall b: Block :: SendAll([b], results, |results|).count == 1
    ensures (forall b: Block :: SendAll([b], results, |results|).out == b) <==> StartsWhole(results)
  {
    var n := |results|;
    assert SendAll([BlockAt([], 0)], results, n).count == 1;
    if results == [] {
    } else if results[0] <= 0 {
      forall b: Block {
        SkipFailed([b], results, n);
      }
      ExactlyWhole(results[1..]);
    } else if results[0] >= BLOCKSIZE {
      forall b: Block
        ensures SendAll([b], results, n).out == b
      {
        FirstSend(b, results);
        OutputGrows([b], results, 1, n);
        assert b[..BLOCKSIZE] == b;
      }
    } else {
      var b: Block := [1] + seq(BLOCKSIZE - 1, _ => 0);
      PartialSends(b, results, n);
    }
  }

  lemma FirstSend(b: Block, results: seq<int>)
    requires results != [] && results[0] > 0
    ensures SendAll([b], results, 1).out == b[..Accepted(results[0], BLOCKSIZE)]
  {
    assert SendAll([b], results, 0) == Progress(0, 0, []);
  }

  /** The call after a partial one starts over: the first byte shows up a second time. */
  lemma {:induction false} PartialSends(b: Block, results: seq<int>, n: nat)
    requires 1 <= n <= |results| && 0 < results[0] < BLOCKSIZE
    ensures var p := SendAll([b], results, n);
      && |p.out| >= results[0] && p.out[..results[0]] == b[..results[0]]
      && (|p.out| > results[0] ==> p.out[results[0]] == b[0])
  {
    if n == 1 {
      FirstSend(b, results);
    } else {
      PartialSends(b, results, n - 1);
    }
  }

  /** Sends what is left of one buffered block, retrying until all of it has been taken or no
      further answer is given. */
  method ForwardBlock(fq: FQueue, count: nat, offset: nat, results: seq<int>, from: nat,
                      ghost start: Progress, ghost before: seq<byte>)
    returns (byte: nat, calls: nat)
    requires from <= |results| && IsOngoing(fq.buffer, start) && count < |fq.buffer|
    requires var p := SendFrom(fq.buffer, start, results, from);
      p.count == count && p.bytes == offset && fq.out == before + p.out
    requires NoneWasted(fq.buffer, start, results, from)
    modifies fq`out
    ensures calls <= |results| && NoneWasted(fq.buffer, start, results, calls)
    ensures byte <= BLOCKSIZE && (byte < BLOCKSIZE ==> calls == |results|)
    ensures var p := SendFrom(fq.buffer, start, results, calls);
      && (if byte < BLOCKSIZE then p.count == count && p.bytes == byte else p.count == count + 1 && p.bytes == 0)
      && fq.out == before + p.out
  {
    ghost var p := SendFrom(fq.buffer, start, results, from);
    byte, calls := offset, from;
    while byte < BLOCKSIZE
      invariant byte <= BLOCKSIZE && calls <= |results| && NoneWasted(fq.buffer, start, results, calls)
      invariant p == SendFrom(fq.buffer, start, results, calls) && fq.out == before + p.out
      invariant if byte < BLOCKSIZE then p.count == count && p.bytes == byte else p.count == count + 1 && p.bytes == 0
      decreases |results| - calls
    {
      if calls == |results| {
        return;
      }
      var numbytes := Accepted(results[calls], BLOCKSIZE - byte);
      OneMoreNeeded(fq.buffer, start, results, calls);
      SeqAssociative(before, p.out, fq.buffer[count][..numbytes]);
      fq.out := fq.out + fq.buffer[count][..numbytes];
      byte, calls := byte + numbytes, calls + 1;
      p := SendFrom(fq.buffer, start, results, calls);
    }
  }

  /** Sends the buffered blocks, retrying until each has been taken, from the block and the
      byte at which an earlier call has stopped. `results` is what the socket answers; the
      method stops early only when no further answer is given. */
  method ForwardData(fq: FQueue, packCnt: nat, from: nat, offset: nat, results: seq<int>)
    returns (count: nat, byte: nat, calls: nat)
    requires packCnt == |fq.buffer| && IsOngoing(fq.buffer, Progress(from, offset, []))
    modifies fq`sent, fq`out
    ensures MakesCalls(fq.buffer, Progress(from, offset, []), results, calls)
    ensures count < packCnt ==> calls == |results|
    ensures var p := SendFrom(fq.buffer, Progress(from, offset, []), results, |results|);
      && p.count == count && p.bytes == byte
      && fq.sent == old(fq.sent) + count - from
      && fq.out == old(fq.out) + p.out
  {
    ghost var start := Progress(from, offset, []);
    calls, count, byte := 0, from, offset;
    while count < packCnt
      invariant from <= count <= packCnt && byte < BLOCKSIZE
      invariant calls <= |results| && NoneWasted(fq.buffer, start, results, calls)
      invariant var p := SendFrom(fq.buffer, start, results, calls);
        p.count == count && p.bytes == byte && fq.out == old(fq.out) + p.out
      invariant fq.sent == old(fq.sent) + count - from
      decreases packCnt - count
    {
      byte, calls := ForwardBlock(fq, count, byte, results, calls, start, old(fq.out));
      if byte < BLOCKSIZE {
        return;
      }
      byte := 0;
      fq.sent := fq.sent + 1;
      count := count + 1;
    }
    SentInAll(fq.buffer, start, results, calls);
  }

  /** Outside the lock: sends a batch, or the rest of it, and counts it when all of it has been
      sent. */
  method SendBatch(pl: Pool, fq: FQueue, packCnt: nat, from: nat, offset: nat, results: seq<int>)
    returns (count: nat, byte: nat, calls: nat)
    requires pl.Valid() && packCnt == |fq.buffer| && IsOngoing(fq.buffer, Progress(from, offset, []))
    modifies pl`sentMinSeq, fq`sent, fq`out
    ensures pl.Valid() && MakesCalls(fq.buffer, Progress(from, offset, []), results, calls)
    ensures count < packCnt ==> calls == |results|
    ensures var p := SendFrom(fq.buffer, Progress(from, offset, []), results, |results|);
      && p.count == count && p.bytes == byte
      && fq.sent == old(fq.sent) + count - from
      && fq.out == old(fq.out) + p.out
    ensures pl.sentMinSeq == old(pl.sentMinSeq) + if count == packCnt then packCnt else 0
  {
    count, byte, calls := ForwardData(fq, packCnt, from, offset, results);
    if count == packCnt {
      pl.sentMinSeq := pl.sentMinSeq + packCnt;
    }
  }

  /** One round of the forwarding loop: takes a batch off the heap and sends it. All of it has
      been sent unless the socket has stopped answering. */
  method ForwardOnce(pl: Pool, fq: FQueue, results: seq<int>) returns (calls: nat, done: bool, ghost batch: seq<Item>)
    requires pl.Valid()
    modifies pl`queued, pl`sentMinSeq, pl.pq, pl.pq.d, pl.pq.nodes`pos, fq
    ensures pl.Valid() && pl.pq.nodes <= old(pl.pq.nodes)
    ensures pl.pq.d == old(pl.pq.d) || fresh(pl.pq.d)
    ensures IsBatch(old(pl.queued), old(fq.sent), batch, pl.queued)
    ensures batch != [] ==> old(pl.pq.size) > 1 && batch[0] == old(pl.Top())
    ensures MakesCalls(Payloads(batch), Progress(0, 0, []), results, calls) && (!done ==> calls == |results|)
    ensures var p := SendAll(Payloads(batch), results, |results|);
      && fq.sent == old(fq.sent) + p.count
      && fq.out == old(fq.out) + p.out
      && (done <==> p.count == |batch|)
    ensures pl.sentMinSeq == old(pl.sentMinSeq) + if done then |batch| else 0
    ensures AreWhole(results) && Successes(results, |results|) >= |batch|
            ==> done && fq.out == old(fq.out) + Bytes(Payloads(batch))
  {
    var packCnt;
    packCnt, batch := FillQueue(pl, fq);
    calls, done := 0, true;
    if packCnt != -1 {
      var count, byte;
      count, byte, calls := SendBatch(pl, fq, packCnt, 0, 0, results);
      done := count == packCnt;
    } else {
      SentForGood([], Progress(0, 0, []), results, 0, |results|);
    }
    if AreWhole(results) && Successes(results, |results|) >= |batch| {
      WholeBatch(Payloads(batch), results);
    }
  }
}
