/** The code takes the steps of the state machine: each method below runs the code of one
    critical section, of one series of socket calls, or of one round of a thread's loop,
    beside a state that describes the same memory, and hands back the state that the machine
    moves to. */
module Refinement {
  import opened Network
  import opened Batch
  import opened Protocol
  import opened Runs
  import opened Sockets
  import opened Receptor
  import opened Forward
  import opened Splitter
  import opened Limits

  /** The state describes the transmitter's shared buffer. */
  ghost predicate ViewTx(s: State, buff: ProxyBuff)
    requires buff.Valid()
    reads buff, buff.buffer
  {
    s.buffer == buff.Contents() && s.getInd == buff.getInd && s.fin == buff.finFlag
  }

  /** The state describes the receiver's pool; as long as nothing has been taken from the
      heap, the oldest item with key 0 is in its root. */
  ghost predicate ViewPool(s: State, pl: Pool)
    requires pl.Valid()
    reads pl, pl.pq, pl.pq.d, pl.pq.nodes
  {
    && s.queued == pl.queued && s.availMinSeq == pl.availMinSeq
    && (s.zero.NoneYet? ==> forall x :: x in pl.queued ==> x.key != 0)
    && (s.zero.Oldest? ==>
      s.zero.item.key == 0 && (s.sent == -1 && s.fwd.Waiting? ==> pl.pq.size > 1 && pl.Top() == s.zero.item))
  }

  /** The state describes the forwarder's counters and what it has sent. */
  ghost predicate ViewFwd(s: State, pl: Pool, fq: FQueue)
    reads pl, fq
  {
    s.sentMinSeq == pl.sentMinSeq && s.sent == fq.sent && s.out == fq.out
  }

  /** The same, between two rounds of the forwarder. */
  ghost predicate ViewRx(s: State, pl: Pool, fq: FQueue)
    requires pl.Valid()
    reads pl, pl.pq, pl.pq.d, pl.pq.nodes, fq
  {
    ViewPool(s, pl) && ViewFwd(s, pl, fq) && s.fwd == Waiting
  }

  /** Freshly made objects are described by the initial state. */
  method StartsAsInit(ghost c: Config) returns (buff: ProxyBuff, pl: Pool, fq: FQueue)
    ensures buff.Valid() && ViewTx(Init(c), buff) && pl.Valid() && ViewRx(Init(c), pl, fq)
    ensures fresh(buff) && fresh(buff.buffer) && fresh(fq)
    ensures fresh(pl) && fresh(pl.pq) && fresh(pl.pq.d) && pl.pq.nodes == {}
  {
    buff := new ProxyBuff();
    pl := new Pool();
    fq := new FQueue();
  }

  method AppendTakesStep(ghost c: Config, ghost s: State, buff: ProxyBuff, raw: array<byte>, recvCount: nat)
    returns (ghost s': State)
    requires buff.Valid() && ViewTx(s, buff)
    requires raw.Length == BLOCKSIZE && 0 < recvCount <= BLOCKSIZE && s.raw == raw[..recvCount] && !s.eof
    requires recvCount == BLOCKSIZE || s.taken == |c.stream|
    modifies buff`capacity, buff`buffer, buff`setInd, buff`rxByte, buff.buffer, raw
    ensures buff.Valid() && (buff.buffer == old(buff.buffer) || fresh(buff.buffer))
    ensures ViewTx(s', buff) && Step(c, s, s')
    ensures s' == s.(raw := [], eof := recvCount < BLOCKSIZE, buffer := s.buffer + [ZeroFilled(s.raw)])
  {
    ghost var a := if recvCount == BLOCKSIZE then SplitAppend else SplitEof;
    assert Enabled(c, s, a);
    s' := Next(c, s, a);
    assert raw[..][..recvCount] == raw[..recvCount];
    var _ := buff.Add2Buff(raw, recvCount);
  }

  /** Setting the flag at the end of the connection is a step. */
  method FinTakesStep(ghost c: Config, ghost s: State, buff: ProxyBuff) returns (ghost s': State)
    requires buff.Valid() && ViewTx(s, buff) && s.eof && !buff.finFlag
    modifies buff`finFlag
    ensures buff.Valid() && ViewTx(s', buff) && Step(c, s, s')
    ensures s' == s.(fin := true)
  {
    assert Enabled(c, s, SplitFin);
    s' := Next(c, s, SplitFin);
    buff.Finish();
  }

  /** A claim is a step that hands the worker its packet, a step that ends the worker, or,
      when the worker has to wait, no step at all. */
  method ClaimTakesStep(ghost c: Config, ghost s: State, ghost l: nat, buff: ProxyBuff)
    returns (r: Claimed, ghost s': State)
    requires buff.Valid() && ViewTx(s, buff) && l < |s.links| && s.links[l].tx == Idle
    modifies buff`getInd
    ensures buff.Valid() && ViewTx(s', buff)
    ensures match r
      case Got(item) =>
        var tx := Sending(Frame(HOST, item), 0);
        Step(c, s, s') && s' == s.(getInd := s.getInd + 1, links := s.links[l := s.links[l].(tx := tx)])
      case Finished => Step(c, s, s') && s' == s.(links := s.links[l := s.links[l].(tx := Worker.Closed)])
      case Empty => s' == s && !buff.finFlag
    ensures r == if s.getInd < |s.buffer| then Got(StampedAt(s.buffer, s.getInd)) else if s.fin then Finished else Empty
  {
    r := buff.Claim();
    ghost var a := if r.Got? then Action.Claim(l) else TxFinish(l);
    if r.Empty? {
      s' := s;
    } else {
      assert Enabled(c, s, a);
      s' := Next(c, s, a);
    }
  }

  /** An arrival is a step at any moment, whatever the forwarder is doing. */
  method EnqueueTakesStep(ghost c: Config, ghost s: State, ghost l: nat, raw: Packet, pl: Pool)
    returns (ghost s': State)
    requires pl.Valid() && ViewPool(s, pl) && l < |s.links| && s.links[l].open && s.links[l].raw == raw
    modifies pl`availMinSeq, pl`queued, pl.pq, pl.pq.d, pl.pq.nodes`pos
    ensures pl.Valid() && (pl.pq.d == old(pl.pq.d) || fresh(pl.pq.d)) && fresh(pl.pq.nodes - old(pl.pq.nodes))
    ensures ViewPool(s', pl) && Step(c, s, s')
    ensures s' == Enqueued(s.(links := s.links[l := s.links[l].(raw := [])]), raw)
  {
    assert Enabled(c, s, RxEnqueue(l));
    s' := Next(c, s, RxEnqueue(l));
    var _ := pl.Add2Queue(raw);
  }

  /** The machine can get from one state to the other. */
  ghost predicate Reaches(c: Config, s: State, t: State) {
    exists path :: IsPath(c, path) && path[0] == s && Last(path) == t
  }

  lemma ReachesSelf(c: Config, s: State)
    ensures Reaches(c, s, s)
  {
    assert IsPath(c, [s]);
  }

  lemma ReachesNext(c: Config, s: State, t: State, a: Action)
    requires Reaches(c, s, t) && Enabled(c, t, a)
    ensures Reaches(c, s, Next(c, t, a))
  {
    var path :| IsPath(c, path) && path[0] == s && Last(path) == t;
    PathGrows(c, path, a);
    assert Last(path + [Next(c, t, a)]) == Next(c, t, a);
  }

  // ---------------------------------------------------------------- rounds of the other threads

  lemma ReachesStep(c: Config, s: State, t: State)
    requires Step(c, s, t)
    ensures Reaches(c, s, t)
  {
    var a :| Enabled(c, s, a) && t == Next(c, s, a);
    ReachesSelf(c, s);
    ReachesNext(c, s, s, a);
  }

  /** The splitter reads one block, or what is left of the last one, and appends it. */
  method SplitTakesSteps(ghost c: Config, ghost s: State, buff: ProxyBuff, stream: seq<byte>, n: nat, sizes: nat -> nat)
    returns (recvCount: nat, ghost s': State)
    requires buff.Valid() && ViewTx(s, buff) && stream == c.stream
    requires !s.eof && s.raw == [] && s.taken == BLOCKSIZE * n <= |stream|
    modifies buff`capacity, buff`buffer, buff`setInd, buff`rxByte, buff.buffer
    ensures buff.Valid() && (buff.buffer == old(buff.buffer) || fresh(buff.buffer))
    ensures recvCount == if |stream| - BLOCKSIZE * n < BLOCKSIZE then |stream| - BLOCKSIZE * n else BLOCKSIZE
    ensures ViewTx(s', buff) && Reaches(c, s, s')
    ensures s' == s.(taken := s.taken + recvCount, eof := recvCount < BLOCKSIZE,
      buffer := s.buffer + if recvCount == 0 then [] else [BlockAt(stream, n)])
  {
    recvCount := SplitOnce(buff, stream, n, sizes);
    s' := SplitRound(c, s, n, recvCount);
  }

  lemma SplitRound(c: Config, s: State, n: nat, k: nat) returns (s': State)
    requires !s.eof && s.raw == [] && s.taken == BLOCKSIZE * n <= |c.stream|
    requires k == if |c.stream| - s.taken < BLOCKSIZE then |c.stream| - s.taken else BLOCKSIZE
    ensures Reaches(c, s, s')
    ensures s' == s.(taken := s.taken + k, eof := k < BLOCKSIZE,
      buffer := s.buffer + if k == 0 then [] else [BlockAt(c.stream, n)])
  {
    ReachesSelf(c, s);
    s' := s;
    if k > 0 {
      ReachesNext(c, s, s, SplitRecv(k));
      s' := Next(c, s, SplitRecv(k));
      assert s'.raw == c.stream[s.taken..s.taken + k];
      BlockOfSlice(c.stream, n, s.taken + k);
    }
    var a := if k == BLOCKSIZE then SplitAppend else SplitEof;
    ReachesNext(c, s, s', a);
    s' := Next(c, s', a);
  }

  /** A worker after calls that have taken `n` bytes of its packet in all. */
  function WorkerAfter(packet: Packet, n: nat, o: Outcome): Worker {
    match o
    case Sent => Idle
    case Pending => Sending(packet, n)
    case Closed => Worker.Closed
  }

  /** The mildest environment, as far as links go, in which `c` is possible and so is what the
      socket has done: it has ended the connection after `n` bytes of a packet, or not. */
  function Witnessed(c: Config, n: nat, o: Outcome): (weak: Config)
    ensures Allows(weak, c) && weak.whole == c.whole
    ensures o != Outcome.Closed ==> weak == c
    ensures o == Outcome.Closed ==> MayBreak(weak.breaks, n)
  {
    if o != Outcome.Closed || MayBreak(c.breaks, n) then c
    else c.(breaks := if n == 0 then BetweenPackets else Anywhere)
  }

  /** A worker sends the packet it has claimed, or the rest of it, however the socket answers: the
      sum of the answers goes out, as far as the packet goes, until all of it has been sent, an
      answer is 0, or there is none. */
  method SendTakesSteps(ghost c: Config, ghost s: State, ghost l: nat, packet: Packet, sentCount: nat,
                        results: seq<int>)
    returns (taken: seq<byte>, next: nat, o: Outcome, ghost s': State)
    requires l < |s.links| && sentCount < PACKET_SIZE && s.links[l].tx == Sending(packet, sentCount)
    ensures Ships(PACKET_SIZE - sentCount, results, 0, next, o)
    ensures taken == packet[sentCount..][..Min(Sum(results, 0, next), PACKET_SIZE - sentCount)]
    ensures Reaches(Witnessed(c, sentCount + |taken|, o), s, s')
    ensures var lk := s.links[l];
      s' == s.(links := s.links[l :=
        lk.(tx := WorkerAfter(packet, sentCount + |taken|, o), wire := lk.wire + taken)])
  {
    taken, next, o := SendPacket(packet[sentCount..], results, 0);
    s' := SendRound(Witnessed(c, sentCount + |taken|, o), s, l, packet, sentCount, taken, o);
  }

  lemma SendRound(c: Config, s: State, l: nat, packet: Packet, sentCount: nat, taken: seq<byte>, o: Outcome)
    returns (s': State)
    requires l < |s.links| && sentCount < PACKET_SIZE && s.links[l].tx == Sending(packet, sentCount)
    requires taken <= packet[sentCount..] && (o == Sent <==> taken == packet[sentCount..])
    requires o == Outcome.Closed ==> MayBreak(c.breaks, sentCount + |taken|)
    ensures Reaches(c, s, s')
    ensures var lk := s.links[l];
      s' == s.(links := s.links[l :=
        lk.(tx := WorkerAfter(packet, sentCount + |taken|, o), wire := lk.wire + taken)])
  {
    s' := SomeSent(c, s, l, packet, sentCount, taken);
    if o == Outcome.Closed {
      ReachesNext(c, s, s', TxSendZero(l));
      s' := Next(c, s', TxSendZero(l));
    }
    var lk := s.links[l];
    assert s'.links == s.links[l := lk.(tx := WorkerAfter(packet, sentCount + |taken|, o), wire := lk.wire + taken)];
  }

  lemma SomeSent(c: Config, s: State, l: nat, packet: Packet, sentCount: nat, taken: seq<byte>) returns (s': State)
    requires l < |s.links| && sentCount < PACKET_SIZE && s.links[l].tx == Sending(packet, sentCount)
    requires taken <= packet[sentCount..]
    ensures Reaches(c, s, s')
    ensures var lk, m := s.links[l], sentCount + |taken|;
      var tx := if m < PACKET_SIZE then Sending(packet, m) else Idle;
      s' == s.(links := s.links[l := lk.(tx := tx, wire := lk.wire + taken)])
  {
    var lk, m := s.links[l], sentCount + |taken|;
    ReachesSelf(c, s);
    s' := s;
    if taken != [] {
      assert packet[sentCount..m] == packet[sentCount..][..|taken|] == taken;
      ReachesNext(c, s, s, TxSend(l, |taken|));
      s' := Next(c, s, TxSend(l, |taken|));
    } else {
      assert lk.wire + taken == lk.wire;
      assert s.links == s.links[l := lk];
    }
  }

  /** A receiver collects and queues one packet of what is on its link or, once the worker has
      closed the link, what is left. */
  method ReceiveTakesSteps(ghost c: Config, ghost s: State, ghost l: nat, pl: Pool,
                           wire: seq<byte>, pos: nat, calls: Schedule)
    returns (packet: Packet, recvCount: nat, ghost s': State)
    requires pl.Valid() && ViewPool(s, pl) && l < |s.links| && pos <= |wire|
    requires s.links[l].open && s.links[l].raw == [] && s.links[l].wire == wire[pos..]
    requires |wire| - pos >= PACKET_SIZE || s.links[l].tx.Closed?
    modifies pl`availMinSeq, pl`queued, pl.pq, pl.pq.d, pl.pq.nodes`pos
    ensures pl.Valid() && (pl.pq.d == old(pl.pq.d) || fresh(pl.pq.d)) && fresh(pl.pq.nodes - old(pl.pq.nodes))
    ensures recvCount == if |wire| - pos < PACKET_SIZE then |wire| - pos else PACKET_SIZE
    ensures packet[..recvCount] == wire[pos..pos + recvCount]
    ensures ViewPool(s', pl) && Reaches(c, s, s')
    ensures var lk := s.links[l].(wire := wire[pos + recvCount..], open := recvCount == PACKET_SIZE);
      var s1 := s.(links := s.links[l := lk]);
      s' == if recvCount == 0 then s1 else Enqueued(s1, packet)
  {
    packet, recvCount := ReceivePacket(pl, wire, pos, calls);
    s' := ReceiveRound(c, s, l, packet, recvCount);
    assert wire[pos..][recvCount..] == wire[pos + recvCount..];
  }

  lemma ReceiveRound(c: Config, s: State, l: nat, packet: Packet, k: nat) returns (s': State)
    requires l < |s.links| && s.links[l].open && s.links[l].raw == []
    requires k == if |s.links[l].wire| < PACKET_SIZE then |s.links[l].wire| else PACKET_SIZE
    requires packet[..k] == s.links[l].wire[..k] && (k == PACKET_SIZE || s.links[l].tx.Closed?)
    ensures Reaches(c, s, s')
    ensures var lk := s.links[l];
      var s1 := s.(links := s.links[l := lk.(wire := lk.wire[k..], open := k == PACKET_SIZE)]);
      s' == if k == 0 then s1 else Enqueued(s1, packet)
  {
    ReachesSelf(c, s);
    s' := s;
    if k > 0 {
      ReachesNext(c, s, s, RxRecv(l, k));
      s' := Next(c, s, RxRecv(l, k));
    }
    var lk := s.links[l];
    var lk' := lk.(wire := lk.wire[k..], raw := packet[..k]);
    assert s'.links[l] == lk';
    assert s' == s.(links := s.links[l := lk']);
    s' := QueueReceived(c, s, s', l, packet, k);
    assert s.links[l := lk'][l := lk'.(raw := [], open := k == PACKET_SIZE)]
        == s.links[l := lk.(wire := lk.wire[k..], open := k == PACKET_SIZE)];
  }

  lemma QueueReceived(c: Config, s: State, t: State, l: nat, packet: Packet, k: nat) returns (t': State)
    requires Reaches(c, s, t) && l < |t.links| && t.links[l].open && k <= PACKET_SIZE && t.links[l].raw == packet[..k]
    requires k == PACKET_SIZE || (t.links[l].tx.Closed? && t.links[l].wire == [])
    ensures Reaches(c, s, t')
    ensures var t1 := t.(links := t.links[l := t.links[l].(raw := [], open := k == PACKET_SIZE)]);
      t' == if k == 0 then t1 else Enqueued(t1, packet)
  {
    assert packet[..k] + packet[k..] == packet;
    if k == PACKET_SIZE {
      assert t.links[l].raw == packet && t.links[l].(raw := []) == t.links[l].(raw := [], open := true);
      ReachesNext(c, s, t, RxEnqueue(l));
      t' := Next(c, t, RxEnqueue(l));
    } else {
      assert k > 0 ==> t.links[l].raw != [];
      assert t.links[l].raw + packet[k..] == packet;
      ReachesNext(c, s, t, RxEof(l, packet[k..]));
      t' := Next(c, t, RxEof(l, packet[k..]));
    }
  }

  // ---------------------------------------------------------------- rounds of the forwarder

  /** The state in the middle of sending a batch. */
  function Midway(s: State, batch: seq<Item>, p: Progress): State {
    s.(queued := s.queued - multiset(batch), fwd := Forwarding(batch, p.count, p.bytes),
       sent := s.sent + p.count, out := s.out + p.out)
  }

  lemma SendIsStep(c: Config, s: State, batch: seq<Item>, p: Progress, k: nat)
    requires p.count < |batch| && 0 < k && p.bytes + k <= BLOCKSIZE && (c.whole ==> k == BLOCKSIZE)
    ensures Enabled(c, Midway(s, batch, p), FwdSend(k))
    ensures Next(c, Midway(s, batch, p), FwdSend(k)) == Midway(s, batch, SendOne(Payloads(batch), p, k))
  {
    SeqAssociative(s.out, p.out, batch[p.count].payload[..k]);
  }

  /** The sends of a batch are steps of the machine, however they are answered. */
  lemma {:induction false} SendsAreSteps(c: Config, r: State, s: State, batch: seq<Item>, start: Progress,
                                         results: seq<int>, n: nat)
    requires n <= |results| && IsOngoing(Payloads(batch), start)
    requires c.whole ==> AreWhole(results) && start.bytes == 0
    requires Reaches(c, r, Midway(s, batch, start))
    ensures Reaches(c, r, Midway(s, batch, SendFrom(Payloads(batch), start, results, n)))
  {
    if n > 0 {
      var blocks := Payloads(batch);
      SendsAreSteps(c, r, s, batch, start, results, n - 1);
      var p := SendFrom(blocks, start, results, n - 1);
      if p.count < |blocks| {
        if c.whole {
          WholeStays(blocks, start, results, n - 1);
        }
        OneMoreSend(c, r, s, batch, p, Accepted(results[n - 1], BLOCKSIZE - p.bytes));
      }
    }
  }

  lemma OneMoreSend(c: Config, r: State, s: State, batch: seq<Item>, p: Progress, k: nat)
    requires Reaches(c, r, Midway(s, batch, p)) && p.count < |batch| && p.bytes < BLOCKSIZE && p.bytes + k <= BLOCKSIZE
    requires c.whole ==> k == 0 || k == BLOCKSIZE
    ensures Reaches(c, r, Midway(s, batch, SendOne(Payloads(batch), p, k)))
  {
    if k > 0 {
      SendIsStep(c, s, batch, p, k);
      ReachesNext(c, r, Midway(s, batch, p), FwdSend(k));
    } else {
      assert SendOne(Payloads(batch), p, 0) == p;
    }
  }

  lemma ReachableOnward(c: Config, s: State, t: State)
    requires Reachable(c, s) && Reaches(c, s, t)
    ensures Reachable(c, t)
  {
    var run :| IsRun(c, run) && Last(run) == s;
    var path :| IsPath(c, path) && path[0] == s && Last(path) == t;
    var whole := run + path[1..];
    forall i | 0 <= i < |whole| - 1
      ensures StepAt(c, whole, i)
    {
      if i < |run| - 1 {
        assert StepAt(c, run, i);
      } else {
        assert StepAt(c, path, i - (|run| - 1));
      }
    }
    assert Last(whole) == t;
  }

  /** Under the lock: a fill is a step that takes a batch or, when there is nothing to take, no
      step at all. */
  method FillTakesStep(ghost c: Config, ghost s: State, pl: Pool, fq: FQueue)
    returns (packCnt: int, ghost batch: seq<Item>, ghost s': State)
    requires pl.Valid() && ViewRx(s, pl, fq)
    modifies pl`queued, pl.pq, pl.pq.d, pl.pq.nodes`pos, fq`buffer
    ensures pl.Valid() && (pl.pq.d == old(pl.pq.d) || fresh(pl.pq.d)) && pl.pq.nodes <= old(pl.pq.nodes)
    ensures ViewPool(s', pl) && ViewFwd(s', pl, fq) && fq.buffer == Payloads(batch)
    ensures packCnt == if batch == [] then -1 else |batch|
    ensures IsBatch(s.queued, s.sent, batch, s'.queued)
    ensures if batch == [] then s' == s && !IsMinKey(s.queued, s.sent + 1)
      else s' == s.(queued := s'.queued, fwd := Forwarding(batch, 0, 0)) && Step(c, s, s') && KeepsTop(s, batch[0])
  {
    packCnt, batch := FillQueue(pl, fq);
    s' := FillRound(c, s, batch, pl.queued);
  }

  lemma FillRound(c: Config, s: State, batch: seq<Item>, rest: multiset<Item>) returns (s': State)
    requires s.fwd == Waiting && IsBatch(s.queued, s.sent, batch, rest) && (batch != [] ==> KeepsTop(s, batch[0]))
    ensures batch == [] ==> s' == s && !IsMinKey(s.queued, s.sent + 1) && rest == s.queued
    ensures batch != [] ==> s' == s.(queued := rest, fwd := Forwarding(batch, 0, 0)) && Step(c, s, s')
    ensures Reaches(c, s, s') && rest <= s.queued
  {
    ReachesSelf(c, s);
    assert rest == s.queued - multiset(batch);
    s' := s;
    if batch != [] {
      assert Enabled(c, s, Fill(batch));
      ReachesNext(c, s, s, Fill(batch));
      s' := Next(c, s, Fill(batch));
    }
  }

  /** Outside the lock: the calls that send a batch, or the rest of it, are steps, and so is the
      update of the counter once all of it has been sent; the pool may have received packets
      since. The calls go on until that is so, or there is no further answer. */
  method SendBatchTakesSteps(ghost c: Config, ghost s: State, pl: Pool, fq: FQueue, packCnt: nat,
                             from: nat, offset: nat, results: seq<int>, ghost batch: seq<Item>)
    returns (count: nat, byte: nat, calls: nat, ghost s': State)
    requires pl.Valid() && ViewPool(s, pl) && ViewFwd(s, pl, fq) && s.fwd == Forwarding(batch, from, offset)
    requires packCnt == |batch| && fq.buffer == Payloads(batch) && ForwarderOk(s)
    requires c.whole ==> AreWhole(results) && offset == 0
    modifies pl`sentMinSeq, fq`sent, fq`out
    ensures pl.Valid() && ViewPool(s', pl) && ViewFwd(s', pl, fq) && Reaches(c, s, s')
    ensures MakesCalls(Payloads(batch), Progress(from, offset, []), results, calls)
    ensures count < packCnt ==> calls == |results|
    ensures var p := SendFrom(Payloads(batch), Progress(from, offset, []), results, |results|);
      p.count == count && p.bytes == byte && s' == Forwarded(s, p)
  {
    count, byte, calls := SendBatch(pl, fq, packCnt, from, offset, results);
    ReachesSelf(c, s);
    s' := BatchRound(c, s, s, batch, Progress(from, offset, []), results, |results|);
    BatchIsSome(s);
  }

  lemma BatchIsSome(s: State)
    requires ForwarderOk(s) && s.fwd.Forwarding?
    ensures s.sent + |s.fwd.batch| - s.fwd.count >= 0
  {
    assert s.fwd.batch[0].key == s.sentMinSeq;
  }

  /** The state of a forwarder that has got as far as `p` in its batch. */
  function Forwarded(s: State, p: Progress): State
    requires s.fwd.Forwarding? && p.count <= |s.fwd.batch|
  {
    var s1 := s.(sent := s.sent + p.count - s.fwd.count, out := s.out + p.out);
    if p.count == |s.fwd.batch| then s1.(fwd := Waiting, sentMinSeq := s.sentMinSeq + |s.fwd.batch|)
    else s1.(fwd := Forwarding(s.fwd.batch, p.count, p.bytes))
  }

  lemma BatchRound(c: Config, r: State, s: State, batch: seq<Item>, start: Progress, results: seq<int>, n: nat)
    returns (s': State)
    requires n <= |results| && IsOngoing(Payloads(batch), start) && start.out == []
    requires c.whole ==> AreWhole(results) && start.bytes == 0
    requires Reaches(c, r, s) && s.fwd == Forwarding(batch, start.count, start.bytes)
    ensures Reaches(c, r, s')
    ensures s' == Forwarded(s, SendFrom(Payloads(batch), start, results, n))
  {
    var t := s.(queued := s.queued + multiset(batch), fwd := Waiting, sent := s.sent - start.count);
    assert t.queued - multiset(batch) == s.queued;
    assert s.out + [] == s.out;
    assert Midway(t, batch, start) == s;
    SendsAreSteps(c, r, t, batch, start, results, n);
    s' := Midway(t, batch, SendFrom(Payloads(batch), start, results, n));
    if s'.fwd.count == |batch| {
      ReachesNext(c, r, s', FwdDone);
      s' := Next(c, s', FwdDone);
    }
  }

  /** One forwarding round is a path of the machine: a fill, its sends, and the update of the
      counter; or nothing, if there is nothing to take. Unless the socket stops answering, all of
      the batch is sent. So in a tame environment the code has sent the beginning of the stream. */
  method RoundTakesSteps(ghost c: Config, ghost s: State, pl: Pool, fq: FQueue, results: seq<int>)
    returns (calls: nat, done: bool, ghost batch: seq<Item>, ghost s': State)
    requires pl.Valid() && ViewRx(s, pl, fq) && (c.whole ==> AreWhole(results))
    modifies pl`queued, pl`sentMinSeq, pl.pq, pl.pq.d, pl.pq.nodes`pos, fq
    ensures pl.Valid() && (pl.pq.d == old(pl.pq.d) || fresh(pl.pq.d)) && pl.pq.nodes <= old(pl.pq.nodes)
    ensures Reaches(c, s, s')
    ensures IsBatch(s.queued, s.sent, batch, s'.queued)
    ensures MakesCalls(Payloads(batch), Progress(0, 0, []), results, calls) && (!done ==> calls == |results|)
    ensures s' == AfterRound(s, batch, s'.queued, SendAll(Payloads(batch), results, |results|))
    ensures ViewPool(s', pl) && ViewFwd(s', pl, fq) && (done <==> s'.fwd == Waiting)
    ensures AreWhole(results) && Successes(results, |results|) >= |batch|
            ==> done && s'.out == s.out + Bytes(Payloads(batch))
    ensures IsTame(c.links, c.whole, c.breaks, |c.stream|) && Reachable(c, s) ==> fq.out <= Padded(c.stream)
  {
    assert s.zero.Oldest? && s.sent == -1 ==> s.zero.item in s.queued;
    calls, done, batch := ForwardOnce(pl, fq, results);
    ghost var p := SendAll(Payloads(batch), results, |results|);
    s' := AfterRound(s, batch, pl.queued, p);
    Round(c, s, batch, pl.queued, results, |results|);
    PoolAfterRound(s, s', batch, pl);
    RoundIsSafe(c, s, s');
  }

  lemma ZeroIsTaken(q: multiset<Item>, batch: seq<Item>, rest: multiset<Item>, x: Item)
    requires IsBatch(q, -1, batch, rest) && x in q && x.key == 0
    ensures batch != []
  {
    assert batch == [] ==> x in rest;
  }

  lemma PoolAfterRound(s: State, s': State, batch: seq<Item>, pl: Pool)
    requires pl.Valid() && IsBatch(s.queued, s.sent, batch, pl.queued)
    requires s'.queued == pl.queued && s'.availMinSeq == pl.availMinSeq && s'.zero == s.zero
    requires s'.fwd.Forwarding? || s'.sent == s.sent + |batch|
    requires s.zero.NoneYet? ==> forall x :: x in s.queued ==> x.key != 0
    requires s.zero.Oldest? ==> s.zero.item.key == 0 && (s.sent == -1 ==> s.zero.item in s.queued)
    ensures ViewPool(s', pl)
  {
    assert pl.queued <= s.queued;
    if s.zero.Oldest? && s.sent == -1 {
      ZeroIsTaken(s.queued, batch, pl.queued, s.zero.item);
    }
    assert batch != [] ==> batch[0].key == s.sent + 1;
  }

  lemma RoundIsSafe(c: Config, s: State, s': State)
    requires Reaches(c, s, s')
    ensures IsTame(c.links, c.whole, c.breaks, |c.stream|) && Reachable(c, s) ==> s'.out <= Padded(c.stream)
  {
    if IsTame(c.links, c.whole, c.breaks, |c.stream|) && Reachable(c, s) {
      ReachableOnward(c, s, s');
      SafeState(c, s');
    }
  }

  lemma SafeState(c: Config, s: State)
    requires IsTame(c.links, c.whole, c.breaks, |c.stream|) && Reachable(c, s)
    ensures s.out <= Padded(c.stream)
  {
    var run :| IsRun(c, run) && Last(run) == s;
    SafeRun(c, run);
  }

  /** The state after a round that takes a batch and gets as far as `p` in it. */
  function AfterRound(s: State, batch: seq<Item>, rest: multiset<Item>, p: Progress): State {
    var done := p.count == |batch|;
    s.(queued := rest, sent := s.sent + p.count, out := s.out + p.out,
       fwd := if done then Waiting else Forwarding(batch, p.count, p.bytes),
       sentMinSeq := s.sentMinSeq + if done then |batch| else 0)
  }

  lemma Round(c: Config, s: State, batch: seq<Item>, rest: multiset<Item>, results: seq<int>, n: nat)
    requires n <= |results| && (c.whole ==> AreWhole(results))
    requires s.fwd == Waiting && IsBatch(s.queued, s.sent, batch, rest) && (batch != [] ==> KeepsTop(s, batch[0]))
    ensures Reaches(c, s, AfterRound(s, batch, rest, SendAll(Payloads(batch), results, n)))
  {
    var s1 := FillRound(c, s, batch, rest);
    if batch != [] {
      var s2 := BatchRound(c, s, s1, batch, Progress(0, 0, []), results, n);
      FilledRound(s, batch, rest, SendAll(Payloads(batch), results, n));
    } else {
      EmptyRound(s, results, n);
    }
  }

  lemma FilledRound(s: State, batch: seq<Item>, rest: multiset<Item>, p: Progress)
    requires p.count <= |batch|
    ensures Forwarded(s.(queued := rest, fwd := Forwarding(batch, 0, 0)), p) == AfterRound(s, batch, rest, p)
  {}

  lemma EmptyRound(s: State, results: seq<int>, n: nat)
    requires n <= |results| && s.fwd == Waiting
    ensures AfterRound(s, [], s.queued, SendAll(Payloads([]), results, n)) == s
  {
    SentForGood([], Progress(0, 0, []), results, 0, n);
    assert s.out + [] == s.out;
  }
}
