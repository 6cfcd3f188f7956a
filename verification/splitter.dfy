/** The transmitter proxy (tx_proxy/split.c): cutting the intercepted stream into blocks,
    and the workers that claim blocks and send them, one worker a link. */
module Splitter {
  import opened Network
  import opened Sockets
  import opened Batch

  const INITIAL_CAPACITY: nat := 1000
  const SIZEOF_CHAR_PTR: nat := 8

  /** A block whose first bytes were received and whose rest is zero. */
  function ZeroFilled(bytes: seq<byte>): Block
    requires |bytes| <= BLOCKSIZE
  {
    bytes + seq(BLOCKSIZE - |bytes|, _ => 0)
  }

  /** What becomes of a receive buffer: only a partly filled one is zero-filled. */
  function Residue(raw: Block, recvCount: nat): (b: Block)
    requires recvCount <= BLOCKSIZE
    ensures recvCount > 0 ==> b == ZeroFilled(raw[..recvCount])
  {
    if 0 < recvCount < BLOCKSIZE then ZeroFilled(raw[..recvCount]) else raw
  }

  /** Block number `ind` of `blocks`, stamped. */
  function StampedAt(blocks: seq<Block>, ind: nat): Item
    requires ind < |blocks|
  {
    Item(StampOf(ind), blocks[ind])
  }

  function StampedAll(blocks: seq<Block>, idxs: seq<nat>): (items: seq<Item>)
    requires forall k :: 0 <= k < |idxs| ==> idxs[k] < |blocks|
    ensures |items| == |idxs| && forall k :: 0 <= k < |idxs| ==> items[k] == StampedAt(blocks, idxs[k])
  {
    seq(|idxs|, k requires 0 <= k < |idxs| => StampedAt(blocks, idxs[k]))
  }

  /** Increasing block numbers from `lo` up to but not including `hi`. */
  ghost predicate IsWithin(idxs: seq<nat>, lo: nat, hi: nat) {
    && (forall k :: 0 <= k < |idxs| ==> lo <= idxs[k] < hi)
    && (forall j, k :: 0 <= j < k < |idxs| ==> idxs[j] < idxs[k])
  }

  datatype Claimed = Got(item: Item) | Empty | Finished

  datatype Outcome = Sent | Pending | Closed

  /** Zero-fills a partly filled receive buffer in place. */
  method ZeroRest(raw: array<byte>, recvCount: nat)
    requires raw.Length == BLOCKSIZE && recvCount <= BLOCKSIZE
    modifies raw
    ensures raw[..] == Residue(old(raw[..]), recvCount)
  {
    if 0 < recvCount < BLOCKSIZE {
      for count := recvCount to BLOCKSIZE
        invariant raw[..recvCount] == old(raw[..recvCount]) && forall k :: recvCount <= k < count ==> raw[k] == 0
      {
        raw[count] := 0;
      }
      assert old(raw[..])[..recvCount] == old(raw[..recvCount]);
    }
  }

  class ProxyBuff {
    var rxByte: int
    var finFlag: bool
    var setInd: int
    var getInd: nat
    var capacity: nat
    var buffer: array<Block>

    ghost predicate Valid()
      reads this
    {
      && INITIAL_CAPACITY <= capacity == buffer.Length
      && -1 <= setInd < capacity
      && getInd <= setInd + 1
      && rxByte == BLOCKSIZE * (setInd + 1)
    }

    /** Every block ever appended. */
    ghost function Contents(): (bs: seq<Block>)
      requires Valid()
      reads this, buffer
      ensures |bs| == setInd + 1
    {
      buffer[..setInd + 1]
    }

    constructor ()
      ensures Valid() && Contents() == [] && getInd == 0 && !finFlag
      ensures fresh(buffer)
    {
      rxByte, finFlag, setInd, getInd, capacity := 0, false, -1, 0, INITIAL_CAPACITY;
      buffer := new Block[INITIAL_CAPACITY];
    }

    /** Zero-fills a partly received block and appends it, doubling the array when less
        than 2 * sizeof(char*) entries remain. */
    method Add2Buff(raw: array<byte>, recvCount: nat) returns (backlog: int)
      requires Valid() && raw.Length == BLOCKSIZE && recvCount <= BLOCKSIZE
      modifies `capacity, `buffer, `setInd, `rxByte, buffer, raw
      ensures Valid() && Contents() == old(Contents()) + [Residue(old(raw[..]), recvCount)]
      ensures backlog == setInd - getInd
      ensures if old(capacity - setInd) < 2 * SIZEOF_CHAR_PTR
        then capacity == 2 * old(capacity) && fresh(buffer)
        else capacity == old(capacity) && buffer == old(buffer)
    {
      ZeroRest(raw, recvCount);
      var block := raw[..];
      ghost var before := Contents();
      var remained := capacity - setInd;
      if remained < 2 * SIZEOF_CHAR_PTR {
        var preCount := capacity;
        capacity := capacity * 2;
        var grown := new Block[capacity];
        forall i | 0 <= i < preCount {
          grown[i] := buffer[i];
        }
        buffer := grown;
        assert Contents() == before;
      }
      setInd := setInd + 1;
      buffer[setInd] := block;
      assert buffer[..setInd] == before;
      rxByte := rxByte + BLOCKSIZE;
      backlog := setInd - getInd;
    }

    /** What a worker does under the lock: claims the next block and stamps it. It learns
        that the stream is finished only when every block has been claimed. */
    method Claim() returns (c: Claimed)
      requires Valid()
      modifies `getInd
      ensures Valid()
      ensures old(getInd) < |Contents()| ==> c == Got(StampedAt(Contents(), old(getInd))) && getInd == old(getInd) + 1
      ensures old(getInd) == |Contents()| ==> c == (if finFlag then Finished else Empty) && getInd == old(getInd)
    {
      var diff := setInd - getInd;
      if diff >= 0 {
        c := Got(Item(StampOf(getInd), buffer[getInd]));
        getInd := getInd + 1;
      } else {
        c := if finFlag then Finished else Empty;
      }
    }

    /** What the splitter does under the lock when the connection has ended. */
    method Finish()
      requires Valid()
      modifies `finFlag
      ensures Valid() && finFlag
    {
      finFlag := true;
    }

    /** Up to `k` claims by other workers. */
    method OthersClaim(k: nat)
      requires Valid()
      modifies `getInd
      ensures Valid()
      ensures getInd == if old(getInd) + k < |Contents()| then old(getInd) + k else |Contents()|
    {
      for j := 0 to k
        invariant Valid()
        invariant getInd == if old(getInd) + j < |Contents()| then old(getInd) + j else |Contents()|
      {
        var _ := Claim();
      }
    }
  }

  /** After the answers up to but not including number `k`, sending `size` bytes takes another
      call: something is missing, and the last answer was not 0. */
  ghost predicate Asks(size: nat, results: seq<int>, from: nat, k: nat)
    requires from <= k <= |results|
  {
    Sum(results, from, k) < size && (from < k ==> results[k - 1] != 0)
  }

  /** Sending `size` bytes comes to its end `o` after the answers from `from` up to `next`: when
      they have taken all of it, at the first answer of 0, or when there is no further answer. */
  ghost predicate Ships(size: nat, results: seq<int>, from: nat, next: nat, o: Outcome) {
    && from <= next <= |results|
    && (forall k {:trigger Asks(size, results, from, k)} :: from <= k < next ==> Asks(size, results, from, k))
    && (o == Sent <==> Sum(results, from, next) >= size)
    && (o == Closed <==> from < next && results[next - 1] == 0)
    && (o == Pending ==> next == |results|)
  }

  lemma ShipsOn(size: nat, results: seq<int>, from: nat, next: nat, o: Outcome, k: nat)
    requires Ships(size, results, from, next, o) && from <= k < next
    ensures Sum(results, from, k) < size && (from < k ==> results[k - 1] != 0)
  {
    assert Asks(size, results, from, k);
  }

  /** The answers decide how many of them are used, and how it ends. */
  lemma ShipsOneWay(size: nat, results: seq<int>, from: nat, next: nat, o: Outcome, next': nat, o': Outcome)
    requires Ships(size, results, from, next, o) && Ships(size, results, from, next', o')
    ensures next == next' && o == o'
  {
    if next < next' {
      ShipsOn(size, results, from, next', o', next);
    } else if next' < next {
      ShipsOn(size, results, from, next, o, next');
    }
  }

  lemma TakeOnward(packet: seq<byte>, results: seq<int>, from: nat, next: nat, sentCount: nat)
    requires from <= next < |results| && sentCount == Sum(results, from, next) < |packet|
    ensures var k := Accepted(results[next], |packet| - sentCount);
      packet[..sentCount] + packet[sentCount..sentCount + k] == packet[..Min(Sum(results, from, next + 1), |packet|)]
  {}

  /** Sends one packet, each call offering what has not been taken yet. A call that fails
      is retried; one that returns 0 ends the connection. What is taken is the sum of the answers
      used, as far as the packet goes. */
  method SendPacket(packet: seq<byte>, results: seq<int>, from: nat) returns (taken: seq<byte>, next: nat, o: Outcome)
    requires packet != [] && from <= |results|
    ensures Ships(|packet|, results, from, next, o)
    ensures taken == packet[..Min(Sum(results, from, next), |packet|)]
  {
    taken, next := [], from;
    while |taken| < |packet|
      invariant from <= next <= |results| && taken == packet[..Min(Sum(results, from, next), |packet|)]
      invariant from < next ==> results[next - 1] != 0
      invariant forall k {:trigger Asks(|packet|, results, from, k)} ::
        from <= k < next ==> Asks(|packet|, results, from, k)
      decreases |results| - next
    {
      if next == |results| {
        return taken, next, Pending;
      }
      var result := results[next];
      var sentCount := |taken|;
      assert Asks(|packet|, results, from, next);
      next := next + 1;
      if result == 0 {
        return taken, next, Closed;
      }
      TakeOnward(packet, results, from, next - 1, sentCount);
      var k := Accepted(result, |packet| - sentCount);
      taken := taken + packet[sentCount..sentCount + k];
    }
    o := Sent;
  }

  /** The bytes are the frames of blocks `idxs`, claimed between `lo` and `hi`. */
  ghost predicate IsFramed(blocks: seq<Block>, lo: nat, hi: nat, idxs: seq<nat>, wire: seq<byte>) {
    hi <= |blocks| && IsWithin(idxs, lo, hi) && wire == Frames(HOST, StampedAll(blocks, idxs))
  }

  lemma SentGrows(blocks: seq<Block>, lo: nat, hi: nat, idxs: seq<nat>, wire: seq<byte>, i: nat)
    requires IsFramed(blocks, lo, hi, idxs, wire) && lo <= hi <= i < |blocks|
    ensures IsFramed(blocks, lo, i + 1, idxs + [i], wire + Frame(HOST, StampedAt(blocks, i)))
  {
    var it := StampedAt(blocks, i);
    assert StampedAll(blocks, idxs + [i]) == StampedAll(blocks, idxs) + [it];
    FramesConcat(HOST, StampedAll(blocks, idxs), [it]);
    assert Frames(HOST, [it]) == Frame(HOST, it) + [];
  }

  lemma SentOnward(blocks: seq<Block>, lo: nat, hi: nat, hi': nat, idxs: seq<nat>, wire: seq<byte>, c: Claimed)
    returns (idxs': seq<nat>, all: seq<byte>)
    requires IsFramed(blocks, lo, hi, idxs, wire) && lo <= hi <= hi' <= |blocks|
    requires c.Got? ==> hi < hi' && c.item == StampedAt(blocks, hi' - 1)
    ensures IsFramed(blocks, lo, hi', idxs', all)
    ensures if c.Got? then |idxs'| == |idxs| + 1 && all == wire + Frame(HOST, c.item)
            else idxs' == idxs && all == wire
  {
    idxs', all := idxs, wire;
    if c.Got? {
      SentGrows(blocks, lo, hi, idxs, wire, hi' - 1);
      idxs', all := idxs + [hi' - 1], wire + Frame(HOST, c.item);
    }
  }

  /** One claim of a worker, after up to `passed` claims by others, and the calls that send
      what it has claimed. */
  method TxOnce(buff: ProxyBuff, results: seq<int>, from: nat, passed: nat)
    returns (c: Claimed, taken: seq<byte>, next: nat, o: Outcome)
    requires buff.Valid() && from <= |results|
    modifies buff`getInd
    ensures buff.Valid() && from <= next <= |results|
    ensures c.Got? <==> old(buff.getInd) + passed < |buff.Contents()|
    ensures match c
      case Got(item) =>
        && buff.getInd == old(buff.getInd) + passed + 1 && item == StampedAt(buff.Contents(), buff.getInd - 1)
        && Ships(PACKET_SIZE, results, from, next, o)
        && taken == Frame(HOST, item)[..Min(Sum(results, from, next), PACKET_SIZE)]
      case Empty => taken == [] && next == from && o == Pending && !buff.finFlag && buff.getInd == |buff.Contents()|
      case Finished => taken == [] && next == from && o == Sent && buff.finFlag && buff.getInd == |buff.Contents()|
  {
    buff.OthersClaim(passed);
    c := buff.Claim();
    match c {
      case Got(item) => taken, next, o := SendPacket(Frame(HOST, item), results, from);
      case Empty => taken, next, o := [], from, Pending;
      case Finished => taken, next, o := [], from, Sent;
    }
  }

  /** Packets sent completely, and how many bytes of the next one are out. */
  datatype Shipped = Shipped(packets: nat, bytes: nat)

  /** What the first `n` answers take of one packet after another. */
  function Ship(results: seq<int>, n: nat): (p: Shipped)
    requires n <= |results|
    ensures p.bytes < PACKET_SIZE
  {
    if n == 0 then Shipped(0, 0)
    else
      var p := Ship(results, n - 1);
      var k := Accepted(results[n - 1], PACKET_SIZE - p.bytes);
      if p.bytes + k == PACKET_SIZE then Shipped(p.packets + 1, 0) else Shipped(p.packets, p.bytes + k)
  }

  lemma {:induction false} ShipPart(results: seq<int>, from: nat, n: nat)
    requires from <= n <= |results| && Ship(results, from).bytes == 0 && Sum(results, from, n) < PACKET_SIZE
    ensures Ship(results, n) == Shipped(Ship(results, from).packets, Sum(results, from, n))
  {
    if from < n {
      SumGrows(results, from, n - 1, n);
      ShipPart(results, from, n - 1);
    }
  }

  /** The calls for one packet move on to the next one exactly when all of it has been taken. */
  lemma ShipPacket(results: seq<int>, from: nat, next: nat, o: Outcome)
    requires Ships(PACKET_SIZE, results, from, next, o) && Ship(results, from).bytes == 0
    ensures var packets := Ship(results, from).packets;
      Ship(results, next) == if o == Sent then Shipped(packets + 1, 0) else Shipped(packets, Sum(results, from, next))
  {
    if o == Sent {
      ShipsOn(PACKET_SIZE, results, from, next, o, next - 1);
      ShipPart(results, from, next - 1);
    } else {
      ShipPart(results, from, next);
    }
  }

  lemma {:induction false} WholeShips(results: seq<int>, n: nat)
    requires n <= |results| && TakesPackets(results)
    ensures Ship(results, n) == Shipped(n, 0)
  {
    if n > 0 {
      WholeShips(results, n - 1);
    }
  }

  /** A worker that has claimed the blocks `idxs` has used the answers before `next`, and stops
      with outcome `o`: on an answer of 0; or when there is no further answer for a packet that
      it has begun; or when every block has been claimed, for good if the flag is set. */
  ghost predicate HasStopped(blocks: seq<Block>, getInd: nat, finFlag: bool, results: seq<int>, next: nat,
                             idxs: seq<nat>, wire: seq<byte>, all: seq<byte>, o: Outcome) {
    && next <= |results| && |all| == PACKET_SIZE * |idxs|
    && var p := Ship(results, next);
    && |idxs| == p.packets + (if wire == all then 0 else 1)
    && PACKET_SIZE * p.packets + p.bytes <= |all| && wire == all[..PACKET_SIZE * p.packets + p.bytes]
    && (forall k :: 0 <= k < next - 1 ==> results[k] != 0)
    && (o == Closed <==> next > 0 && results[next - 1] == 0)
    && (o == Sent <==> wire == all && finFlag && getInd == |blocks|)
    && (o == Pending ==> if wire == all then !finFlag && getInd == |blocks| else next == |results|)
  }

  /** Every call takes a whole packet. */
  ghost predicate TakesPackets(results: seq<int>) {
    forall k :: 0 <= k < |results| ==> results[k] >= PACKET_SIZE
  }

  /** So a worker whose calls all take a packet claims every block and sends it. */
  lemma StopsWhenDone(blocks: seq<Block>, lo: nat, getInd: nat, finFlag: bool, results: seq<int>, next: nat,
                      idxs: seq<nat>, wire: seq<byte>, all: seq<byte>, o: Outcome)
    requires HasStopped(blocks, getInd, finFlag, results, next, idxs, wire, all, o)
    requires |idxs| <= getInd - lo && getInd <= |blocks|
    ensures TakesPackets(results) && |results| >= |blocks| - lo
            ==> wire == all && getInd == |blocks| && (o == Sent <==> finFlag)
  {
    if TakesPackets(results) {
      WholeShips(results, next);
    }
  }

  /** One more round: either it goes on, or the worker stops. */
  lemma Rounded(blocks: seq<Block>, getInd: nat, finFlag: bool, results: seq<int>, from: nat, next: nat,
                idxs: seq<nat>, sent: seq<byte>, wire: seq<byte>, all: seq<byte>, c: Claimed, o: Outcome)
    requires from <= next <= |results| && |all| == PACKET_SIZE * |idxs|
    requires |sent| == PACKET_SIZE * Ship(results, from).packets
    requires Ship(results, from).bytes == 0 && forall k :: 0 <= k < from ==> results[k] != 0
    requires match c
      case Got(item) =>
        && Ships(PACKET_SIZE, results, from, next, o) && |idxs| == Ship(results, from).packets + 1
        && all == sent + Frame(HOST, item)
        && wire == sent + Frame(HOST, item)[..Min(Sum(results, from, next), PACKET_SIZE)]
      case Empty =>
        && next == from && |idxs| == Ship(results, from).packets && wire == all == sent
        && o == Pending && !finFlag && getInd == |blocks|
      case Finished =>
        && next == from && |idxs| == Ship(results, from).packets && wire == all == sent
        && o == Sent && finFlag && getInd == |blocks|
    ensures if c.Got? && o == Sent
      then wire == all && Ship(results, next) == Shipped(|idxs|, 0) && forall k :: 0 <= k < next ==> results[k] != 0
      else HasStopped(blocks, getInd, finFlag, results, next, idxs, wire, all, o)
  {
    if c.Got? {
      ShipPacket(results, from, next, o);
      NoneClosed(results, from, next, o);
    }
  }

  lemma NoneClosed(results: seq<int>, from: nat, next: nat, o: Outcome)
    requires Ships(PACKET_SIZE, results, from, next, o) && forall k :: 0 <= k < from ==> results[k] != 0
    ensures forall k :: 0 <= k < next - 1 ==> results[k] != 0
  {
    forall k | from <= k < next - 1
      ensures results[k] != 0
    {
      ShipsOn(PACKET_SIZE, results, from, next, o, k + 1);
    }
  }

  /** Between two rounds of a worker: it has claimed the blocks `idxs`, since the first `lo` had been
      claimed, and used the answers before `next` to send all of them. */
  ghost predicate HasSent(blocks: seq<Block>, lo: nat, hi: nat, results: seq<int>, next: nat,
                          idxs: seq<nat>, wire: seq<byte>) {
    && next <= |results| && lo <= hi && |idxs| <= hi - lo && IsFramed(blocks, lo, hi, idxs, wire)
    && Ship(results, next) == Shipped(|idxs|, 0) && forall k :: 0 <= k < next ==> results[k] != 0
  }

  /** One round of a worker, after which it goes on or stops. */
  method TxRound(buff: ProxyBuff, results: seq<int>, from: nat, passed: nat,
                 ghost lo: nat, ghost idxs: seq<nat>, wire: seq<byte>)
    returns (goesOn: bool, wire': seq<byte>, next: nat, o: Outcome, ghost idxs': seq<nat>, ghost all: seq<byte>)
    requires buff.Valid() && HasSent(buff.Contents(), lo, buff.getInd, results, from, idxs, wire)
    modifies buff`getInd
    ensures buff.Valid() && buff.getInd >= old(buff.getInd) && (goesOn ==> buff.getInd > old(buff.getInd))
    ensures if goesOn then HasSent(buff.Contents(), lo, buff.getInd, results, next, idxs', wire')
      else
        && IsFramed(buff.Contents(), lo, buff.getInd, idxs', all) && |idxs'| <= buff.getInd - lo
        && HasStopped(buff.Contents(), buff.getInd, buff.finFlag, results, next, idxs', wire', all, o)
    ensures passed == 0 ==> |idxs'| - |idxs| == buff.getInd - old(buff.getInd)
  {
    var c, taken;
    c, taken, next, o := TxOnce(buff, results, from, passed);
    idxs', all := SentOnward(buff.Contents(), lo, old(buff.getInd), buff.getInd, idxs, wire, c);
    wire', goesOn := wire + taken, c.Got? && o == Sent;
    Rounded(buff.Contents(), buff.getInd, buff.finFlag, results, from, next, idxs', wire, wire', all, c, o);
  }

  /** One worker on its link, while up to `others(n)` blocks are claimed by other workers before
      its n-th claim: what it puts on the wire is the framing of the blocks `idxs` that it has
      claimed, in order, cut off at most inside the last one. Alone it claims every block.
      `results` is what the socket answers; the worker is Pending when it waits for an answer
      or for a block. */
  method TxChain(buff: ProxyBuff, results: seq<int>, others: nat -> nat)
    returns (wire: seq<byte>, next: nat, o: Outcome, ghost idxs: seq<nat>, ghost all: seq<byte>)
    requires buff.Valid()
    modifies buff`getInd
    ensures buff.Valid() && |idxs| <= buff.getInd - old(buff.getInd)
    ensures IsFramed(buff.Contents(), old(buff.getInd), buff.getInd, idxs, all)
    ensures HasStopped(buff.Contents(), buff.getInd, buff.finFlag, results, next, idxs, wire, all, o)
    ensures (forall n :: others(n) == 0) ==> |idxs| == buff.getInd - old(buff.getInd)
    ensures TakesPackets(results) && |results| >= |buff.Contents()| - old(buff.getInd)
            ==> wire == all && buff.getInd == |buff.Contents()| && (o == Sent <==> buff.finFlag)
  {
    wire, next, o, idxs, all := [], 0, Sent, [], [];
    var round, goesOn := 0, true;
    while goesOn
      invariant buff.Valid() && old(buff.getInd) <= buff.getInd
      invariant if goesOn then HasSent(buff.Contents(), old(buff.getInd), buff.getInd, results, next, idxs, wire)
        else
          && IsFramed(buff.Contents(), old(buff.getInd), buff.getInd, idxs, all)
          && |idxs| <= buff.getInd - old(buff.getInd)
          && HasStopped(buff.Contents(), buff.getInd, buff.finFlag, results, next, idxs, wire, all, o)
      invariant (forall n :: others(n) == 0) ==> |idxs| == buff.getInd - old(buff.getInd)
      decreases goesOn, |buff.Contents()| - buff.getInd
    {
      goesOn, wire, next, o, idxs, all :=
        TxRound(buff, results, next, others(round), old(buff.getInd), idxs, wire);
      round := round + 1;
    }
    StopsWhenDone(buff.Contents(), old(buff.getInd), buff.getInd, buff.finFlag, results, next, idxs, wire, all, o);
  }

  /** The blocks that a stream is cut into. */
  function Blocks(stream: seq<byte>): (bs: seq<Block>)
    ensures |bs| == NumBlocks(stream)
  {
    seq(NumBlocks(stream), i requires 0 <= i < NumBlocks(stream) => BlockAt(stream, i))
  }

  /** The blocks of a stream, one after the other, are the zero-filled stream. */
  lemma {:induction false} BlocksArePadded(stream: seq<byte>, n: nat)
    requires n <= NumBlocks(stream)
    ensures BLOCKSIZE * n <= |Padded(stream)| && Bytes(Blocks(stream)[..n]) == Padded(stream)[..BLOCKSIZE * n]
  {
    if n > 0 {
      BlocksArePadded(stream, n - 1);
      PaddedBlock(stream, n - 1);
      assert Blocks(stream)[..n][..n - 1] == Blocks(stream)[..n - 1];
    }
  }

  lemma BlockOfSlice(stream: seq<byte>, i: nat, end: nat)
    requires BLOCKSIZE * i <= end <= |stream| && (end == BLOCKSIZE * (i + 1) || end == |stream| <= BLOCKSIZE * (i + 1))
    ensures ZeroFilled(stream[BLOCKSIZE * i..end]) == BlockAt(stream, i)
  {}

  /** The first `n` blocks of the stream have been appended. */
  ghost predicate IsAppended(before: seq<Block>, stream: seq<byte>, n: nat, now: seq<Block>) {
    n <= |Blocks(stream)| && now == before + Blocks(stream)[..n]
  }

  lemma AppendedOnward(before: seq<Block>, stream: seq<byte>, n: nat, now: seq<Block>, now': seq<Block>)
    requires IsAppended(before, stream, n, now) && BLOCKSIZE * n <= |stream|
    requires now' == now + if |stream| == BLOCKSIZE * n then [] else [BlockAt(stream, n)]
    ensures if |stream| < BLOCKSIZE * (n + 1) then now' == before + Blocks(stream)
            else IsAppended(before, stream, n + 1, now')
  {
    var bs := Blocks(stream);
    if |stream| == BLOCKSIZE * n {
      assert bs[..n] == bs;
    } else {
      assert bs[..n + 1] == bs[..n] + [BlockAt(stream, n)];
      assert |stream| < BLOCKSIZE * (n + 1) ==> bs[..n + 1] == bs;
    }
  }

  /** Collects one block of the intercepted connection, or what is left of the last one, and
      appends it unless it is empty. */
  method SplitOnce(buff: ProxyBuff, stream: seq<byte>, n: nat, sizes: nat -> nat) returns (recvCount: nat)
    requires buff.Valid() && BLOCKSIZE * n <= |stream|
    modifies buff`capacity, buff`buffer, buff`setInd, buff`rxByte, buff.buffer
    ensures buff.Valid() && (buff.buffer == old(buff.buffer) || fresh(buff.buffer))
    ensures recvCount == if |stream| - BLOCKSIZE * n < BLOCKSIZE then |stream| - BLOCKSIZE * n else BLOCKSIZE
    ensures buff.Contents() == old(buff.Contents()) + if recvCount == 0 then [] else [BlockAt(stream, n)]
  {
    var raw;
    raw, recvCount := ReceiveUpTo(stream, BLOCKSIZE * n, BLOCKSIZE, Schedule(_ => 0, sizes));
    if recvCount > 0 {
      BlockOfSlice(stream, n, BLOCKSIZE * n + recvCount);
      assert raw[..][..recvCount] == raw[..recvCount];
      var _ := buff.Add2Buff(raw, recvCount);
    }
  }

  /** Reads the intercepted connection to its end and appends its blocks, the last one
      zero-filled; no block is added when the stream ends on a block boundary. The workers
      claim up to `claims(n)` blocks before block `n` is read. */
  method SplitLoop(buff: ProxyBuff, stream: seq<byte>, sizes: nat -> nat, claims: nat -> nat)
    requires buff.Valid()
    modifies buff, buff.buffer
    ensures buff.Valid() && buff.finFlag && buff.getInd >= old(buff.getInd)
    ensures buff.Contents() == old(buff.Contents()) + Blocks(stream)
    ensures (forall n :: claims(n) == 0) ==> buff.getInd == old(buff.getInd)
  {
    var n := 0;
    ghost var before := buff.Contents();
    while true
      invariant buff.Valid() && buff.getInd >= old(buff.getInd)
      invariant buff.buffer == old(buff.buffer) || fresh(buff.buffer)
      invariant BLOCKSIZE * n <= |stream| && IsAppended(before, stream, n, buff.Contents())
      invariant (forall m :: claims(m) == 0) ==> buff.getInd == old(buff.getInd)
      decreases |stream| - BLOCKSIZE * n
    {
      ghost var now := buff.Contents();
      buff.OthersClaim(claims(n));
      var recvCount := SplitOnce(buff, stream, n, sizes);
      AppendedOnward(before, stream, n, now, buff.Contents());
      if recvCount < BLOCKSIZE {
        break;
      }
      n := n + 1;
    }
    buff.Finish();
  }
}
