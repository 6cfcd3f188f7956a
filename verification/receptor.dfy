/** The receiving side of one link (rx_proxy/link_receptor.c) and the pool it shares with
    the forwarder. */
module Receptor {
  import opened Network
  import opened HeapOrder
  import opened PriorityQueue
  import opened Sockets

  ghost function ItemOf(n: Node): Item
    requires n.pri < STAMPS
    reads n`pri
  {
    Item(n.pri, n.raw)
  }

  ghost function Holders(nodes: set<Node>, x: Item): set<Node>
    reads nodes`pri
  {
    set n | n in nodes && n.pri == x.key && n.raw == x.payload
  }

  ghost predicate IsStamped(n: Node)
    reads n`pri
  {
    n.pri < STAMPS
  }

  /** The queued nodes carry exactly the items `q`, and every priority came from a stamp. */
  ghost predicate Represents(nodes: set<Node>, q: multiset<Item>)
    reads nodes`pri
  {
    && (forall n {:trigger IsStamped(n)} :: n in nodes ==> IsStamped(n))
    && (forall x {:trigger Holders(nodes, x)} :: q[x] == |Holders(nodes, x)|)
  }

  lemma RepresentsAdd(nodes: set<Node>, n: Node, q: multiset<Item>)
    requires Represents(nodes, q) && n !in nodes && n.pri < STAMPS
    ensures Represents(nodes + {n}, q + multiset{ItemOf(n)})
  {
    forall x: Item
      ensures (q + multiset{ItemOf(n)})[x] == |Holders(nodes + {n}, x)|
    {
      var was := Holders(nodes, x);
      assert Holders(nodes + {n}, x) == if x == ItemOf(n) then was + {n} else was;
    }
    forall m | m in nodes + {n}
      ensures IsStamped(m)
    {
      assert m != n ==> m in nodes && IsStamped(m);
    }
  }

  lemma RepresentsRemove(nodes: set<Node>, n: Node, q: multiset<Item>)
    requires Represents(nodes, q) && n in nodes
    ensures n.pri < STAMPS && ItemOf(n) in q && Represents(nodes - {n}, q - multiset{ItemOf(n)})
  {
    assert IsStamped(n);
    assert n in Holders(nodes, ItemOf(n));
    forall x: Item
      ensures (q - multiset{ItemOf(n)})[x] == |Holders(nodes - {n}, x)|
    {
      var was := Holders(nodes, x);
      assert Holders(nodes - {n}, x) == if x == ItemOf(n) then was - {n} else was;
    }
    forall m | m in nodes - {n}
      ensures IsStamped(m)
    {
      assert m in nodes && IsStamped(m);
    }
  }

  lemma RepresentsMember(nodes: set<Node>, q: multiset<Item>, x: Item) returns (n: Node)
    requires Represents(nodes, q) && x in q
    ensures n in nodes && n.pri == x.key && n.raw == x.payload
  {
    assert |Holders(nodes, x)| > 0;
    n :| n in Holders(nodes, x);
  }

  /** The counter of the longest prefix seen so far, moved by one arriving packet. */
  function NextAvail(avail: int, seqno: int): int {
    if avail + 1 == seqno then avail + 1 else avail
  }

  /** The same, moved by one arrival after the other. */
  function AvailAfter(avail: int, items: seq<Item>): int {
    if items == [] then avail
    else NextAvail(AvailAfter(avail, items[..|items| - 1]), items[|items| - 1].key)
  }

  lemma {:induction false} AvailOnward(avail: int, a: seq<Item>, b: seq<Item>)
    ensures AvailAfter(avail, a + b) == AvailAfter(AvailAfter(avail, a), b)
  {
    if b == [] {
      assert a + b == a;
    } else {
      AvailOnward(avail, a, b[..|b| - 1]);
      assert (a + b)[..|a + b| - 1] == a + b[..|b| - 1];
    }
  }

  class Pool {
    const pq: PQueue
    var availMinSeq: int
    var sentMinSeq: int
    ghost var queued: multiset<Item> // what the heap holds

    constructor ()
      ensures Valid() && queued == multiset{} && availMinSeq == 0 && sentMinSeq == 0
      ensures fresh(pq) && fresh(pq.d) && pq.nodes == {}
    {
      CmpPriIsStrictWeakOrder();
      pq := new PQueue.Init(10, CmpPri);
      availMinSeq, sentMinSeq := 0, 0;
      queued := multiset{};
    }

    ghost predicate Valid()
      reads this, pq, pq.d, pq.nodes
    {
      pq.Valid() && pq.cmp == CmpPri && Represents(pq.nodes, queued)
    }

    /** The item in the root of the heap. */
    ghost function Top(): (x: Item)
      requires Valid() && pq.size > 1
      reads this, pq, pq.d, pq.nodes
      ensures x in queued && forall y :: y in queued ==> x.key <= y.key
    {
      pq.RootLeads();
      RootIsLeast();
      ItemOf(pq.d[1])
    }

    lemma RootIsLeast()
      requires Valid() && pq.size > 1 && pq.d[1] in pq.nodes && pq.Leads(pq.d[1], pq.nodes)
      ensures pq.d[1].pri < STAMPS && ItemOf(pq.d[1]) in queued
      ensures forall y :: y in queued ==> pq.d[1].pri <= y.key
    {
      RepresentsRemove(pq.nodes, pq.d[1], queued);
      forall y | y in queued
        ensures pq.d[1].pri <= y.key
      {
        var n := RepresentsMember(pq.nodes, queued, y);
      }
    }

    /** Of equal keys the older one stays on top. */
    method Enqueue(ns: Node)
      requires Valid() && ns !in pq.nodes && ns.pri < STAMPS
      modifies `queued, pq, pq.d, pq.nodes`pos, ns`pos
      ensures Valid() && pq.nodes == old(pq.nodes) + {ns} && pq.size > 1
      ensures queued == old(queued) + multiset{ItemOf(ns)}
      ensures pq.d == old(pq.d) || fresh(pq.d)
      ensures old(pq.size) > 1 && old(Top()).key <= ns.pri ==> Top() == old(Top())
    {
      ghost var top := if pq.size > 1 then pq.d[1] else null;
      pq.OpenSlots();
      RepresentsAdd(pq.nodes, ns, queued);
      pq.Insert(ns);
      queued := queued + multiset{ItemOf(ns)};
      assert top != null && top.pri <= ns.pri ==> pq.d[1] == top;
    }

    /** Queues one received packet; `signal` tells whether the forwarder is woken. */
    method Add2Queue(raw: Packet) returns (signal: bool)
      requires Valid()
      modifies `availMinSeq, `queued, pq, pq.d, pq.nodes`pos
      ensures Valid() && queued == old(queued) + multiset{Unframe(HOST, raw)}
      ensures availMinSeq == NextAvail(old(availMinSeq), Unframe(HOST, raw).key)
      ensures signal <==> sentMinSeq + 1 == Unframe(HOST, raw).key
      ensures pq.d == old(pq.d) || fresh(pq.d)
      ensures fresh(pq.nodes - old(pq.nodes))
      ensures pq.size > 1
      ensures old(pq.size) > 1 && old(Top()).key <= Unframe(HOST, raw).key ==> Top() == old(Top())
    {
      var packet := Unframe(HOST, raw);
      var ns := new Node(packet.key, packet.payload);
      Enqueue(ns);
      if availMinSeq + 1 == packet.key {
        availMinSeq := availMinSeq + 1;
      }
      signal := sentMinSeq + 1 == packet.key;
    }
  }

  /** The first `pos` bytes of the wire are the packets `items`. */
  ghost predicate IsCut(wire: seq<byte>, pos: nat, items: seq<Item>) {
    && pos <= |wire|
    && Parse(HOST, wire).0 == items + Parse(HOST, wire[pos..]).0
    && Parse(HOST, wire).1 == Parse(HOST, wire[pos..]).1
  }

  lemma CutGrows(wire: seq<byte>, pos: nat, items: seq<Item>, packet: Packet)
    requires IsCut(wire, pos, items)
    requires pos + PACKET_SIZE <= |wire| && packet == wire[pos..pos + PACKET_SIZE]
    ensures IsCut(wire, pos + PACKET_SIZE, items + [Unframe(HOST, packet)])
  {
    var w := wire[pos..];
    assert w[..PACKET_SIZE] == packet && w[PACKET_SIZE..] == wire[pos + PACKET_SIZE..];
  }

  /** What a receiver queues for all the bytes of a wire: every whole packet once and, when
      the last one is cut short, a packet that only begins with the bytes left over. */
  ghost predicate IsReceived(wire: seq<byte>, items: seq<Item>) {
    var (whole, rest) := Parse(HOST, wire);
    if rest == [] then items == whole
    else exists p: Packet :: rest <= p && items == whole + [Unframe(HOST, p)]
  }

  /** Framing round trip over a whole link: what a receiver queues for the packets a worker
      has sent are exactly those packets, and nothing else will do. */
  lemma LinkRoundTrip(items: seq<Item>, queued: seq<Item>)
    ensures IsReceived(Frames(HOST, items), queued) <==> queued == items
  {
    ParseFrames(HOST, items, []);
    assert Frames(HOST, items) + [] == Frames(HOST, items);
  }

  lemma CutEnds(wire: seq<byte>, pos: nat, items: seq<Item>, packet: Packet)
    requires IsCut(wire, pos, items) && |wire| - pos < PACKET_SIZE
    requires wire[pos..] <= packet
    ensures IsReceived(wire, if pos == |wire| then items else items + [Unframe(HOST, packet)])
  {
    assert Parse(HOST, wire).0 == items + [];
  }

  /** Collects and queues one packet, or what is left of one when the peer has closed. */
  method ReceivePacket(pl: Pool, wire: seq<byte>, pos: nat, calls: Schedule) returns (packet: Packet, recvCount: nat)
    requires pl.Valid() && pos <= |wire|
    modifies pl`availMinSeq, pl`queued, pl.pq, pl.pq.d, pl.pq.nodes`pos
    ensures recvCount == if |wire| - pos < PACKET_SIZE then |wire| - pos else PACKET_SIZE
    ensures packet[..recvCount] == wire[pos..pos + recvCount]
    ensures pl.Valid() && (pl.pq.d == old(pl.pq.d) || fresh(pl.pq.d)) && fresh(pl.pq.nodes - old(pl.pq.nodes))
    ensures if recvCount == 0
      then pl.queued == old(pl.queued) && pl.availMinSeq == old(pl.availMinSeq) && pl.pq.size == old(pl.pq.size)
      else
        && pl.queued == old(pl.queued) + multiset{Unframe(HOST, packet)}
        && pl.availMinSeq == NextAvail(old(pl.availMinSeq), Unframe(HOST, packet).key)
        && pl.pq.size > 1
    ensures old(pl.pq.size) > 1 && (recvCount == 0 || old(pl.Top()).key <= Unframe(HOST, packet).key)
            ==> pl.Top() == old(pl.Top())
  {
    var raw;
    raw, recvCount := ReceiveUpTo(wire, pos, PACKET_SIZE, calls);
    packet := raw[..];
    assert raw[..recvCount] == packet[..recvCount];
    if recvCount > 0 {
      var _ := pl.Add2Queue(packet);
    }
  }

  /** One round of the receiver thread: what has been queued so far is still what the bytes
      received so far were cut into. */
  method ReceiveOne(pl: Pool, wire: seq<byte>, pos: nat, calls: Schedule, ghost items: seq<Item>)
    returns (closed: bool, ghost more: seq<Item>)
    requires pl.Valid() && IsCut(wire, pos, items)
    modifies pl`availMinSeq, pl`queued, pl.pq, pl.pq.d, pl.pq.nodes`pos
    ensures pl.Valid()
    ensures pl.pq.d == old(pl.pq.d) || fresh(pl.pq.d)
    ensures fresh(pl.pq.nodes - old(pl.pq.nodes))
    ensures if closed then IsReceived(wire, items + more) else IsCut(wire, pos + PACKET_SIZE, items + more)
    ensures pl.queued == old(pl.queued) + multiset(more)
    ensures pl.availMinSeq == AvailAfter(old(pl.availMinSeq), more)
  {
    var packet, recvCount := ReceivePacket(pl, wire, pos, calls);
    closed, more := recvCount < PACKET_SIZE, if recvCount == 0 then [] else [Unframe(HOST, packet)];
    if closed {
      assert wire[pos..] == packet[..recvCount];
      CutEnds(wire, pos, items, packet);
      assert recvCount == 0 ==> items + more == items;
    } else {
      CutGrows(wire, pos, items, packet);
    }
  }

  /** Packets that other receivers queue. */
  method OthersReceive(pl: Pool, packets: seq<Packet>) returns (ghost theirs: seq<Item>)
    requires pl.Valid()
    modifies pl`availMinSeq, pl`queued, pl.pq, pl.pq.d, pl.pq.nodes`pos
    ensures pl.Valid() && (pl.pq.d == old(pl.pq.d) || fresh(pl.pq.d)) && fresh(pl.pq.nodes - old(pl.pq.nodes))
    ensures pl.queued == old(pl.queued) + multiset(theirs)
    ensures pl.availMinSeq == AvailAfter(old(pl.availMinSeq), theirs)
    ensures |theirs| == |packets| && forall k :: 0 <= k < |packets| ==> theirs[k] == Unframe(HOST, packets[k])
  {
    theirs := [];
    for k := 0 to |packets|
      invariant pl.Valid() && (pl.pq.d == old(pl.pq.d) || fresh(pl.pq.d))
      invariant fresh(pl.pq.nodes - old(pl.pq.nodes))
      invariant pl.queued == old(pl.queued) + multiset(theirs)
      invariant pl.availMinSeq == AvailAfter(old(pl.availMinSeq), theirs)
      invariant |theirs| == k && forall j :: 0 <= j < k ==> theirs[j] == Unframe(HOST, packets[j])
    {
      var _ := pl.Add2Queue(packets[k]);
      assert (theirs + [Unframe(HOST, packets[k])])[..k] == theirs;
      theirs := theirs + [Unframe(HOST, packets[k])];
    }
  }

  /** Since the pool held `q` and its counter was `avail`, `items` have been queued by one receiver
      and `theirs` by the others, all together in the order `arrived`. */
  ghost predicate HasQueued(queued: multiset<Item>, availMinSeq: int, q: multiset<Item>, avail: int,
                            items: seq<Item>, theirs: multiset<Item>, arrived: seq<Item>) {
    && queued == q + multiset(arrived) && multiset(arrived) == multiset(items) + theirs
    && availMinSeq == AvailAfter(avail, arrived)
  }

  lemma QueuedOnward(queued: multiset<Item>, availMinSeq: int, q: multiset<Item>, avail: int, items: seq<Item>,
                     theirs: multiset<Item>, arrived: seq<Item>, others: seq<Item>, more: seq<Item>)
    requires HasQueued(queued, availMinSeq, q, avail, items, theirs, arrived)
    ensures HasQueued(queued + multiset(others) + multiset(more), AvailAfter(AvailAfter(availMinSeq, others), more),
      q, avail, items + more, theirs + multiset(others), arrived + others + more)
  {
    AvailOnward(avail, arrived, others);
    AvailOnward(avail, arrived + others, more);
  }

  /** What has been queued for the first `pos` bytes of the wire or, in the end, for all of it. */
  ghost predicate IsReceiving(closed: bool, wire: seq<byte>, pos: nat, items: seq<Item>) {
    if closed then IsReceived(wire, items) else IsCut(wire, pos, items)
  }

  /** One round beside other receivers. */
  method ReceiveBeside(pl: Pool, wire: seq<byte>, pos: nat, calls: Schedule, packets: seq<Packet>,
                       ghost q: multiset<Item>, ghost avail: int,
                       ghost items: seq<Item>, ghost theirs: multiset<Item>, ghost arrived: seq<Item>)
    returns (closed: bool, ghost items': seq<Item>, ghost theirs': multiset<Item>, ghost arrived': seq<Item>)
    requires pl.Valid() && IsCut(wire, pos, items)
    requires HasQueued(pl.queued, pl.availMinSeq, q, avail, items, theirs, arrived)
    modifies pl`availMinSeq, pl`queued, pl.pq, pl.pq.d, pl.pq.nodes`pos
    ensures pl.Valid() && (pl.pq.d == old(pl.pq.d) || fresh(pl.pq.d)) && fresh(pl.pq.nodes - old(pl.pq.nodes))
    ensures IsReceiving(closed, wire, pos + PACKET_SIZE, items')
    ensures HasQueued(pl.queued, pl.availMinSeq, q, avail, items', theirs', arrived')
    ensures packets == [] ==> theirs' == theirs
  {
    ghost var more;
    ghost var queued := OthersReceive(pl, packets);
    closed, more := ReceiveOne(pl, wire, pos, calls, items);
    QueuedOnward(old(pl.queued), old(pl.availMinSeq), q, avail, items, theirs, arrived, queued, more);
    items', theirs', arrived' := items + more, theirs + multiset(queued), arrived + queued + more;
    assert packets == [] ==> queued == [];
  }

  /** The receiver thread of one link, from its first byte until the peer has closed, under
      any segmentation, while other receivers queue the packets `others(n)` before its n-th
      round. */
  method RxChain(pl: Pool, wire: seq<byte>, calls: Schedule, others: nat -> seq<Packet>)
    returns (ghost items: seq<Item>, ghost theirs: multiset<Item>, ghost arrived: seq<Item>)
    requires pl.Valid()
    modifies pl`availMinSeq, pl`queued, pl.pq, pl.pq.d, pl.pq.nodes`pos
    ensures pl.Valid() && IsReceived(wire, items)
    ensures HasQueued(pl.queued, pl.availMinSeq, old(pl.queued), old(pl.availMinSeq), items, theirs, arrived)
    ensures (forall n :: others(n) == []) ==> theirs == multiset{}
  {
    var pos: nat, round: nat, closed := 0, 0, false;
    items, theirs, arrived := [], multiset{}, [];
    ghost var q, avail := pl.queued, pl.availMinSeq;
    while !closed
      invariant pl.Valid() && IsReceiving(closed, wire, pos, items)
      invariant pl.pq.d == old(pl.pq.d) || fresh(pl.pq.d)
      invariant fresh(pl.pq.nodes - old(pl.pq.nodes))
      invariant HasQueued(pl.queued, pl.availMinSeq, q, avail, items, theirs, arrived)
      invariant (forall n :: others(n) == []) ==> theirs == multiset{}
      decreases !closed, |wire| - pos
    {
      closed, items, theirs, arrived := ReceiveBeside(
        pl, wire, pos, calls, others(round), q, avail, items, theirs, arrived);
      pos, round := pos + PACKET_SIZE, round + 1;
    }
  }
}
