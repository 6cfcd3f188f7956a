/** Where every claimed block is: a ledger with one entry a block. */
module Ledger {
  import opened Network
  import opened Protocol

  datatype Place = OnLink(l: nat) | Queued | Taken | Lost(l: nat)

  /** The blocks that link `l` owes the receiver, in the order in which they were claimed. */
  ghost function Pending(place: seq<Place>, l: nat): (idxs: seq<nat>)
    ensures forall k :: 0 <= k < |idxs| ==> idxs[k] < |place|
  {
    if place == [] then []
    else
      var n := |place| - 1;
      Pending(place[..n], l) + (if place[n] == OnLink(l) then [n] else [])
  }

  lemma {:induction false} PendingAre(place: seq<Place>, l: nat, i: nat)
    ensures i in Pending(place, l) <==> i < |place| && place[i] == OnLink(l)
  {
    if place != [] {
      var n := |place| - 1;
      PendingAre(place[..n], l, i);
    }
  }

  ghost predicate IsIncreasing(idxs: seq<nat>) {
    forall j, k :: 0 <= j < k < |idxs| ==> idxs[j] < idxs[k]
  }

  lemma {:induction false} PendingSorted(place: seq<Place>, l: nat)
    ensures IsIncreasing(Pending(place, l))
  {
    if place != [] {
      var n := |place| - 1;
      var front := Pending(place[..n], l);
      PendingSorted(place[..n], l);
      assert IsIncreasing(front + [n]);
    }
  }

  lemma {:induction false} PendingSame(place: seq<Place>, place': seq<Place>, l: nat)
    requires |place| == |place'|
    requires forall i :: 0 <= i < |place| ==> (place[i] == OnLink(l) <==> place'[i] == OnLink(l))
    ensures Pending(place, l) == Pending(place', l)
  {
    if place != [] {
      var n := |place| - 1;
      PendingSame(place[..n], place'[..n], l);
    }
  }

  lemma PendingClaim(place: seq<Place>, p: Place, l: nat)
    ensures Pending(place + [p], l) == Pending(place, l) + if p == OnLink(l) then [|place|] else []
  {
    assert (place + [p])[..|place|] == place;
  }

  /** Moving the k-th pending block elsewhere takes exactly it off the link. */
  lemma {:induction false} PendingLeaves(place: seq<Place>, l: nat, k: nat, p: Place)
    requires k < |Pending(place, l)| && !p.OnLink?
    ensures var idxs := Pending(place, l); Pending(place[idxs[k] := p], l) == idxs[..k] + idxs[k + 1..]
  {
    var n := |place| - 1;
    var idxs, front := Pending(place, l), Pending(place[..n], l);
    var i := idxs[k];
    var place' := place[i := p];
    if k < |front| {
      PendingLeaves(place[..n], l, k, p);
      assert place'[..n] == place[..n][i := p];
    } else {
      assert place'[..n] == place[..n];
    }
  }

  // ---------------------------------------------------------------- the ledger of a state

  function ItemAt(stream: seq<byte>, i: nat): Item {
    Item(StampOf(i), BlockAt(stream, i))
  }

  function ItemsAt(stream: seq<byte>, idxs: seq<nat>): (items: seq<Item>)
    ensures |items| == |idxs| && forall k :: 0 <= k < |idxs| ==> items[k] == ItemAt(stream, idxs[k])
  {
    seq(|idxs|, k requires 0 <= k < |idxs| => ItemAt(stream, idxs[k]))
  }

  function Unsent(tx: Worker): seq<byte> {
    if tx.Sending? && tx.sentCount <= PACKET_SIZE then tx.packet[tx.sentCount..] else []
  }

  /** All bytes on their way through a link, oldest first. */
  function InTransit(lk: Link): seq<byte> {
    lk.raw + lk.wire + Unsent(lk.tx)
  }

  // ---------------------------------------------------------------- the heap's part

  /** What a block at place `p` adds to the heap. */
  function Share(stream: seq<byte>, i: nat, p: Place): multiset<Item> {
    if p == Queued then multiset{ItemAt(stream, i)} else multiset{}
  }

  /** The items of all queued blocks. Blocks 65536 apart have the same stamp, so an item may
      be there several times. */
  ghost function Heap(stream: seq<byte>, place: seq<Place>): multiset<Item> {
    if place == [] then multiset{}
    else
      var n := |place| - 1;
      Heap(stream, place[..n]) + Share(stream, n, place[n])
  }

  lemma HeapGrows(stream: seq<byte>, place: seq<Place>, p: Place)
    ensures Heap(stream, place + [p]) == Heap(stream, place) + Share(stream, |place|, p)
  {
    assert (place + [p])[..|place|] == place;
  }

  lemma AddToBoth(a: multiset<Item>, b: multiset<Item>, a': multiset<Item>, b': multiset<Item>, x: multiset<Item>)
    requires a + b == a' + b'
    ensures a + x + b == a' + x + b'
  {
    assert a + x + b == a + b + x;
    assert a' + x + b' == a' + b' + x;
  }

  lemma {:induction false} HeapMoves(stream: seq<byte>, place: seq<Place>, i: nat, p: Place)
    requires i < |place|
    ensures Heap(stream, place[i := p]) + Share(stream, i, place[i]) == Heap(stream, place) + Share(stream, i, p)
  {
    var n := |place| - 1;
    var front, place' := place[..n], place[i := p];
    if i < n {
      HeapMoves(stream, front, i, p);
      assert place'[..n] == front[i := p] && place'[n] == place[n];
      AddToBoth(Heap(stream, front[i := p]), Share(stream, i, place[i]),
                Heap(stream, front), Share(stream, i, p), Share(stream, n, place[n]));
    } else {
      assert place'[..n] == front;
      AddToBoth(Heap(stream, front), multiset{}, Heap(stream, front), multiset{}, Share(stream, n, p));
    }
  }

  lemma {:induction false} HeapHas(stream: seq<byte>, place: seq<Place>, i: nat)
    requires i < |place| && place[i] == Queued
    ensures ItemAt(stream, i) in Heap(stream, place)
  {
    var n := |place| - 1;
    if i < n {
      HeapHas(stream, place[..n], i);
    }
  }

  /** Block `i` is the oldest queued one whose item is `x`. */
  ghost predicate IsOldest(stream: seq<byte>, place: seq<Place>, i: nat, x: Item) {
    && i < |place| && place[i] == Queued && ItemAt(stream, i) == x
    && forall h :: 0 <= h < i && place[h] == Queued ==> ItemAt(stream, h) != x
  }

  lemma {:induction false} HeapMember(stream: seq<byte>, place: seq<Place>, x: Item) returns (i: nat)
    requires x in Heap(stream, place)
    ensures IsOldest(stream, place, i, x)
  {
    var n := |place| - 1;
    if x in Heap(stream, place[..n]) {
      i := HeapMember(stream, place[..n], x);
    } else {
      i := n;
      forall h | 0 <= h < n && place[h] == Queued
        ensures ItemAt(stream, h) != x
      {
        HeapHas(stream, place[..n], h);
      }
    }
  }

  // ---------------------------------------------------------------- the forwarder's part

  /** The number of blocks the forwarder has taken off the heap. */
  function TakenUpTo(s: State): int {
    s.sent + 1 + if s.fwd.Waiting? then 0 else |s.fwd.batch| - s.fwd.count
  }

  /** The k-th block taken carries stamp k. */
  ghost predicate IsTakenAs(place: seq<Place>, order: seq<nat>, k: nat) {
    k < |order| ==> order[k] < |place| && place[order[k]] == Taken && StampOf(order[k]) == k
  }

  /** A block that was taken is listed under its stamp. */
  ghost predicate IsListed(place: seq<Place>, order: seq<nat>, i: nat) {
    i < |place| && place[i] == Taken ==> StampOf(i) < |order| && order[StampOf(i)] == i
  }

  /** `order` lists the blocks taken, in the order in which they were, none of them twice. */
  ghost predicate OrderHolds(place: seq<Place>, order: seq<nat>) {
    (forall k: nat :: IsTakenAs(place, order, k)) && forall i: nat :: IsListed(place, order, i)
  }

  /** The part of the output that belongs to the k-th block taken. */
  function Slot(out: seq<byte>, k: nat): seq<byte> {
    if |out| <= BLOCKSIZE * k then []
    else if |out| <= BLOCKSIZE * (k + 1) then out[BLOCKSIZE * k..]
    else out[BLOCKSIZE * k..BLOCKSIZE * (k + 1)]
  }

  /** Prefixes of one block, one after the other: what comes out when each call offers the
      block from its first byte. */
  ghost predicate IsMadeOf(w: seq<byte>, b: Block) {
    w == [] || exists n :: 0 < n <= |w| && n <= BLOCKSIZE && w[|w| - n..] == b[..n] && IsMadeOf(w[..|w| - n], b)
  }

  /** The k-th part of the output comes from block `i`; where the destination takes whole
      blocks, it is that block or still empty. */
  ghost predicate SlotHolds(c: Config, out: seq<byte>, k: nat, i: nat) {
    && IsMadeOf(Slot(out, k), BlockAt(c.stream, i))
    && (c.whole ==> Slot(out, k) == [] || Slot(out, k) == BlockAt(c.stream, i))
  }

  ghost predicate OutHolds(c: Config, out: seq<byte>, order: seq<nat>) {
    forall k {:trigger SlotHolds(c, out, k, order[k])} :: 0 <= k < |order| ==> SlotHolds(c, out, k, order[k])
  }

  ghost predicate BatchHolds(c: Config, batch: seq<Item>, order: seq<nat>) {
    && |batch| <= |order|
    && forall j :: 0 <= j < |batch| ==> batch[j] == ItemAt(c.stream, order[|order| - |batch| + j])
  }

  ghost predicate ForwarderHolds(c: Config, s: State, place: seq<Place>, order: seq<nat>) {
    && OrderHolds(place, order) && |order| == TakenUpTo(s)
    && OutHolds(c, s.out, order)
    && (s.fwd.Forwarding? ==> BatchHolds(c, s.fwd.batch, order))
  }

  // ---------------------------------------------------------------- the whole ledger

  ghost predicate LinkHolds(c: Config, lk: Link, idxs: seq<nat>) {
    InTransit(lk) == Frames(HOST, ItemsAt(c.stream, idxs))
  }

  ghost predicate LinksHold(c: Config, s: State, place: seq<Place>) {
    && (forall l :: 0 <= l < |s.links| ==> LinkHolds(c, s.links[l], Pending(place, l)))
    && (forall i :: 0 <= i < |place| && place[i].OnLink? ==> place[i].l < |s.links|)
    && (c.breaks == Never ==> forall i :: 0 <= i < |place| ==> !place[i].Lost?)
  }

  /** A lost block was lost by a link that is closed now, and that link has lost no other. */
  ghost predicate IsOnlyLoss(links: seq<Link>, place: seq<Place>, i: nat) {
    i < |place| && place[i].Lost? ==>
      && place[i].l < |links| && links[place[i].l].tx.Closed?
      && forall j :: 0 <= j < |place| && place[j] == place[i] ==> j == i
  }

  ghost predicate LossesHold(links: seq<Link>, place: seq<Place>) {
    forall i: nat :: IsOnlyLoss(links, place, i)
  }

  /** The place of a block that has reached the heap. */
  predicate IsBeyondLink(p: Place) {
    p == Queued || p == Taken
  }

  /** Some block with stamp `k` has reached the heap. */
  ghost predicate HasArrived(place: seq<Place>, k: int) {
    exists i :: 0 <= i < |place| && StampOf(i) == k && IsBeyondLink(place[i])
  }

  ghost predicate AvailHolds(avail: int, place: seq<Place>) {
    forall k :: 1 <= k <= avail ==> HasArrived(place, k)
  }

  /** The ledger agrees with every byte in the system: `place` has one entry for each claimed
      block, and each block is where its entry says, there only, and intact; `order` lists
      the blocks that the forwarder has taken. */
  ghost predicate Agrees(c: Config, s: State, place: seq<Place>, order: seq<nat>) {
    && |place| == s.getInd
    && LinksHold(c, s, place) && LossesHold(s.links, place)
    && s.queued == Heap(c.stream, place)
    && AvailHolds(s.availMinSeq, place)
    && ForwarderHolds(c, s, place, order)
  }

  /** The ledger once a batch has been taken: of equal items it is the oldest that goes. */
  ghost predicate TakesOldest(stream: seq<byte>, place: seq<Place>, order: seq<nat>, batch: seq<Item>,
                              place': seq<Place>, order': seq<nat>) {
    && |place'| == |place|
    && (forall i :: 0 <= i < |place| ==> place'[i] == place[i] || (place[i] == Queued && place'[i] == Taken))
    && order <= order' && |order'| == |order| + |batch|
    && forall j :: 0 <= j < |batch| ==> IsOldest(stream, place, order'[|order| + j], batch[j])
  }

  /** How an action moves the ledger: a claim adds an entry, a break loses the last block of
      its link, a packet moves from its link to the heap, a batch from the heap to the
      forwarder, and nothing else moves. */
  ghost predicate Moves(c: Config, a: Action, place: seq<Place>, order: seq<nat>,
                        place': seq<Place>, order': seq<nat>) {
    match a
    case Claim(l) => place' == place + [OnLink(l)] && order' == order
    case TxSendZero(l) =>
      var idxs := Pending(place, l);
      idxs != [] && place' == place[idxs[|idxs| - 1] := Lost(l)] && order' == order
    case RxEnqueue(l) =>
      var idxs := Pending(place, l);
      idxs != [] && place' == place[idxs[0] := Queued] && order' == order
    case Fill(batch) => TakesOldest(c.stream, place, order, batch, place', order')
    case _ => place' == place && order' == order
  }
}
