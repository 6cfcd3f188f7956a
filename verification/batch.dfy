/** What the forwarder takes from the queue in one go, over the queue's contents. */
module Batch {
  import opened Network

  /** `k` is the smallest queued key. */
  ghost predicate IsMinKey(q: multiset<Item>, k: int) {
    (exists x :: x in q && x.key == k) && forall x :: x in q ==> x.key >= k
  }

  /** `batch` is what repeated removal of a smallest item yields as long as its key is the
      next one after `sent`; `rest` is what is still queued. Equal keys and keys that have
      already been forwarded are allowed. */
  ghost predicate IsTaken(q: multiset<Item>, sent: int, batch: seq<Item>, rest: multiset<Item>) {
    && q == multiset(batch) + rest
    && (forall j :: 0 <= j < |batch| ==> batch[j].key == sent + 1 + j)
    && (batch != [] ==> forall x :: x in rest ==> x.key >= sent + |batch|)
  }

  /** The same, and nothing more can be taken. */
  ghost predicate IsBatch(q: multiset<Item>, sent: int, batch: seq<Item>, rest: multiset<Item>) {
    IsTaken(q, sent, batch, rest) && !IsMinKey(rest, sent + |batch| + 1)
  }

  ghost predicate HasKey(q: multiset<Item>, k: int) {
    exists x :: x in q && x.key == k
  }

  /** No two queued items share a key, and none has been forwarded already. */
  ghost predicate IsFresh(q: multiset<Item>, sent: int) {
    && (forall x :: x in q ==> x.key > sent && q[x] == 1)
    && (forall x, y :: x in q && y in q && x.key == y.key ==> x == y)
  }

  lemma BatchLeavesNoTwin(q: multiset<Item>, sent: int, batch: seq<Item>, rest: multiset<Item>, x: Item, j: int)
    requires IsBatch(q, sent, batch, rest) && IsFresh(q, sent)
    requires x in rest && x.key > sent && j < |batch|
    ensures x in q && (0 <= j ==> batch[j].key != x.key)
  {
    assert q[x] == multiset(batch)[x] + rest[x];
    assert 0 <= j ==> batch[j] in multiset(batch) && batch[j] in q;
  }

  /** With distinct keys not yet forwarded, a batch is exactly the longest run of queued
      keys that starts at sent + 1. */
  lemma BatchIsLongestRun(q: multiset<Item>, sent: int, batch: seq<Item>, rest: multiset<Item>)
    requires IsBatch(q, sent, batch, rest) && IsFresh(q, sent)
    ensures forall k :: sent < k <= sent + |batch| ==> HasKey(q, k)
    ensures !HasKey(q, sent + |batch| + 1)
    ensures forall x :: x in q ==> if x.key <= sent + |batch| then batch[x.key - sent - 1] == x else x in rest
    ensures forall x :: x in rest ==> x in q && x.key > sent + |batch|
  {
    forall k | sent < k <= sent + |batch|
      ensures HasKey(q, k)
    {
      assert batch[k - sent - 1] in multiset(batch);
    }
    forall x | x in rest
      ensures x in q && x.key > sent + |batch|
    {
      if x.key <= sent + |batch| {
        BatchLeavesNoTwin(q, sent, batch, rest, x, x.key - sent - 1);
      }
    }
    forall x | x in q
      ensures if x.key <= sent + |batch| then batch[x.key - sent - 1] == x else x in rest
    {
      if x in multiset(batch) {
        assert x in batch;
      }
      if x.key <= sent + |batch| {
        assert batch[x.key - sent - 1] in q;
      }
    }
  }

  /** Whenever the next expected key is the smallest one queued, a batch can be taken. */
  lemma {:induction false} TakeBatch(q: multiset<Item>, sent: int) returns (batch: seq<Item>, rest: multiset<Item>)
    ensures batch != [] <==> IsMinKey(q, sent + 1)
    ensures IsBatch(q, sent, batch, rest)
    decreases |q|, 1
  {
    if IsMinKey(q, sent + 1) {
      var x :| x in q && x.key == sent + 1;
      batch, rest := TakeBatchFrom(q, sent, x);
    } else {
      batch, rest := [], q;
    }
  }

  /** It can begin with any item that has that key. */
  lemma {:induction false} TakeBatchFrom(q: multiset<Item>, sent: int, x: Item)
    returns (batch: seq<Item>, rest: multiset<Item>)
    requires IsMinKey(q, sent + 1) && x in q && x.key == sent + 1
    ensures batch != [] && batch[0] == x && IsBatch(q, sent, batch, rest)
    decreases |q|, 0
  {
    var tail;
    tail, rest := TakeBatch(q - multiset{x}, sent + 1);
    batch := [x] + tail;
    ConsBatch(q, sent, x, tail, rest);
  }

  lemma ConsBatch(q: multiset<Item>, sent: int, x: Item, tail: seq<Item>, rest: multiset<Item>)
    requires IsMinKey(q, sent + 1) && x in q && x.key == sent + 1
    requires IsBatch(q - multiset{x}, sent + 1, tail, rest)
    ensures IsBatch(q, sent, [x] + tail, rest)
  {
    var batch := [x] + tail;
    assert multiset(batch) == multiset{x} + multiset(tail);
    assert q == multiset{x} + (q - multiset{x});
    forall j | 0 <= j < |batch|
      ensures batch[j].key == sent + 1 + j
    {
      assert j > 0 ==> batch[j] == tail[j - 1];
    }
    assert rest <= q;
  }

  function Payloads(items: seq<Item>): (bs: seq<Block>)
    ensures |bs| == |items| && forall i :: 0 <= i < |bs| ==> bs[i] == items[i].payload
  {
    seq(|items|, i requires 0 <= i < |items| => items[i].payload)
  }

  /** The bytes of a list of blocks. */
  function Bytes(blocks: seq<Block>): (w: seq<byte>)
    ensures |w| == BLOCKSIZE * |blocks|
  {
    if blocks == [] then [] else Bytes(blocks[..|blocks| - 1]) + blocks[|blocks| - 1]
  }
}
