/** Over a single link the blocks come in order at any length, although their stamps repeat:
    a block whose stamp is taken already blocks the heap, and the array keeps block 0 above
    the later blocks that have its stamp. */
module OneLink {
  import opened Network
  import opened Protocol
  import opened Runs
  import opened Ledger
  import opened LinkBytes
  import opened Safety

  /** Blocks 0 to m - 1 have arrived, in that order, and none later; the forwarder has taken
      them in order; only the last block can have been lost. */
  ghost predicate InSequence(c: Config, s: State, place: seq<Place>, order: seq<nat>, m: nat) {
    && m <= |place| && |s.links| == 1
    && (forall i :: 0 <= i < |place| ==> (IsBeyondLink(place[i]) <==> i < m))
    && (forall i :: 0 <= i < |place| && place[i].Lost? ==> i == |place| - 1 && s.links[0].tx.Closed?)
    && (forall k :: 0 <= k < |order| ==> order[k] == k)
    && s.zero == if m == 0 then NoneYet else Oldest(ItemAt(c.stream, 0))
  }

  /** The link's blocks are all those that have neither arrived nor been lost. */
  lemma PendingIsRest(c: Config, s: State, place: seq<Place>, order: seq<nat>, m: nat)
    requires InSequence(c, s, place, order, m) && LinksHold(c, s, place) && Pending(place, 0) != []
    ensures Pending(place, 0)[0] == m
    ensures !s.links[0].tx.Closed? ==> Pending(place, 0)[|Pending(place, 0)| - 1] == |place| - 1
  {
    var idxs := Pending(place, 0);
    PendingSorted(place, 0);
    PendingAre(place, 0, idxs[0]);
    PendingAre(place, 0, m);
    PendingAre(place, 0, |place| - 1);
  }

  lemma BreakInSequence(c: Config, s: State, s': State, place: seq<Place>, order: seq<nat>, m: nat)
    requires InSequence(c, s, place, order, m) && LinksHold(c, s, place) && Pending(place, 0) != []
    requires !s.links[0].tx.Closed? && |s'.links| == 1 && s'.links[0].tx.Closed? && s'.zero == s.zero
    ensures var idxs := Pending(place, 0); InSequence(c, s', place[idxs[|idxs| - 1] := Lost(0)], order, m)
  {
    var idxs := Pending(place, 0);
    PendingIsRest(c, s, place, order, m);
    PendingAre(place, 0, idxs[|idxs| - 1]);
  }

  lemma ArrivalInSequence(c: Config, s: State, s': State, place: seq<Place>, order: seq<nat>, m: nat)
    requires InSequence(c, s, place, order, m) && m < |place| && place[m].OnLink?
    requires |s'.links| == 1 && s'.links[0].tx == s.links[0].tx
    requires s'.zero == if s.zero.NoneYet? && StampOf(m) == 0 then Oldest(ItemAt(c.stream, m)) else s.zero
    ensures InSequence(c, s', place[m := Queued], order, m + 1)
  {}

  /** Block 0 is the first one taken, even when later blocks with its stamp are queued. */
  lemma ZeroFirst(c: Config, s: State, place: seq<Place>, order: seq<nat>, m: nat, batch: seq<Item>,
                  place': seq<Place>, order': seq<nat>)
    requires InSequence(c, s, place, order, m) && OrderHolds(place, order)
    requires |order| == s.sent + 1 && batch != [] && batch[0].key == |order| && KeepsTop(s, batch[0])
    requires TakesOldest(c.stream, place, order, batch, place', order')
    ensures order'[0] == 0
  {
    if order == [] {
      var i := order'[0];
      assert IsOldest(c.stream, place, order'[|order| + 0], batch[0]);
      assert IsBeyondLink(place[i]) && IsBeyondLink(place[0]);
      assert IsListed(place, order, 0);
      assert place[0] == Queued && batch[0] == ItemAt(c.stream, 0);
    }
  }

  /** The block taken for key `k` is block `k`: a later one with that stamp has block 65536
      before it, whose stamp 0 would have been smaller. */
  lemma TakenInSequence(c: Config, s: State, place: seq<Place>, order: seq<nat>, m: nat, batch: seq<Item>,
                        place': seq<Place>, order': seq<nat>, j: nat)
    requires InSequence(c, s, place, order, m) && OrderHolds(place', order')
    requires TakesOldest(c.stream, place, order, batch, place', order')
    requires j < |batch| && batch[j].key == |order| + j && order'[0] == 0
    requires forall x :: x in Heap(c.stream, place') ==> x.key >= |order| + |batch| - 1
    ensures order'[|order| + j] == |order| + j
  {
    var k := |order| + j;
    var i := order'[k];
    assert IsOldest(c.stream, place, i, batch[j]);
    assert StampOf(i) == k && IsBeyondLink(place[i]) && i < m;
    if k > 0 && i != k {
      assert i >= STAMPS && IsBeyondLink(place[STAMPS]);
      assert IsListed(place', order', STAMPS);
      HeapHas(c.stream, place', STAMPS);
    }
  }

  lemma FillInSequence(c: Config, s: State, s': State, place: seq<Place>, order: seq<nat>, m: nat,
                       batch: seq<Item>, place': seq<Place>, order': seq<nat>)
    requires InSequence(c, s, place, order, m) && OrderHolds(place, order) && OrderHolds(place', order')
    requires |order| == s.sent + 1 && batch != [] && KeepsTop(s, batch[0])
    requires forall j :: 0 <= j < |batch| ==> batch[j].key == |order| + j
    requires TakesOldest(c.stream, place, order, batch, place', order')
    requires forall x :: x in Heap(c.stream, place') ==> x.key >= |order| + |batch| - 1
    requires s'.links == s.links && s'.zero == s.zero
    ensures InSequence(c, s', place', order', m)
  {
    ZeroFirst(c, s, place, order, m, batch, place', order');
    forall k | 0 <= k < |order'|
      ensures order'[k] == k
    {
      if k >= |order| {
        TakenInSequence(c, s, place, order, m, batch, place', order', k - |order|);
      }
    }
  }

  // ---------------------------------------------------------------- the steps

  /** The ledger before and after an action. */
  ghost predicate IsMove(c: Config, s: State, a: Action, place: seq<Place>, order: seq<nat>,
                         place': seq<Place>, order': seq<nat>) {
    && Enabled(c, s, a) && LinksHold(c, s, place) && OrderHolds(place, order)
    && OrderHolds(place', order') && Next(c, s, a).queued == Heap(c.stream, place')
    && Moves(c, a, place, order, place', order')
  }

  lemma ClaimInSequence(c: Config, s: State, place: seq<Place>, order: seq<nat>, m: nat, l: nat)
    requires InSequence(c, s, place, order, m) && Enabled(c, s, Claim(l))
    ensures InSequence(c, Next(c, s, Claim(l)), place + [OnLink(l)], order, m)
  {}

  lemma BreakStepInSequence(c: Config, s: State, place: seq<Place>, order: seq<nat>, m: nat, l: nat)
    requires InSequence(c, s, place, order, m) && LinksHold(c, s, place) && Enabled(c, s, TxSendZero(l))
    requires Pending(place, l) != []
    ensures var idxs := Pending(place, l);
      InSequence(c, Next(c, s, TxSendZero(l)), place[idxs[|idxs| - 1] := Lost(l)], order, m)
  {
    BreakInSequence(c, s, Next(c, s, TxSendZero(l)), place, order, m);
  }

  lemma EnqueueStepInSequence(c: Config, s: State, place: seq<Place>, order: seq<nat>, m: nat, l: nat)
    requires InSequence(c, s, place, order, m) && LinksHold(c, s, place) && Enabled(c, s, RxEnqueue(l))
    requires Pending(place, l) != []
    ensures InSequence(c, Next(c, s, RxEnqueue(l)), place[Pending(place, l)[0] := Queued], order, m + 1)
  {
    assert LinkHolds(c, s.links[0], Pending(place, 0));
    FullBuffer(c, s.links[0], Pending(place, 0));
    PendingIsRest(c, s, place, order, m);
    PendingAre(place, 0, m);
    ArrivalInSequence(c, s, Next(c, s, RxEnqueue(l)), place, order, m);
  }

  lemma FillStepInSequence(c: Config, s: State, place: seq<Place>, order: seq<nat>, m: nat, batch: seq<Item>,
                           place': seq<Place>, order': seq<nat>)
    requires InSequence(c, s, place, order, m) && OrderHolds(place, order) && |order| == TakenUpTo(s)
    requires Enabled(c, s, Fill(batch)) && TakesOldest(c.stream, place, order, batch, place', order')
    requires OrderHolds(place', order') && Heap(c.stream, place') == s.queued - multiset(batch)
    ensures InSequence(c, Next(c, s, Fill(batch)), place', order', m)
  {
    assert KeepsTop(s, batch[0]);
    FillInSequence(c, s, Next(c, s, Fill(batch)), place, order, m, batch, place', order');
  }

  lemma StillInSequence(c: Config, s: State, a: Action, place: seq<Place>, order: seq<nat>, m: nat)
    requires InSequence(c, s, place, order, m) && LinksHold(c, s, place) && Enabled(c, s, a) && IsStill(a)
    ensures InSequence(c, Next(c, s, a), place, order, m)
  {
    if a.RxEof? {
      EndInSequence(c, s, a, place);
    }
    LinksStill(c, s, a);
  }

  lemma EndInSequence(c: Config, s: State, a: Action, place: seq<Place>)
    requires LinksHold(c, s, place) && Enabled(c, s, a) && a.RxEof?
    ensures s.links[a.l].raw == []
  {
    assert LinkHolds(c, s.links[a.l], Pending(place, a.l));
    NothingTruncated(c, s.links[a.l], Pending(place, a.l));
  }

  lemma LinksStill(c: Config, s: State, a: Action)
    requires Enabled(c, s, a) && |s.links| == 1 && IsStill(a) && (a.RxEof? ==> s.links[a.l].raw == [])
    ensures var s' := Next(c, s, a);
      |s'.links| == 1 && s'.zero == s.zero && (s.links[0].tx.Closed? ==> s'.links[0].tx.Closed?)
  {}

  lemma StepInSequence(c: Config, s: State, a: Action, place: seq<Place>, order: seq<nat>, m: nat,
                       place': seq<Place>, order': seq<nat>)
    returns (m': nat)
    requires InSequence(c, s, place, order, m) && |order| == TakenUpTo(s)
    requires IsMove(c, s, a, place, order, place', order')
    ensures InSequence(c, Next(c, s, a), place', order', m')
  {
    m' := if a.RxEnqueue? then m + 1 else m;
    match a {
      case Claim(l) => ClaimInSequence(c, s, place, order, m, l);
      case TxSendZero(l) => BreakStepInSequence(c, s, place, order, m, l);
      case RxEnqueue(l) => EnqueueStepInSequence(c, s, place, order, m, l);
      case Fill(batch) => FillStepInSequence(c, s, place, order, m, batch, place', order');
      case _ => StillInSequence(c, s, a, place, order, m);
    }
  }

  lemma AgreeingIsMove(c: Config, s: State, a: Action, place: seq<Place>, order: seq<nat>,
                       place': seq<Place>, order': seq<nat>)
    requires Agrees(c, s, place, order) && Enabled(c, s, a) && Agrees(c, Next(c, s, a), place', order')
    requires Moves(c, a, place, order, place', order')
    ensures IsMove(c, s, a, place, order, place', order') && |order| == TakenUpTo(s)
  {}

  lemma NextInSequence(c: Config, run: seq<State>, i: nat, place: seq<Place>, order: seq<nat>, m: nat)
    returns (place': seq<Place>, order': seq<nat>, m': nat)
    requires c.breaks != Anywhere && IsRun(c, run) && i + 1 < |run|
    requires Agrees(c, run[i], place, order) && InSequence(c, run[i], place, order, m)
    ensures Agrees(c, run[i + 1], place', order') && InSequence(c, run[i + 1], place', order', m')
  {
    var a;
    a, place', order' := NextEntry(c, run, i, place, order);
    AgreeingIsMove(c, run[i], a, place, order, place', order');
    m' := StepInSequence(c, run[i], a, place, order, m, place', order');
  }

  lemma {:induction false} SequenceHolds(c: Config, run: seq<State>, i: nat)
    returns (place: seq<Place>, order: seq<nat>, m: nat)
    requires c.links == 1 && c.breaks != Anywhere && IsRun(c, run) && i < |run|
    ensures Agrees(c, run[i], place, order) && InSequence(c, run[i], place, order, m)
  {
    if i == 0 {
      AgreesInitially(c);
      place, order, m := [], [], 0;
    } else {
      place, order, m := SequenceHolds(c, run, i - 1);
      place, order, m := NextInSequence(c, run, i - 1, place, order, m);
    }
  }

  /** Safety over one link, for streams of any length: the destination receives the first
      blocks of the stream, in order and intact. */
  lemma DeliversAtAnyLength(c: Config, run: seq<State>, i: nat)
    requires c.links == 1 && c.breaks != Anywhere && IsRun(c, run) && i < |run|
    ensures IsInOrder(c, run[i])
  {
    var place, order, m := SequenceHolds(c, run, i);
    BaseHolds(c, run, i);
    OrderDecides(c, run[i], place, order);
  }
}
