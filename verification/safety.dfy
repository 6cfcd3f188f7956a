/** Every run without breaks inside packets keeps a ledger: no block is duplicated, swapped or
    damaged, and none is lost but with a broken link. */
module Safety {
  import opened Network
  import opened Batch
  import opened Protocol
  import opened Runs
  import opened Ledger
  import opened LinkBytes
  import Splitter
  import Receptor

  lemma AgreesInitially(c: Config)
    ensures Agrees(c, Init(c), [], [])
  {}

  /** An action that leaves the forwarder alone cannot change what it has taken. */
  lemma ForwarderStays(c: Config, s: State, place: seq<Place>, order: seq<nat>, s': State, place': seq<Place>)
    requires ForwarderHolds(c, s, place, order)
    requires s'.fwd == s.fwd && s'.sent == s.sent && s'.out == s.out
    requires |place| <= |place'| && forall i :: |place| <= i < |place'| ==> place'[i] != Taken
    requires forall i :: 0 <= i < |place| ==> (place'[i] == Taken <==> place[i] == Taken)
    ensures ForwarderHolds(c, s', place', order)
  {
    forall k: nat
      ensures IsTakenAs(place', order, k)
    {
      assert IsTakenAs(place, order, k);
    }
    forall i: nat
      ensures IsListed(place', order, i)
    {
      assert IsListed(place, order, i);
    }
  }

  /** What has arrived stays arrived. */
  lemma AvailStays(avail: int, place: seq<Place>, place': seq<Place>)
    requires AvailHolds(avail, place) && |place| <= |place'|
    requires forall i :: 0 <= i < |place| && IsBeyondLink(place[i]) ==> IsBeyondLink(place'[i])
    ensures AvailHolds(avail, place')
  {
    forall k | 1 <= k <= avail
      ensures HasArrived(place', k)
    {
      assert HasArrived(place, k);
      var i :| 0 <= i < |place| && StampOf(i) == k && IsBeyondLink(place[i]);
      assert IsBeyondLink(place'[i]);
    }
  }

  /** Links that are closed stay closed, and no block is newly lost. */
  ghost predicate NoNewLoss(links: seq<Link>, place: seq<Place>, links': seq<Link>, place': seq<Place>) {
    && |links'| == |links| && (forall l :: 0 <= l < |links| && links[l].tx.Closed? ==> links'[l].tx.Closed?)
    && |place| <= |place'| && forall i :: 0 <= i < |place'| && place'[i].Lost? ==> i < |place| && place[i] == place'[i]
  }

  lemma LossesStay(links: seq<Link>, place: seq<Place>, links': seq<Link>, place': seq<Place>)
    requires LossesHold(links, place) && NoNewLoss(links, place, links', place')
    ensures LossesHold(links', place')
  {
    forall i: nat
      ensures IsOnlyLoss(links', place', i)
    {
      assert IsOnlyLoss(links, place, i);
    }
  }

  /** A link that was up has now lost its first block. */
  lemma LossAdded(links: seq<Link>, place: seq<Place>, links': seq<Link>, l: nat, i: nat)
    requires LossesHold(links, place) && l < |links| && i < |place| && !place[i].Lost?
    requires !links[l].tx.Closed? && |links'| == |links|
    requires links' == links[l := links'[l]] && links'[l].tx.Closed?
    ensures LossesHold(links', place[i := Lost(l)])
  {
    var place' := place[i := Lost(l)];
    forall j: nat
      ensures IsOnlyLoss(links', place', j)
    {
      assert IsOnlyLoss(links, place, j);
      if j == i {
        forall k: nat | k < |place| && place'[k] == Lost(l)
          ensures k == i
        {
          assert IsOnlyLoss(links, place, k);
        }
      }
    }
  }

  // ---------------------------------------------------------------- claims and breaks

  lemma ClaimStep(c: Config, s: State, place: seq<Place>, order: seq<nat>, l: nat) returns (place': seq<Place>)
    requires Base(c, s) && Agrees(c, s, place, order) && Enabled(c, s, Claim(l))
    ensures Agrees(c, Next(c, s, Claim(l)), place', order) && Moves(c, Claim(l), place, order, place', order)
  {
    var s' := Next(c, s, Claim(l));
    place' := place + [OnLink(l)];
    forall m | 0 <= m < |s'.links|
      ensures LinkHolds(c, s'.links[m], Pending(place', m))
    {
      ClaimedLink(c, s, place, l, m);
    }
    assert s'.links == s.links[l := s'.links[l]];
    AfterClaim(c, s, s', place, order, l);
  }

  lemma AfterClaim(c: Config, s: State, s': State, place: seq<Place>, order: seq<nat>, l: nat)
    requires Agrees(c, s, place, order) && l < |s.links| == |s'.links|
    requires s' == s.(getInd := s.getInd + 1, links := s'.links)
    requires s'.links == s.links[l := s'.links[l]] && s.links[l].tx.Idle?
    requires forall m :: 0 <= m < |s'.links| ==> LinkHolds(c, s'.links[m], Pending(place + [OnLink(l)], m))
    ensures Agrees(c, s', place + [OnLink(l)], order)
  {
    var place' := place + [OnLink(l)];
    HeapGrows(c.stream, place, OnLink(l));
    AvailStays(s.availMinSeq, place, place');
    LossesStay(s.links, place, s'.links, place');
    ForwarderStays(c, s, place, order, s', place');
  }

  lemma ClaimedLink(c: Config, s: State, place: seq<Place>, l: nat, m: nat)
    requires SplitterOk(c, s) && |place| == s.getInd && LinksHold(c, s, place)
    requires Enabled(c, s, Claim(l)) && m < |s.links|
    ensures LinkHolds(c, Next(c, s, Claim(l)).links[m], Pending(place + [OnLink(l)], m))
  {
    PendingClaim(place, OnLink(l), m);
    assert Pending(place, m) + [] == Pending(place, m);
    assert LinkHolds(c, s.links[m], Pending(place, m));
    if m == l {
      assert Splitter.StampedAt(s.buffer, s.getInd) == ItemAt(c.stream, s.getInd);
      ClaimedOnLink(c, s.links[l], Pending(place, l), s.getInd);
    }
  }

  /** One block leaves its link for another place; all other links are unaffected. */
  lemma LeaveLink(c: Config, s: State, s': State, place: seq<Place>, l: nat, k: nat, p: Place)
    requires LinksHold(c, s, place) && l < |s.links| && k < |Pending(place, l)|
    requires p == Queued || (p.Lost? && c.breaks != Never)
    requires |s'.links| == |s.links| && s'.links == s.links[l := s'.links[l]]
    requires var idxs := Pending(place, l); LinkHolds(c, s'.links[l], idxs[..k] + idxs[k + 1..])
    ensures LinksHold(c, s', place[Pending(place, l)[k] := p])
  {
    var i := Pending(place, l)[k];
    var place' := place[i := p];
    PendingAre(place, l, i);
    forall m | 0 <= m < |s'.links|
      ensures LinkHolds(c, s'.links[m], Pending(place', m))
    {
      if m == l {
        PendingLeaves(place, l, k, p);
      } else {
        PendingSame(place, place', m);
        assert LinkHolds(c, s.links[m], Pending(place, m));
      }
    }
  }

  /** Block `i` has gone off its link to a place other than the forwarder. */
  lemma Leave(c: Config, s: State, s': State, place: seq<Place>, order: seq<nat>, i: nat, p: Place)
    requires Agrees(c, s, place, order) && i < |place| && place[i].OnLink? && (p == Queued || p.Lost?)
    requires LinksHold(c, s', place[i := p]) && LossesHold(s'.links, place[i := p])
    requires s'.queued == s.queued + Share(c.stream, i, p)
    requires AvailHolds(s'.availMinSeq, place[i := p])
    requires s'.getInd == s.getInd && s'.fwd == s.fwd && s'.sent == s.sent && s'.out == s.out
    ensures Agrees(c, s', place[i := p], order)
  {
    HeapMoves(c.stream, place, i, p);
    ForwarderStays(c, s, place, order, s', place[i := p]);
  }

  /** A link that breaks between two packets loses its last block and no other. */
  lemma BreakStep(c: Config, s: State, place: seq<Place>, order: seq<nat>, l: nat) returns (place': seq<Place>)
    requires c.breaks != Anywhere && Agrees(c, s, place, order) && Enabled(c, s, TxSendZero(l))
    ensures Agrees(c, Next(c, s, TxSendZero(l)), place', order)
    ensures Moves(c, TxSendZero(l), place, order, place', order)
  {
    var idxs := Pending(place, l);
    assert LinkHolds(c, s.links[l], idxs);
    BreakLosesLast(c, s.links[l], idxs);
    place' := place[idxs[|idxs| - 1] := Lost(l)];
    AfterBreak(c, s, Next(c, s, TxSendZero(l)), place, order, l);
  }

  lemma AfterBreak(c: Config, s: State, s': State, place: seq<Place>, order: seq<nat>, l: nat)
    requires c.breaks != Never && Agrees(c, s, place, order)
    requires l < |s.links| && s' == s.(links := s.links[l := s.links[l].(tx := Closed)]) && s.links[l].tx.Sending?
    requires var idxs := Pending(place, l); idxs != [] && LinkHolds(c, s'.links[l], idxs[..|idxs| - 1])
    ensures var idxs := Pending(place, l); Agrees(c, s', place[idxs[|idxs| - 1] := Lost(l)], order)
  {
    var idxs := Pending(place, l);
    var k := |idxs| - 1;
    var i := idxs[k];
    PendingAre(place, l, i);
    assert idxs[..k] + idxs[k + 1..] == idxs[..k];
    LeaveLink(c, s, s', place, l, k, Lost(l));
    LossAdded(s.links, place, s'.links, l, i);
    AvailStays(s.availMinSeq, place, place[i := Lost(l)]);
    Leave(c, s, s', place, order, i, Lost(l));
  }

  // ---------------------------------------------------------------- arrivals

  /** The oldest block of a link leaves it. */
  lemma FirstLeaves(c: Config, s: State, s': State, place: seq<Place>, l: nat) returns (i: nat)
    requires LinksHold(c, s, place) && l < |s.links| == |s'.links| && s'.links == s.links[l := s'.links[l]]
    requires var idxs := Pending(place, l); idxs != [] && LinkHolds(c, s'.links[l], idxs[1..])
    ensures i < |place| && i == Pending(place, l)[0] && place[i] == OnLink(l)
    ensures LinksHold(c, s', place[i := Queued])
  {
    i := Pending(place, l)[0];
    PendingAre(place, l, i);
    WithoutFirst(Pending(place, l));
    LeaveLink(c, s, s', place, l, 0, Queued);
  }

  lemma WithoutFirst(idxs: seq<nat>)
    requires idxs != []
    ensures idxs[..0] + idxs[1..] == idxs[1..]
  {}

  lemma AvailAfterArrival(avail: int, place: seq<Place>, i: nat)
    requires AvailHolds(avail, place) && i < |place|
    ensures AvailHolds(Receptor.NextAvail(avail, StampOf(i)), place[i := Queued])
  {
    AvailStays(avail, place, place[i := Queued]);
    assert IsBeyondLink(place[i := Queued][i]);
  }

  /** What is queued is the oldest block that the link owes. */
  lemma EnqueueStep(c: Config, s: State, place: seq<Place>, order: seq<nat>, l: nat) returns (place': seq<Place>)
    requires Agrees(c, s, place, order) && Enabled(c, s, RxEnqueue(l))
    ensures Agrees(c, Next(c, s, RxEnqueue(l)), place', order)
    ensures Moves(c, RxEnqueue(l), place, order, place', order)
  {
    var s' := Next(c, s, RxEnqueue(l));
    assert LinkHolds(c, s.links[l], Pending(place, l));
    FullBuffer(c, s.links[l], Pending(place, l));
    var i := FirstLeaves(c, s, s', place, l);
    place' := place[i := Queued];
    LossesStay(s.links, place, s'.links, place');
    AvailAfterArrival(s.availMinSeq, place, i);
    Leave(c, s, s', place, order, i, Queued);
  }

  // ---------------------------------------------------------------- batches

  lemma TakeOne(stream: seq<byte>, place: seq<Place>, order: seq<nat>, x: Item, rest: multiset<Item>)
    returns (i: nat)
    requires OrderHolds(place, order) && Heap(stream, place) == multiset{x} + rest && x.key == |order|
    ensures IsOldest(stream, place, i, x)
    ensures OrderHolds(place[i := Taken], order + [i]) && Heap(stream, place[i := Taken]) == rest
  {
    i := HeapMember(stream, place, x);
    HeapMoves(stream, place, i, Taken);
    Cancel(Heap(stream, place[i := Taken]), multiset{x}, rest);
    OrderGrows(place, order, i);
  }

  lemma Cancel(a: multiset<Item>, x: multiset<Item>, b: multiset<Item>)
    requires a + x == x + b
    ensures a == b
  {
    assert a == a + x - x;
    assert b == x + b - x;
  }

  lemma OrderGrows(place: seq<Place>, order: seq<nat>, i: nat)
    requires OrderHolds(place, order) && i < |place| && place[i] == Queued && StampOf(i) == |order|
    ensures OrderHolds(place[i := Taken], order + [i])
  {
    var place', order' := place[i := Taken], order + [i];
    forall k: nat
      ensures IsTakenAs(place', order', k)
    {
      assert IsTakenAs(place, order, k);
    }
    forall j: nat
      ensures IsListed(place', order', j)
    {
      assert IsListed(place, order, j);
    }
  }

  /** Blocks are taken off the heap one by one, each time the oldest with the wanted item. */
  lemma {:induction false} TakeAll(stream: seq<byte>, place: seq<Place>, order: seq<nat>, batch: seq<Item>,
                                   rest: multiset<Item>)
    returns (place': seq<Place>, order': seq<nat>)
    requires OrderHolds(place, order) && Heap(stream, place) == multiset(batch) + rest
    requires forall j :: 0 <= j < |batch| ==> batch[j].key == |order| + j
    ensures TakesOldest(stream, place, order, batch, place', order')
    ensures OrderHolds(place', order') && Heap(stream, place') == rest
    decreases |batch|
  {
    if batch == [] {
      place', order' := place, order;
    } else {
      assert batch == [batch[0]] + batch[1..];
      assert multiset(batch) + rest == multiset{batch[0]} + (multiset(batch[1..]) + rest);
      var i := TakeOne(stream, place, order, batch[0], multiset(batch[1..]) + rest);
      place', order' := TakeAll(stream, place[i := Taken], order + [i], batch[1..], rest);
      TakeOneMore(stream, place, order, batch, i, place', order');
    }
  }

  lemma TakeOneMore(stream: seq<byte>, place: seq<Place>, order: seq<nat>, batch: seq<Item>, i: nat,
                    place': seq<Place>, order': seq<nat>)
    requires batch != [] && IsOldest(stream, place, i, batch[0])
    requires forall j :: 0 <= j < |batch| ==> batch[j].key == |order| + j
    requires TakesOldest(stream, place[i := Taken], order + [i], batch[1..], place', order')
    ensures TakesOldest(stream, place, order, batch, place', order')
  {
    forall j | 0 <= j < |batch|
      ensures IsOldest(stream, place, order'[|order| + j], batch[j])
    {
      if j > 0 {
        assert batch[1..][j - 1] == batch[j] && |order + [i]| + (j - 1) == |order| + j;
        assert IsOldest(stream, place[i := Taken], order'[|order| + j], batch[j]);
      }
    }
  }

  lemma LinksAfterFill(c: Config, s: State, s': State, place: seq<Place>, place': seq<Place>)
    requires LinksHold(c, s, place) && s'.links == s.links && |place'| == |place|
    requires forall i :: 0 <= i < |place| ==> place'[i] == place[i] || (place[i] == Queued && place'[i] == Taken)
    ensures LinksHold(c, s', place')
  {
    forall l | 0 <= l < |s.links|
      ensures LinkHolds(c, s.links[l], Pending(place', l))
    {
      PendingSame(place, place', l);
      assert LinkHolds(c, s.links[l], Pending(place, l));
    }
  }

  /** Blocks just taken have produced no output yet. */
  lemma OutAfterFill(c: Config, out: seq<byte>, order: seq<nat>, order': seq<nat>)
    requires OutHolds(c, out, order) && order <= order' && |out| <= BLOCKSIZE * |order|
    ensures OutHolds(c, out, order')
  {
    forall k | 0 <= k < |order'|
      ensures SlotHolds(c, out, k, order'[k])
    {
      if k < |order| {
        assert SlotHolds(c, out, k, order[k]);
      }
    }
  }

  lemma FillStep(c: Config, s: State, place: seq<Place>, order: seq<nat>, batch: seq<Item>)
    returns (place': seq<Place>, order': seq<nat>)
    requires Base(c, s) && Agrees(c, s, place, order) && Enabled(c, s, Fill(batch))
    ensures Agrees(c, Next(c, s, Fill(batch)), place', order')
    ensures Moves(c, Fill(batch), place, order, place', order')
  {
    var rest := s.queued - multiset(batch);
    place', order' := TakeAll(c.stream, place, order, batch, rest);
    AfterFill(c, s, place, order, batch, rest, place', order');
  }

  lemma BatchTaken(c: Config, place: seq<Place>, order: seq<nat>, batch: seq<Item>,
                   place': seq<Place>, order': seq<nat>)
    requires TakesOldest(c.stream, place, order, batch, place', order')
    ensures BatchHolds(c, batch, order')
  {
    forall j | 0 <= j < |batch|
      ensures batch[j] == ItemAt(c.stream, order'[|order'| - |batch| + j])
    {
      assert IsOldest(c.stream, place, order'[|order| + j], batch[j]);
    }
  }

  lemma AfterFill(c: Config, s: State, place: seq<Place>, order: seq<nat>, batch: seq<Item>, rest: multiset<Item>,
                  place': seq<Place>, order': seq<nat>)
    requires Agrees(c, s, place, order) && s.fwd.Waiting? && |s.out| == BLOCKSIZE * (s.sent + 1)
    requires TakesOldest(c.stream, place, order, batch, place', order')
    requires OrderHolds(place', order') && Heap(c.stream, place') == rest
    ensures Agrees(c, s.(queued := rest, fwd := Forwarding(batch, 0, 0)), place', order')
  {
    var s' := s.(queued := rest, fwd := Forwarding(batch, 0, 0));
    LinksAfterFill(c, s, s', place, place');
    LossesStay(s.links, place, s'.links, place');
    AvailStays(s.availMinSeq, place, place');
    OutAfterFill(c, s.out, order, order');
    BatchTaken(c, place, order, batch, place', order');
  }

  // ---------------------------------------------------------------- output

  lemma MadeOfMore(w: seq<byte>, b: Block, k: nat)
    requires IsMadeOf(w, b) && k <= BLOCKSIZE
    ensures IsMadeOf(w + b[..k], b)
  {
    var w' := w + b[..k];
    if k == 0 {
      assert w' == w;
    } else {
      assert w'[|w'| - k..] == b[..k] && w'[..|w'| - k] == w;
    }
  }

  lemma SlotGrows(out: seq<byte>, w: seq<byte>, m: nat, k: nat)
    requires BLOCKSIZE * m <= |out| && |out| + |w| <= BLOCKSIZE * (m + 1)
    ensures Slot(out + w, k) == if k == m then Slot(out, k) + w else Slot(out, k)
  {}

  lemma ForwardStep(c: Config, s: State, place: seq<Place>, order: seq<nat>, k: nat)
    requires Base(c, s) && Agrees(c, s, place, order) && Enabled(c, s, FwdSend(k))
    ensures Agrees(c, Next(c, s, FwdSend(k)), place, order)
  {
    SentIs(c, s, k);
    AfterSend(c, s, Next(c, s, FwdSend(k)), place, order, k);
  }

  lemma SentIs(c: Config, s: State, k: nat)
    requires ForwarderOk(s) && Enabled(c, s, FwdSend(k))
    ensures var s' := Next(c, s, FwdSend(k)); IsSent(s, s', k)
    ensures BLOCKSIZE * (s.sent + 1) <= |s.out| && |s.out| + k <= BLOCKSIZE * (s.sent + 2)
    ensures c.whole ==> k == BLOCKSIZE
  {}

  /** The current block's first `k` bytes have been sent. */
  ghost predicate IsSent(s: State, s': State, k: nat) {
    && s.fwd.Forwarding? && s'.fwd.Forwarding? && s'.fwd.batch == s.fwd.batch
    && s.fwd.count < |s.fwd.batch| && k <= BLOCKSIZE
    && s'.sent - s'.fwd.count == s.sent - s.fwd.count
    && s' == s.(out := s.out + s.fwd.batch[s.fwd.count].payload[..k], sent := s'.sent, fwd := s'.fwd)
  }

  lemma AfterSend(c: Config, s: State, s': State, place: seq<Place>, order: seq<nat>, k: nat)
    requires Agrees(c, s, place, order) && ForwarderOk(s) && IsSent(s, s', k)
    requires BLOCKSIZE * (s.sent + 1) <= |s.out| && |s.out| + k <= BLOCKSIZE * (s.sent + 2)
    requires c.whole ==> k == BLOCKSIZE
    ensures Agrees(c, s', place, order)
  {
    var b := NextToSend(c, s, place, order);
    OutAfterSend(c, s.out, order, s.sent + 1, b, k);
  }

  lemma NextToSend(c: Config, s: State, place: seq<Place>, order: seq<nat>) returns (b: Block)
    requires ForwarderOk(s) && ForwarderHolds(c, s, place, order)
    requires s.fwd.Forwarding? && s.fwd.count < |s.fwd.batch|
    ensures 0 <= s.sent + 1 < |order|
    ensures b == s.fwd.batch[s.fwd.count].payload == BlockAt(c.stream, order[s.sent + 1])
  {
    var f := s.fwd;
    b := f.batch[f.count].payload;
    assert |order| - |f.batch| + f.count == s.sent + 1;
  }

  lemma OutAfterSend(c: Config, out: seq<byte>, order: seq<nat>, m: nat, b: Block, k: nat)
    requires OutHolds(c, out, order) && m < |order| && b == BlockAt(c.stream, order[m])
    requires BLOCKSIZE * m <= |out| && |out| + k <= BLOCKSIZE * (m + 1) && (c.whole ==> k == BLOCKSIZE)
    ensures OutHolds(c, out + b[..k], order)
  {
    forall j | 0 <= j < |order|
      ensures SlotHolds(c, out + b[..k], j, order[j])
    {
      SlotGrows(out, b[..k], m, j);
      assert SlotHolds(c, out, j, order[j]);
      if j == m {
        MadeOfMore(Slot(out, m), b, k);
        assert c.whole ==> Slot(out, m) == [] && b[..k] == b;
      }
    }
  }

  // ---------------------------------------------------------------- everything else

  /** Bytes that move along a link, but not into or out of it, change nothing. */
  lemma SameTransit(c: Config, s: State, s': State, place: seq<Place>, l: nat)
    requires LinksHold(c, s, place) && l < |s.links| == |s'.links| && s'.links == s.links[l := s'.links[l]]
    requires InTransit(s'.links[l]) == InTransit(s.links[l])
    ensures LinksHold(c, s', place)
  {
    forall m | 0 <= m < |s'.links|
      ensures LinkHolds(c, s'.links[m], Pending(place, m))
    {
      assert LinkHolds(c, s.links[m], Pending(place, m));
    }
  }

  /** Only link `l` has changed, and not in what is on its way through it. */
  ghost predicate IsTransit(s: State, s': State, l: nat) {
    && s' == s.(links := s'.links)
    && l < |s.links| == |s'.links| && s'.links == s.links[l := s'.links[l]]
    && InTransit(s'.links[l]) == InTransit(s.links[l])
    && (s.links[l].tx.Closed? ==> s'.links[l].tx.Closed?)
  }

  lemma StillTransit(c: Config, s: State, s': State, place: seq<Place>, order: seq<nat>, l: nat)
    requires Agrees(c, s, place, order) && IsTransit(s, s', l)
    ensures Agrees(c, s', place, order)
  {
    SameTransit(c, s, s', place, l);
    LossesStay(s.links, place, s'.links, place);
  }

  lemma SendInTransit(c: Config, s: State, l: nat, k: nat)
    requires Enabled(c, s, TxSend(l, k))
    ensures IsTransit(s, Next(c, s, TxSend(l, k)), l)
  {
    var lk := s.links[l];
    var m := lk.tx.sentCount + k;
    var tx := if m < PACKET_SIZE then lk.tx.(sentCount := m) else Idle;
    var lk' := lk.(tx := tx, wire := lk.wire + lk.tx.packet[lk.tx.sentCount..m]);
    SendMoves(lk, k);
    assert Next(c, s, TxSend(l, k)) == s.(links := s.links[l := lk']);
  }

  lemma RecvInTransit(c: Config, s: State, l: nat, k: nat)
    requires Enabled(c, s, RxRecv(l, k))
    ensures IsTransit(s, Next(c, s, RxRecv(l, k)), l)
  {
    RecvMoves(s.links[l], k);
  }

  lemma SendStep(c: Config, s: State, place: seq<Place>, order: seq<nat>, l: nat, k: nat)
    requires Agrees(c, s, place, order) && Enabled(c, s, TxSend(l, k))
    ensures Agrees(c, Next(c, s, TxSend(l, k)), place, order)
  {
    SendInTransit(c, s, l, k);
    StillTransit(c, s, Next(c, s, TxSend(l, k)), place, order, l);
  }

  lemma RecvStep(c: Config, s: State, place: seq<Place>, order: seq<nat>, l: nat, k: nat)
    requires Agrees(c, s, place, order) && Enabled(c, s, RxRecv(l, k))
    ensures Agrees(c, Next(c, s, RxRecv(l, k)), place, order)
  {
    RecvInTransit(c, s, l, k);
    StillTransit(c, s, Next(c, s, RxRecv(l, k)), place, order, l);
  }

  lemma FinishStep(c: Config, s: State, place: seq<Place>, order: seq<nat>, l: nat)
    requires Agrees(c, s, place, order) && Enabled(c, s, TxFinish(l))
    ensures Agrees(c, Next(c, s, TxFinish(l)), place, order)
  {
    StillTransit(c, s, Next(c, s, TxFinish(l)), place, order, l);
  }

  lemma EndStep(c: Config, s: State, place: seq<Place>, order: seq<nat>, l: nat, junk: seq<byte>)
    requires Agrees(c, s, place, order) && Enabled(c, s, RxEof(l, junk))
    ensures s.links[l].raw == [] && Agrees(c, Next(c, s, RxEof(l, junk)), place, order)
  {
    assert LinkHolds(c, s.links[l], Pending(place, l));
    NothingTruncated(c, s.links[l], Pending(place, l));
    StillTransit(c, s, Next(c, s, RxEof(l, junk)), place, order, l);
  }

  lemma OuterStep(c: Config, s: State, place: seq<Place>, order: seq<nat>, a: Action)
    requires Agrees(c, s, place, order) && Enabled(c, s, a) && (IsSplitterAction(a) || a.FwdDone?)
    ensures Agrees(c, Next(c, s, a), place, order)
  {
    assert LinksHold(c, Next(c, s, a), place);
  }

  /** The actions that move no block from one place to another. */
  predicate IsStill(a: Action) {
    !a.Claim? && !a.TxSendZero? && !a.RxEnqueue? && !a.Fill?
  }

  lemma StillStep(c: Config, s: State, a: Action, place: seq<Place>, order: seq<nat>)
    requires Base(c, s) && Agrees(c, s, place, order) && Enabled(c, s, a) && IsStill(a)
    ensures Agrees(c, Next(c, s, a), place, order) && Moves(c, a, place, order, place, order)
  {
    match a {
      case TxSend(l, k) => SendStep(c, s, place, order, l, k);
      case TxFinish(l) => FinishStep(c, s, place, order, l);
      case RxRecv(l, k) => RecvStep(c, s, place, order, l, k);
      case RxEof(l, junk) => EndStep(c, s, place, order, l, junk);
      case FwdSend(k) => ForwardStep(c, s, place, order, k);
      case _ => OuterStep(c, s, place, order, a);
    }
  }

  /** Every action keeps the ledger, and moves in it only what the action moves. */
  lemma AgreesStep(c: Config, s: State, a: Action, place: seq<Place>, order: seq<nat>)
    returns (place': seq<Place>, order': seq<nat>)
    requires c.breaks != Anywhere && Base(c, s) && Agrees(c, s, place, order) && Enabled(c, s, a)
    ensures Agrees(c, Next(c, s, a), place', order') && Moves(c, a, place, order, place', order')
  {
    place', order' := place, order;
    match a {
      case Claim(l) => place' := ClaimStep(c, s, place, order, l);
      case TxSendZero(l) => place' := BreakStep(c, s, place, order, l);
      case RxEnqueue(l) => place' := EnqueueStep(c, s, place, order, l);
      case Fill(batch) => place', order' := FillStep(c, s, place, order, batch);
      case _ => StillStep(c, s, a, place, order);
    }
  }

  /** The ledger after one more step of a run. */
  lemma NextEntry(c: Config, run: seq<State>, i: nat, place: seq<Place>, order: seq<nat>)
    returns (a: Action, place': seq<Place>, order': seq<nat>)
    requires c.breaks != Anywhere && IsRun(c, run) && i + 1 < |run| && Agrees(c, run[i], place, order)
    ensures Enabled(c, run[i], a) && run[i + 1] == Next(c, run[i], a)
    ensures Agrees(c, run[i + 1], place', order') && Moves(c, a, place, order, place', order')
  {
    BaseHolds(c, run, i);
    assert StepAt(c, run, i);
    a :| Enabled(c, run[i], a) && run[i + 1] == Next(c, run[i], a);
    place', order' := AgreesStep(c, run[i], a, place, order);
  }

  // ---------------------------------------------------------------- whole runs

  /** Conservation: at every moment of every run without breaks inside packets, whatever the
      length of the stream and however the destination takes its bytes, a ledger accounts for
      each claimed block, in exactly one place, byte for byte. */
  lemma {:induction false} Conservation(c: Config, run: seq<State>, i: nat)
    returns (place: seq<Place>, order: seq<nat>)
    requires c.breaks != Anywhere && IsRun(c, run) && i < |run|
    ensures Agrees(c, run[i], place, order)
  {
    if i == 0 {
      AgreesInitially(c);
      place, order := [], [];
    } else {
      var before, taken := Conservation(c, run, i - 1);
      var a;
      a, place, order := NextEntry(c, run, i - 1, before, taken);
    }
  }

  /** So at any length no block is forwarded twice: the k-th block that the destination is
      offered is a claimed one whose number is k modulo 65536, no two of them are the same,
      and the k-th thousand bytes of the output come from that block alone. */
  lemma ForwardsEachOnce(c: Config, run: seq<State>, i: nat) returns (order: seq<nat>)
    requires c.breaks != Anywhere && IsRun(c, run) && i < |run|
    ensures run[i].sent < |order| && |run[i].out| <= BLOCKSIZE * |order|
    ensures forall k :: 0 <= k < |order| ==> order[k] < run[i].getInd && order[k] % 65_536 == k
    ensures forall j, k :: 0 <= j < k < |order| ==> order[j] != order[k]
    ensures OutHolds(c, run[i].out, order)
  {
    var place;
    place, order := Conservation(c, run, i);
    BaseHolds(c, run, i);
    forall k: nat | k < |order|
      ensures order[k] < run[i].getInd && order[k] % 65_536 == k
    {
      assert IsTakenAs(place, order, k);
    }
  }

  ghost function LostBlocks(place: seq<Place>): set<nat> {
    set i: nat | i < |place| && place[i].Lost?
  }

  ghost function ClosedLinks(links: seq<Link>): set<nat> {
    set l: nat | l < |links| && links[l].tx.Closed?
  }

  lemma {:induction false} OneLossEach(place: seq<Place>, lost: set<nat>, closed: set<nat>)
    requires forall i :: i in lost ==> i < |place| && place[i].Lost? && place[i].l in closed
    requires forall i, j :: i in lost && j in lost && place[i] == place[j] ==> i == j
    ensures |lost| <= |closed|
    decreases |lost|
  {
    if lost != {} {
      var i :| i in lost;
      OneLossEach(place, lost - {i}, closed - {place[i].l});
    }
  }

  /** No more blocks are lost than links have closed. */
  lemma LossIsBounded(c: Config, run: seq<State>, i: nat) returns (place: seq<Place>, order: seq<nat>)
    requires c.breaks != Anywhere && IsRun(c, run) && i < |run|
    ensures Agrees(c, run[i], place, order)
    ensures |LostBlocks(place)| <= |ClosedLinks(run[i].links)|
  {
    place, order := Conservation(c, run, i);
    var links := run[i].links;
    forall i | i in LostBlocks(place)
      ensures place[i].l in ClosedLinks(links)
      ensures forall j :: j in LostBlocks(place) && place[j] == place[i] ==> j == i
    {
      assert IsOnlyLoss(links, place, i);
    }
    OneLossEach(place, LostBlocks(place), ClosedLinks(links));
  }

  // ---------------------------------------------------------------- streams that fit

  /** What the destination has received when the blocks come in order. */
  lemma {:induction false} InOrderOutput(c: Config, out: seq<byte>, order: seq<nat>, n: nat)
    requires c.whole && OutHolds(c, out, order) && n <= |order| && BLOCKSIZE * n <= |out|
    requires |order| <= NumBlocks(c.stream) && forall k :: 0 <= k < |order| ==> order[k] == k
    ensures BLOCKSIZE * n <= |Padded(c.stream)| && out[..BLOCKSIZE * n] == Padded(c.stream)[..BLOCKSIZE * n]
  {
    if n > 0 {
      InOrderOutput(c, out, order, n - 1);
      assert order[n - 1] == n - 1;
      PaddedBlock(c.stream, n - 1);
      assert SlotHolds(c, out, n - 1, order[n - 1]);
      assert out[..BLOCKSIZE * n] == out[..BLOCKSIZE * (n - 1)] + Slot(out, n - 1);
    }
  }

  /** The destination has received the first sent + 1 blocks of the stream, in order; each
      block's thousand bytes come from that block alone, and if the destination takes whole
      blocks they are that block. */
  ghost predicate IsInOrder(c: Config, s: State) {
    && s.sent < NumBlocks(c.stream)
    && (forall k {:trigger SlotHolds(c, s.out, k, k)} :: 0 <= k <= s.sent ==> SlotHolds(c, s.out, k, k))
    && (c.whole ==>
      && 0 <= BLOCKSIZE * (s.sent + 1) <= |Padded(c.stream)|
      && s.out == Padded(c.stream)[..BLOCKSIZE * (s.sent + 1)])
  }

  lemma OrderDecides(c: Config, s: State, place: seq<Place>, order: seq<nat>)
    requires Base(c, s) && Agrees(c, s, place, order) && forall k :: 0 <= k < |order| ==> order[k] == k
    ensures IsInOrder(c, s)
  {
    if order != [] {
      assert IsTakenAs(place, order, |order| - 1);
    }
    forall k | 0 <= k <= s.sent
      ensures SlotHolds(c, s.out, k, k)
    {
      assert order[k] == k && SlotHolds(c, s.out, k, order[k]);
    }
    if c.whole {
      InOrderOutput(c, s.out, order, s.sent + 1);
    }
  }

  /** With no stamp given out twice, a block's stamp is its number. */
  lemma StampsSuffice(c: Config, s: State, place: seq<Place>, order: seq<nat>)
    requires SplitterOk(c, s) && |place| == s.getInd && OrderHolds(place, order)
    requires NumBlocks(c.stream) <= STAMPS
    ensures |place| <= NumBlocks(c.stream) && |order| <= |place|
    ensures forall k :: 0 <= k < |order| ==> order[k] == k
    ensures forall i :: 0 <= i < |place| ==> (place[i] == Taken <==> i < |order|)
  {
    forall k: nat | k < |order|
      ensures order[k] == k && k < |place| && place[k] == Taken
    {
      assert IsTakenAs(place, order, k);
    }
    forall i: nat | i < |place| && place[i] == Taken
      ensures i < |order|
    {
      assert IsListed(place, order, i);
    }
    assert order != [] ==> order[|order| - 1] == |order| - 1;
  }

  /** Safety: as long as the stamps suffice, in every state of every run the destination has
      received exactly the first blocks of the stream, in order and intact. */
  lemma DeliversInOrder(c: Config, run: seq<State>, i: nat)
    requires c.breaks != Anywhere && NumBlocks(c.stream) <= STAMPS && IsRun(c, run) && i < |run|
    ensures IsInOrder(c, run[i])
  {
    var place, order := Conservation(c, run, i);
    BaseHolds(c, run, i);
    StampsSuffice(c, run[i], place, order);
    OrderDecides(c, run[i], place, order);
  }

  /** No receiver ever queues a packet that is only partly received. */
  lemma NeverTruncated(c: Config, run: seq<State>, i: nat, l: nat, junk: seq<byte>)
    requires c.breaks != Anywhere && IsRun(c, run) && i < |run| && Enabled(c, run[i], RxEof(l, junk))
    ensures run[i].links[l].raw == []
  {
    var place, order := Conservation(c, run, i);
    assert LinkHolds(c, run[i].links[l], Pending(place, l));
    NothingTruncated(c, run[i].links[l], Pending(place, l));
  }

  /** While the stamps suffice, no item is queued twice. */
  lemma {:induction false} QueuedOnce(stream: seq<byte>, place: seq<Place>, x: Item)
    requires |place| <= STAMPS
    ensures Heap(stream, place)[x] <= 1
    ensures x in Heap(stream, place) ==> x.key < |place| && place[x.key] == Queued && x == ItemAt(stream, x.key)
  {
    if place != [] {
      var n := |place| - 1;
      QueuedOnce(stream, place[..n], x);
      assert StampOf(n) == n;
    }
  }

  /** Between two batches the heap holds no key twice and none that has been forwarded, so the
      next batch is the longest run of queued blocks (BatchIsLongestRun). */
  lemma QueueIsFresh(c: Config, run: seq<State>, i: nat)
    requires c.breaks != Anywhere && NumBlocks(c.stream) <= STAMPS
    requires IsRun(c, run) && i < |run| && run[i].fwd.Waiting?
    ensures IsFresh(run[i].queued, run[i].sent)
  {
    var s := run[i];
    var place, order := Conservation(c, run, i);
    BaseHolds(c, run, i);
    StampsSuffice(c, s, place, order);
    forall x | x in s.queued
      ensures s.queued[x] == 1 && x.key > s.sent && x == ItemAt(c.stream, x.key)
    {
      QueuedOnce(c.stream, place, x);
      assert place[x.key] != Taken;
    }
    forall x, y | x in s.queued && y in s.queued && x.key == y.key
      ensures x == y
    {
      assert x == ItemAt(c.stream, x.key) && y == ItemAt(c.stream, y.key);
    }
  }
}
