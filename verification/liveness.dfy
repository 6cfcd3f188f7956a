/** Completeness: a run without breaks that cannot go on has delivered everything. */
module Liveness {
  import opened Network
  import opened Batch
  import opened Protocol
  import opened Runs
  import opened Ledger
  import opened Safety

  /** Enough stamps, links that stay up, and at least one of them unless there is nothing
      to send. */
  predicate IsHealthy(c: Config) {
    NumBlocks(c.stream) <= STAMPS && c.breaks == Never && (c.links >= 1 || c.stream == [])
  }

  lemma SplitterDone(c: Config, s: State)
    requires SplitterOk(c, s) && Quiescent(c, s)
    ensures s.fin && |s.buffer| == NumBlocks(c.stream)
  {
    assert !Enabled(c, s, SplitRecv(1));
    assert !Enabled(c, s, SplitAppend);
    assert !Enabled(c, s, SplitEof);
    assert !Enabled(c, s, SplitFin);
  }

  lemma LinkDone(c: Config, s: State, l: nat)
    requires Base(c, s) && Quiescent(c, s) && l < |s.links|
    requires s.fin && s.getInd <= |s.buffer|
    ensures s.links[l].tx.Closed? && InTransit(s.links[l]) == []
  {
    var lk := s.links[l];
    assert LinkOk(c, lk, AllClaimed(s));
    assert !Enabled(c, s, Claim(l));
    assert !Enabled(c, s, TxSend(l, 1));
    assert !Enabled(c, s, TxFinish(l));
    assert !Enabled(c, s, RxRecv(l, 1));
    assert !Enabled(c, s, RxEnqueue(l));
    assert |lk.raw| <= PACKET_SIZE ==> !Enabled(c, s, RxEof(l, seq(PACKET_SIZE - |lk.raw|, _ => 0)));
  }

  lemma ForwarderDone(c: Config, s: State)
    requires ForwarderOk(s) && ZeroOk(s) && NoneHalfTaken(c, s) && Quiescent(c, s)
    ensures s.fwd.Waiting? && !IsMinKey(s.queued, s.sent + 1)
  {
    assert !Enabled(c, s, FwdSend(if c.whole then BLOCKSIZE else 1));
    assert !Enabled(c, s, FwdDone);
    NothingToTake(c, s);
  }

  lemma NothingToTake(c: Config, s: State)
    requires s.fwd.Waiting? && ZeroOk(s) && Quiescent(c, s)
    ensures !IsMinKey(s.queued, s.sent + 1)
  {
    if IsMinKey(s.queued, s.sent + 1) {
      var batch := SomethingToTake(c, s);
    }
  }

  lemma SomethingToTake(c: Config, s: State) returns (batch: seq<Item>)
    requires s.fwd.Waiting? && ZeroOk(s) && IsMinKey(s.queued, s.sent + 1)
    ensures Enabled(c, s, Fill(batch))
  {
    var x :| x in s.queued && x.key == s.sent + 1;
    var rest;
    batch, rest := TakeBatchFrom(s.queued, s.sent, if s.sent == -1 && s.zero.Oldest? then s.zero.item else x);
    assert rest == s.queued - multiset(batch);
  }

  /** In a quiescent state every claimed block has reached the heap or the forwarder. */
  lemma AllArrived(c: Config, s: State, place: seq<Place>, order: seq<nat>, i: nat)
    requires c.breaks == Never && Base(c, s) && Agrees(c, s, place, order) && Quiescent(c, s) && i < |place|
    ensures IsBeyondLink(place[i])
  {
    SplitterDone(c, s);
    if place[i].OnLink? {
      var l := place[i].l;
      PendingAre(place, l, i);
      assert LinkHolds(c, s.links[l], Pending(place, l));
      LinkDone(c, s, l);
    }
  }

  /** So the next block, if there is one, heads the heap. */
  lemma NextIsQueued(c: Config, s: State, place: seq<Place>, order: seq<nat>)
    requires SplitterOk(c, s) && Agrees(c, s, place, order) && NumBlocks(c.stream) <= STAMPS
    requires s.fwd.Waiting? && 0 <= s.sent + 1 < |place| && IsBeyondLink(place[s.sent + 1])
    ensures IsMinKey(s.queued, s.sent + 1)
  {
    var i := s.sent + 1;
    StampsSuffice(c, s, place, order);
    HeapHas(c.stream, place, i);
    assert ItemAt(c.stream, i).key == i;
    forall x | x in s.queued
      ensures x.key >= i
    {
      QueuedOnce(c.stream, place, x);
      assert place[x.key] != Taken;
    }
  }

  /** A quiescent state has claimed every block. */
  lemma QuiescentMeansClaimed(c: Config, s: State)
    requires IsHealthy(c) && Base(c, s) && Quiescent(c, s)
    ensures s.getInd == NumBlocks(c.stream)
  {
    SplitterDone(c, s);
    if c.links >= 1 {
      LinkDone(c, s, 0);
      assert LinkOk(c, s.links[0], AllClaimed(s));
    }
  }

  /** A quiescent state has forwarded every block, however the destination takes its bytes;
      if it takes whole blocks, it has received the zero-filled stream. */
  lemma QuiescentMeansDelivered(c: Config, run: seq<State>)
    requires IsHealthy(c) && IsRun(c, run) && Quiescent(c, Last(run))
    ensures Last(run).sent + 1 == NumBlocks(c.stream)
    ensures |Last(run).out| == BLOCKSIZE * NumBlocks(c.stream)
    ensures c.whole ==> Last(run).out == Padded(c.stream)
  {
    var s := Last(run);
    BaseHolds(c, run, |run| - 1);
    var place, order := Conservation(c, run, |run| - 1);
    ForwarderDone(c, s);
    QuiescentMeansClaimed(c, s);
    if s.sent + 1 < |place| {
      AllArrived(c, s, place, order, s.sent + 1);
      NextIsQueued(c, s, place, order);
    }
    DeliversInOrder(c, run, |run| - 1);
    assert Padded(c.stream)[..BLOCKSIZE * NumBlocks(c.stream)] == Padded(c.stream);
  }

  /** Completeness: every run of a healthy system is bounded, and one that cannot go on has
      forwarded every block, a thousand bytes for each, and no block more; to a destination
      that takes whole blocks that is the stream, zero-filled to the next block boundary. */
  lemma EveryMaximalRunDelivers(c: Config, run: seq<State>)
    requires IsHealthy(c) && IsRun(c, run)
    ensures |run| - 1 <= 6 * |c.stream| + 5001 + 2001 * c.links
    ensures Quiescent(c, Last(run)) ==>
      && Last(run).sent + 1 == NumBlocks(c.stream)
      && |Last(run).out| == BLOCKSIZE * NumBlocks(c.stream)
      && (c.whole ==> Last(run).out == Padded(c.stream))
  {
    RunsAreBounded(c, run);
    if Quiescent(c, Last(run)) {
      QuiescentMeansDelivered(c, run);
    }
  }

  /** Every run can be continued until nothing is left to do. */
  lemma {:induction false} RunOn(c: Config, run: seq<State>) returns (full: seq<State>)
    requires IsRun(c, run)
    ensures IsRun(c, full) && run <= full && Quiescent(c, Last(full))
    decreases 6 * |c.stream| + 5002 + 2001 * c.links - |run|
  {
    RunsAreBounded(c, run);
    if Quiescent(c, Last(run)) {
      full := run;
    } else {
      var a :| Enabled(c, Last(run), a);
      PathGrows(c, run, a);
      var longer := run + [Next(c, Last(run), a)];
      RunsAreBounded(c, longer);
      full := RunOn(c, longer);
      assert run <= longer <= full;
    }
  }

  /** Some run delivers the stream completely. */
  ghost predicate CanDeliver(c: Config) {
    exists run :: IsRun(c, run) && Last(run).out == Padded(c.stream)
  }

  /** The exact ceiling: over at least one link, whatever else the environment may do, a
      stream can be delivered completely exactly when it has at most 65536 blocks. */
  lemma CeilingIsExact(c: Config)
    requires c.links >= 1
    ensures CanDeliver(c) <==> |c.stream| <= 65_536_000
  {
    assert |Padded(c.stream)| == BLOCKSIZE * NumBlocks(c.stream);
    if CanDeliver(c) {
      var run :| IsRun(c, run) && Last(run).out == Padded(c.stream);
      DeliveryCeiling(c, run, |run| - 1);
    }
    if NumBlocks(c.stream) <= STAMPS {
      var k := c.(whole := true, breaks := Never);
      assert IsRun(k, [Init(k)]);
      var run := RunOn(k, [Init(k)]);
      QuiescentMeansDelivered(k, run);
      RelaxedRun(k, c, run);
    }
  }
}
