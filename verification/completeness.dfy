/** The exact condition under which every run that cannot go on has delivered the stream. */
module Completeness {
  import opened Network
  import opened Protocol
  import opened Runs
  import opened Ledger
  import opened Safety
  import opened Liveness
  import opened Limits

  /** Every run over any stream of this length that cannot go on has delivered it. */
  ghost predicate IsComplete(links: nat, whole: bool, breaks: Breaks, length: nat) {
    forall stream: seq<byte>, run: seq<State> ::
      |stream| == length && IsMaximal(Config(links, stream, whole, breaks), run)
      ==> Last(run).out == Padded(stream)
  }

  ghost predicate IsMaximal(c: Config, run: seq<State>) {
    IsRun(c, run) && Quiescent(c, Last(run))
  }

  /** What a caller can check before the start. */
  predicate IsReliable(links: nat, whole: bool, breaks: Breaks, length: nat) {
    length == 0 || (links >= 1 && whole && breaks == Never && length <= 65_536_000)
  }

  lemma NoStream(stream: seq<byte>)
    ensures Padded(stream) == [] <==> stream == []
  {}

  lemma CompleteWhen(links: nat, whole: bool, breaks: Breaks, length: nat)
    requires IsReliable(links, whole, breaks, length)
    ensures IsComplete(links, whole, breaks, length)
  {
    forall stream: seq<byte>, run: seq<State>
      | |stream| == length && IsMaximal(Config(links, stream, whole, breaks), run)
      ensures Last(run).out == Padded(stream)
    {
      var c := Config(links, stream, whole, breaks);
      if length == 0 {
        StaysSilent(c, run, |run| - 1);
        NoStream(stream);
      } else {
        QuiescentMeansDelivered(c, run);
      }
    }
  }

  /** From any reachable state the system can go on to the end. */
  lemma GoOn(c: Config, s: State) returns (run: seq<State>)
    requires Reachable(c, s)
    ensures IsMaximal(c, run) && s.out <= Last(run).out
  {
    var begun :| IsRun(c, begun) && Last(begun) == s;
    run := RunOn(c, begun);
    assert run[|begun| - 1] == s;
    OutGrows(c, run, |begun| - 1, |run| - 1);
  }

  // ---------------------------------------------------------------- a lost block 0

  lemma LostStays(c: Config, a: Action, place: seq<Place>, order: seq<nat>, place': seq<Place>, order': seq<nat>)
    requires place != [] && place[0].Lost? && Moves(c, a, place, order, place', order')
    ensures place' != [] && place'[0].Lost?
  {
    if a.TxSendZero? || a.RxEnqueue? {
      var idxs := Pending(place, a.l);
      PendingAre(place, a.l, idxs[0]);
      PendingAre(place, a.l, idxs[|idxs| - 1]);
    }
  }

  /** From step `i` on, in which block 0 has been lost, the ledger lists it as lost. */
  lemma {:induction false} StaysLost(c: Config, run: seq<State>, i: nat, j: nat)
    returns (place: seq<Place>, order: seq<nat>)
    requires c.breaks != Anywhere && IsRun(c, run) && i <= j < |run| && IsLostAtOnce(c, run[i])
    ensures Agrees(c, run[j], place, order) && place != [] && place[0].Lost?
  {
    if i == j {
      place, order := Conservation(c, run, i);
      OnlyLost(c, run[i], place, order);
    } else {
      place, order := StaysLost(c, run, i, j - 1);
      place, order := NextLost(c, run, j - 1, place, order);
    }
  }

  lemma NextLost(c: Config, run: seq<State>, j: nat, before: seq<Place>, taken: seq<nat>)
    returns (place: seq<Place>, order: seq<nat>)
    requires c.breaks != Anywhere && IsRun(c, run) && j + 1 < |run|
    requires Agrees(c, run[j], before, taken) && before != [] && before[0].Lost?
    ensures Agrees(c, run[j + 1], place, order) && place != [] && place[0].Lost?
  {
    var a;
    a, place, order := NextEntry(c, run, j, before, taken);
    LostStays(c, a, before, taken, place, order);
  }

  /** One block has been claimed, and it is nowhere. */
  ghost predicate IsLostAtOnce(c: Config, s: State) {
    && s.getInd == 1 && s.queued == multiset{} && s.fwd == Waiting && s.sent == -1
    && forall l :: 0 <= l < |s.links| ==> InTransit(s.links[l]) == []
  }

  lemma NotQueued(stream: seq<byte>, place: seq<Place>, i: nat)
    requires Heap(stream, place) == multiset{} && i < |place|
    ensures place[i] != Queued
  {
    if place[i] == Queued {
      HeapHas(stream, place, i);
    }
  }

  lemma NotOnLink(c: Config, s: State, place: seq<Place>, i: nat)
    requires LinksHold(c, s, place) && i < |place|
    requires forall l :: 0 <= l < |s.links| ==> InTransit(s.links[l]) == []
    ensures !place[i].OnLink?
  {
    if place[i].OnLink? {
      var l := place[i].l;
      assert LinkHolds(c, s.links[l], Pending(place, l));
      PendingAre(place, l, i);
    }
  }

  lemma OnlyLost(c: Config, s: State, place: seq<Place>, order: seq<nat>)
    requires Agrees(c, s, place, order) && IsLostAtOnce(c, s)
    ensures place != [] && place[0].Lost?
  {
    NotOnLink(c, s, place, 0);
    NotQueued(c.stream, place, 0);
    assert IsListed(place, order, 0);
  }

  lemma NothingTaken(c: Config, s: State, place: seq<Place>, order: seq<nat>)
    requires Base(c, s) && Agrees(c, s, place, order) && NumBlocks(c.stream) <= STAMPS
    requires place != [] && place[0].Lost?
    ensures s.out == []
  {
    StampsSuffice(c, s, place, order);
  }

  /** A link that breaks before its first packet loses block 0 for good. */
  lemma BreakLosesAll(c: Config) returns (run: seq<State>)
    requires c.links >= 1 && c.breaks == BetweenPackets && 0 < |c.stream| && NumBlocks(c.stream) <= STAMPS
    ensures IsMaximal(c, run) && Last(run).out == []
  {
    Start(c);
    var s := Load(c, Init(c));
    s := Go(c, s, Claim(0));
    s := Go(c, s, TxSendZero(0));
    assert IsLostAtOnce(c, s);
    var begun :| IsRun(c, begun) && Last(begun) == s;
    run := RunOn(c, begun);
    assert run[|begun| - 1] == s;
    var place, order := StaysLost(c, run, |begun| - 1, |run| - 1);
    BaseHolds(c, run, |run| - 1);
    NothingTaken(c, Last(run), place, order);
  }

  // ---------------------------------------------------------------- the exact condition

  /** Otherwise some run ends with something else. */
  lemma FailsToDeliver(c: Config, length: nat) returns (run: seq<State>)
    requires !IsReliable(c.links, c.whole, c.breaks, length) && c.stream == Marked(length)
    ensures IsMaximal(c, run) && Last(run).out != Padded(c.stream)
  {
    NoStream(c.stream);
    var s: State;
    if c.links == 0 {
      Start(c);
      run := GoOn(c, Init(c));
      StaysSilent(c, run, |run| - 1);
    } else if length > 65_536_000 {
      Start(c);
      run := GoOn(c, Init(c));
      DeliveryCeiling(c, run, |run| - 1);
    } else if !c.whole {
      s := PartialSendFails(c, length);
      run := GoOn(c, s);
    } else if c.breaks == Anywhere {
      s := BreakInsidePacketFails(c, length);
      run := GoOn(c, s);
    } else {
      run := BreakLosesAll(c);
    }
  }

  /** The exact condition for completeness: every run on every stream of a given length that
      cannot go on has delivered the zero-filled stream, if and only if the stream is empty,
      or there is a link, no link ever breaks, the destination takes whole blocks, and the
      stream has at most 65536 blocks. */
  lemma ExactCompleteness(links: nat, whole: bool, breaks: Breaks, length: nat)
    ensures IsComplete(links, whole, breaks, length) <==>
      length == 0 || (links >= 1 && whole && breaks == Never && length <= 65_536_000)
  {
    if IsReliable(links, whole, breaks, length) {
      CompleteWhen(links, whole, breaks, length);
    } else {
      var c := Config(links, Marked(length), whole, breaks);
      var run := FailsToDeliver(c, length);
      assert IsMaximal(Config(links, Marked(length), whole, breaks), run);
    }
  }
}
