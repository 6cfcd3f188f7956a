/** Where the promise ends: runs in which the destination receives something else, and the
    exact condition under which there are none. */
module Limits {
  import opened Network
  import opened Batch
  import opened Protocol
  import opened Runs
  import opened Safety
  import OneLink
  import Splitter

  lemma Start(c: Config)
    ensures Reachable(c, Init(c))
  {
    assert IsRun(c, [Init(c)]);
  }

  lemma Go(c: Config, s: State, a: Action) returns (s': State)
    requires Reachable(c, s) && Enabled(c, s, a)
    ensures s' == Next(c, s, a) && Reachable(c, s')
  {
    var run :| IsRun(c, run) && Last(run) == s;
    s' := Next(c, s, a);
    PathGrows(c, run, a);
    assert Last(run + [s']) == s';
  }

  lemma ReachableIsBase(c: Config, s: State)
    requires Reachable(c, s)
    ensures Base(c, s)
  {
    var run :| IsRun(c, run) && Last(run) == s;
    BaseHolds(c, run, |run| - 1);
  }

  /** The splitter reads and appends one more block. */
  lemma Load(c: Config, s: State) returns (s': State)
    requires Reachable(c, s) && !s.eof && s.raw == [] && s.taken < |c.stream|
    ensures Reachable(c, s')
    ensures var n := |s.buffer|;
      s' == s.(taken := s'.taken, eof := s'.eof, buffer := s.buffer + [BlockAt(c.stream, n)])
      && (BLOCKSIZE * (n + 1) <= |c.stream| ==> !s'.eof && s'.taken == BLOCKSIZE * (n + 1))
  {
    ReachableIsBase(c, s);
    var left := |c.stream| - s.taken;
    var k := if left < BLOCKSIZE then left else BLOCKSIZE;
    s' := Go(c, s, SplitRecv(k));
    ReachableIsBase(c, s');
    AppendKeepsBlocks(c, s', s'.taken);
    s' := Go(c, s', if k == BLOCKSIZE then SplitAppend else SplitEof);
  }

  const FRESH: Link := Link(Idle, [], [], true)

  /** An idle link's worker claims the next block and sends it. */
  lemma Send(c: Config, s: State, l: nat) returns (s': State)
    requires Reachable(c, s) && l < |s.links| && s.links[l] == FRESH && s.getInd < |s.buffer|
    ensures Reachable(c, s')
    ensures var p := Frame(HOST, Splitter.StampedAt(s.buffer, s.getInd));
      s' == s.(getInd := s.getInd + 1, links := s.links[l := FRESH.(wire := p)])
  {
    var p := Frame(HOST, Splitter.StampedAt(s.buffer, s.getInd));
    s' := Go(c, s, Claim(l));
    assert s'.links[l] == FRESH.(tx := Sending(p, 0));
    s' := Go(c, s', TxSend(l, PACKET_SIZE));
    assert p[0..PACKET_SIZE] == p && s'.links[l] == FRESH.(wire := p);
  }

  /** An idle link carries the next block from the splitter's buffer to the heap. */
  lemma Carry(c: Config, s: State, l: nat) returns (s': State)
    requires Reachable(c, s) && l < |s.links| && s.links[l] == FRESH && s.getInd < |s.buffer|
    ensures Reachable(c, s')
    ensures s' == s.(getInd := s.getInd + 1, availMinSeq := s'.availMinSeq, zero := s'.zero,
      queued := s.queued + multiset{Splitter.StampedAt(s.buffer, s.getInd)})
  {
    var it := Splitter.StampedAt(s.buffer, s.getInd);
    var p := Frame(HOST, it);
    s' := Send(c, s, l);
    s' := Go(c, s', RxRecv(l, PACKET_SIZE));
    assert p[..PACKET_SIZE] == p && p[PACKET_SIZE..] == [] && s'.links[l] == FRESH.(raw := p);
    s' := Go(c, s', RxEnqueue(l));
    UnframeFrame(HOST, HOST, it);
    assert s'.links == s.links;
  }

  /** The forwarder takes a batch that starts with the only item of the smallest key. */
  lemma Take(c: Config, s: State, x: Item) returns (s': State, batch: seq<Item>)
    requires Reachable(c, s) && s.fwd.Waiting? && x in s.queued && x.key == s.sent + 1
    requires forall y :: y in s.queued ==> y == x || y.key > x.key
    ensures Reachable(c, s') && batch != [] && batch[0] == x
    ensures s'.fwd == Forwarding(batch, 0, 0) && s'.sent == s.sent && s'.out == s.out
  {
    ReachableIsBase(c, s);
    var rest;
    batch, rest := TakeBatchFrom(s.queued, s.sent, x);
    assert rest == s.queued - multiset(batch);
    assert s.sent == -1 && s.zero.Oldest? ==> s.zero.item in s.queued && s.zero.item.key == 0;
    s' := Go(c, s, Fill(batch));
  }

  // ---------------------------------------------------------------- three ways to fail

  /** A one followed by zeros. */
  function Marked(length: nat): (stream: seq<byte>)
    requires length >= 1
    ensures |stream| == length && stream[0] == 1 && forall i :: 1 <= i < length ==> stream[i] == 0
  {
    [1] + seq(length - 1, _ => 0)
  }

  lemma MarkedPadded(length: nat)
    requires length >= 1
    ensures var p := Padded(Marked(length)); |p| >= BLOCKSIZE && p[0] == 1 && forall i :: 1 <= i < |p| ==> p[i] == 0
  {}

  /** Unless the destination takes whole blocks, a partly taken block starts over. */
  lemma PartialSendFails(c: Config, length: nat) returns (s: State)
    requires c.links >= 1 && !c.whole && length >= 1 && c.stream == Marked(length)
    ensures Reachable(c, s) && !IsFaithful(c, s)
  {
    Start(c);
    s := Load(c, Init(c));
    s := Carry(c, s, 0);
    var batch;
    s, batch := Take(c, s, Splitter.StampedAt([BlockAt(c.stream, 0)], 0));
    s := Go(c, s, FwdSend(1));
    s := Go(c, s, FwdSend(1));
    MarkedPadded(length);
    assert s.out[1] == 1;
  }

  /** A link breaks after the header of its packet: only the header arrives. */
  lemma BreakAfterHeader(c: Config, s: State) returns (s': State)
    requires Reachable(c, s) && c.breaks == Anywhere
    requires s.links != [] && s.links[0] == FRESH && s.getInd < |s.buffer|
    ensures Reachable(c, s')
    ensures var p := Frame(HOST, Splitter.StampedAt(s.buffer, s.getInd));
      s' == s.(getInd := s.getInd + 1, links := s.links[0 := Link(Closed, [], p[..HEADER_SIZE], true)])
  {
    var p := Frame(HOST, Splitter.StampedAt(s.buffer, s.getInd));
    s' := Go(c, s, Claim(0));
    s' := Go(c, s', TxSend(0, HEADER_SIZE));
    assert s'.links[0] == Link(Sending(p, HEADER_SIZE), p[..HEADER_SIZE], [], true);
    s' := Go(c, s', TxSendZero(0));
    s' := Go(c, s', RxRecv(0, HEADER_SIZE));
    assert s'.links[0] == Link(Closed, [], p[..HEADER_SIZE], true);
  }

  /** When a link may break inside a packet, the receiver queues the truncated packet,
      filled up with whatever its buffer held. */
  lemma BreakInsidePacketFails(c: Config, length: nat) returns (s: State)
    requires c.links >= 1 && c.breaks == Anywhere && length >= 1 && c.stream == Marked(length)
    ensures Reachable(c, s) && !IsFaithful(c, s)
  {
    Start(c);
    s := Load(c, Init(c));
    var p := Frame(HOST, Splitter.StampedAt(s.buffer, 0));
    s := BreakAfterHeader(c, s);
    var junk: Block := seq(BLOCKSIZE, _ => 7);
    var q := p[..HEADER_SIZE] + junk;
    assert q[HEADER_SIZE..] == junk && Unframe(HOST, q) == Item(0, junk);
    s := Go(c, s, RxEof(0, junk));
    var batch;
    s, batch := Take(c, s, Item(0, junk));
    s := Go(c, s, FwdSend(BLOCKSIZE));
    MarkedPadded(length);
    assert s.out[0] == 7;
  }

  /** One link holds on to block 0 while another has carried the blocks up to `k`. */
  ghost predicate IsHeldUp(c: Config, s: State, k: nat) {
    && !s.eof && s.raw == [] && s.taken == BLOCKSIZE * k <= |c.stream| && |s.buffer| == s.getInd == k
    && |s.links| >= 2 && s.links[1] == FRESH
    && s.fwd == Waiting && s.sent == -1 && s.out == []
    && forall x :: x in s.queued ==> x.key >= 1
  }

  lemma {:induction false} HoldUp(c: Config, k: nat) returns (s: State)
    requires c.links >= 2 && 1 <= k <= STAMPS && BLOCKSIZE * k <= |c.stream|
    ensures Reachable(c, s) && IsHeldUp(c, s, k)
  {
    if k == 1 {
      Start(c);
      s := Load(c, Init(c));
      s := Go(c, s, Claim(0));
    } else {
      s := HoldUp(c, k - 1);
      s := Load(c, s);
      s := Carry(c, s, 1);
    }
  }

  /** With more than 65536 blocks, block 65536 gets the stamp of block 0 and can pass it. */
  lemma WrapAroundFails(c: Config, length: nat) returns (s: State)
    requires c.links >= 2 && length > BLOCKSIZE * STAMPS && c.stream == Marked(length)
    ensures Reachable(c, s) && !IsFaithful(c, s)
  {
    s := HoldUp(c, STAMPS);
    s := Load(c, s);
    s := Carry(c, s, 1);
    var b := BlockAt(c.stream, STAMPS);
    assert b[0] == 0;
    var batch;
    s, batch := Take(c, s, Item(0, b));
    s := Go(c, s, FwdSend(BLOCKSIZE));
    MarkedPadded(length);
    assert s.out[0] == 0;
  }

  // ---------------------------------------------------------------- the exact condition

  /** No run over any stream of this length shows the destination anything but the
      beginning of that stream. */
  ghost predicate IsSafe(links: nat, whole: bool, breaks: Breaks, length: nat) {
    forall stream: seq<byte>, s ::
      |stream| == length && Reachable(Config(links, stream, whole, breaks), s)
      ==> IsFaithful(Config(links, stream, whole, breaks), s)
  }

  /** With nothing to send, or no link to send it on, nothing is sent. */
  predicate IsQuiet(lk: Link) {
    !lk.tx.Sending? && lk.wire == [] && lk.raw == []
  }

  ghost predicate IsSilent(s: State) {
    && s.queued == multiset{} && s.fwd == Waiting && s.out == []
    && forall l :: 0 <= l < |s.links| ==> IsQuiet(s.links[l])
  }

  lemma QuietStep(c: Config, s: State, a: Action)
    requires (c.stream == [] && s.buffer == []) || s.links == []
    requires Enabled(c, s, a) && IsLinkAction(a) && a.l < |s.links| && IsQuiet(s.links[a.l])
    ensures var s' := Next(c, s, a);
      |s'.links| == |s.links| && IsQuiet(s'.links[a.l]) && s'.queued == s.queued
  {}

  lemma NoBatch(c: Config, s: State, batch: seq<Item>)
    requires s.queued == multiset{}
    ensures !Enabled(c, s, Fill(batch))
  {
    assert batch != [] ==> batch[0] in multiset(batch);
  }

  lemma NoBlocks(c: Config, s: State)
    requires c.stream == [] && SplitterOk(c, s)
    ensures s.buffer == []
  {}

  lemma SilentLink(c: Config, s: State, a: Action)
    requires (c.stream == [] && s.buffer == []) || s.links == []
    requires IsSilent(s) && Enabled(c, s, a) && IsLinkAction(a)
    ensures IsSilent(Next(c, s, a))
  {
    OtherLinksKept(c, s, a);
    ForwarderKept(c, s, a);
    QuietStep(c, s, a);
  }

  lemma SilentRest(c: Config, s: State, a: Action)
    requires IsSilent(s) && Enabled(c, s, a) && !IsLinkAction(a)
    ensures IsSilent(Next(c, s, a))
  {
    if a.Fill? {
      NoBatch(c, s, a.batch);
    } else if IsSplitterAction(a) {
      OtherLinksKept(c, s, a);
      ForwarderKept(c, s, a);
      HeapKept(c, s, a);
    }
  }

  lemma SilentStep(c: Config, s: State, s': State)
    requires (c.stream == [] || c.links == 0) && Base(c, s) && IsSilent(s) && Step(c, s, s')
    ensures IsSilent(s')
  {
    var a :| Enabled(c, s, a) && s' == Next(c, s, a);
    if c.stream == [] {
      NoBlocks(c, s);
    }
    if IsLinkAction(a) {
      SilentLink(c, s, a);
    } else {
      SilentRest(c, s, a);
    }
  }

  lemma {:induction false} StaysSilent(c: Config, run: seq<State>, i: nat)
    requires (c.stream == [] || c.links == 0) && IsRun(c, run) && i < |run|
    ensures IsSilent(run[i])
  {
    if i > 0 {
      StaysSilent(c, run, i - 1);
      BaseHolds(c, run, i - 1);
      assert StepAt(c, run, i - 1);
      SilentStep(c, run[i - 1], run[i]);
    }
  }

  /** What a caller can check before the start. */
  predicate IsTame(links: nat, whole: bool, breaks: Breaks, length: nat) {
    links == 0 || length == 0 || (whole && breaks != Anywhere && (links == 1 || length <= 65_536_000))
  }

  lemma SafeRun(c: Config, run: seq<State>)
    requires IsTame(c.links, c.whole, c.breaks, |c.stream|) && IsRun(c, run)
    ensures IsFaithful(c, Last(run))
  {
    if c.links == 0 || c.stream == [] {
      StaysSilent(c, run, |run| - 1);
    } else if c.links == 1 {
      OneLink.DeliversAtAnyLength(c, run, |run| - 1);
    } else {
      DeliversInOrder(c, run, |run| - 1);
    }
  }

  lemma SafeWhen(links: nat, whole: bool, breaks: Breaks, length: nat)
    requires IsTame(links, whole, breaks, length)
    ensures IsSafe(links, whole, breaks, length)
  {
    forall stream: seq<byte>, s | |stream| == length && Reachable(Config(links, stream, whole, breaks), s)
      ensures IsFaithful(Config(links, stream, whole, breaks), s)
    {
      var c := Config(links, stream, whole, breaks);
      var run :| IsRun(c, run) && Last(run) == s;
      SafeRun(c, run);
    }
  }

  /** The exact safety condition, for any number of links: every run on every stream of a
      given length is faithful if and only if nothing can be sent at all, or the destination
      takes whole blocks, no link breaks inside a packet, and there is a single link or the
      stream has at most 65536 blocks. */
  lemma ExactSafety(links: nat, whole: bool, breaks: Breaks, length: nat)
    ensures IsSafe(links, whole, breaks, length) <==>
      links == 0 || length == 0 || (whole && breaks != Anywhere && (links == 1 || length <= 65_536_000))
  {
    if IsTame(links, whole, breaks, length) {
      SafeWhen(links, whole, breaks, length);
    } else {
      var c := Config(links, Marked(length), whole, breaks);
      var s: State;
      if !whole {
        s := PartialSendFails(c, length);
      } else if breaks == Anywhere {
        s := BreakInsidePacketFails(c, length);
      } else {
        s := WrapAroundFails(c, length);
      }
    }
  }
}
