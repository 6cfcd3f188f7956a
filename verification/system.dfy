/** Both proxies at work: the code of every thread, run on the same objects in any order. */
module System {
  import opened Network
  import opened Batch
  import opened Protocol
  import opened Runs
  import opened Sockets
  import opened Receptor
  import opened Forward
  import opened Splitter
  import opened Limits
  import opened Refinement
  import opened Liveness
  import opened Turns

  /** What the forwarder remembers between two turns. */
  datatype Phase = Waits | Sends(packCnt: nat, count: nat, byte: nat)

  /** Steps of the transmitter leave the receiver alone, and the other way round. */
  predicate KeepsRx(s: State, t: State) {
    t == s.(taken := t.taken, raw := t.raw, eof := t.eof, fin := t.fin, buffer := t.buffer,
            getInd := t.getInd, links := t.links)
  }

  predicate KeepsTx(s: State, t: State) {
    t == s.(links := t.links, queued := t.queued, zero := t.zero, availMinSeq := t.availMinSeq,
            sentMinSeq := t.sentMinSeq, fwd := t.fwd, sent := t.sent, out := t.out)
  }

  /** No receiver has a part of a packet in its buffer. */
  predicate NoneBegun(links: seq<Link>) {
    forall l :: 0 <= l < |links| ==> links[l].raw == []
  }

  lemma NoneBegunStill(links: seq<Link>, l: nat, lk: Link)
    requires NoneBegun(links) && l < |links| && lk.raw == []
    ensures NoneBegun(links[l := lk])
  {}

  /** The first turns have led along `trace` to state `s`, in an environment `c` no wilder than the
      sockets have been. */
  ghost predicate IsTraced(wild: Config, turns: seq<Turn>, trace: seq<State>, c: Config, s: State) {
    && IsTrace(wild, turns, trace) && Last(trace) == s
    && (TakesWhole(turns) ==> c.whole) && (StaysUp(turns) ==> c.breaks == Never)
    && (NeverInside(turns, trace) ==> c.breaks != Anywhere)
  }

  lemma TracedOn(turns: seq<Turn>, trace: seq<State>, c0: Config, s0: State, c: Config, s: State)
    requires IsTraced(Wildest(c0.links, c0.stream), turns, trace, c0, s0) && 0 < |trace| <= |turns|
    requires var t := turns[|trace| - 1];
      && GoesOn(c0, s0, c, s) && IsTurn(c0.stream, s0, t, s)
      && (IsWhole(t) ==> c.whole == c0.whole) && (IsUp(t) ==> c.breaks == c0.breaks)
      && (BreaksInside(s0, t, s) || c.breaks != Anywhere || c0.breaks == Anywhere)
    ensures IsTraced(Wildest(c0.links, c0.stream), turns, trace + [s], c, s)
  {
    ReachesWildly(c0, s0, c, s);
    TraceGrows(Wildest(c0.links, c0.stream), turns, trace, s);
    if NeverInside(turns, trace + [s]) {
      InsideGrows(turns, trace, s);
    }
    assert turns[|trace| - 1] in turns;
  }

  /** The objects of both proxies, what their threads remember between two turns, and a state of
      the machine that describes them. */
  class Proxies {
    const stream: seq<byte>
    const buff: ProxyBuff
    const pl: Pool
    const fq: FQueue
    var blocks: nat      // blocks the splitter has read
    var eof: bool        // its connection has ended
    var links: seq<Link> // each worker's packet, what is on its connection, and its receiver
    var phase: Phase
    ghost var c: Config  // the mildest environment that allows what the sockets have done
    ghost var s: State

    /** The state describes the transmitter and its splitter. */
    ghost predicate TxOk(t: State)
      reads `blocks, `eof, buff, buff.buffer
    {
      && buff.Valid() && ViewTx(t, buff) && t.raw == []
      && t.eof == eof && (!eof ==> t.taken == BLOCKSIZE * blocks <= |stream|)
    }

    /** The state describes the receiver's pool and its forwarder. */
    ghost predicate RxOk(t: State, f: Phase)
      reads pl, pl.pq, pl.pq.d, pl.pq.nodes, fq
    {
      && pl.Valid() && ViewPool(t, pl) && ViewFwd(t, pl, fq)
      && match f
         case Waits => t.fwd == Waiting
         case Sends(packCnt, count, byte) =>
           && t.fwd.Forwarding? && t.fwd.count == count && t.fwd.bytes == byte
           && packCnt == |t.fwd.batch| && fq.buffer == Payloads(t.fwd.batch)
    }

    /** The state describes the links and the threads at their ends. */
    ghost predicate LinksOk(t: State)
      reads `links
    {
      t.links == links && NoneBegun(links)
    }

    /** The state describes everything. */
    ghost predicate Matches()
      reads this, buff, buff.buffer, pl, pl.pq, pl.pq.d, pl.pq.nodes, fq
    {
      TxOk(s) && RxOk(s, phase) && LinksOk(s) && c.stream == stream && c.links == |links|
    }

    /** And the machine reaches it. */
    ghost predicate Valid()
      reads this, buff, buff.buffer, pl, pl.pq, pl.pq.d, pl.pq.nodes, fq
    {
      Matches() && Reachable(c, s)
    }

    lemma TxKept(t: State, t': State)
      requires TxOk(t) && KeepsTx(t, t')
      ensures TxOk(t')
    {}

    lemma RxKept(t: State, t': State)
      requires RxOk(t, phase) && KeepsRx(t, t')
      ensures RxOk(t', phase)
    {}

    constructor (stream: seq<byte>, links: nat)
      ensures Valid() && this.stream == stream && |this.links| == links
      ensures c.whole && c.breaks == Never && s == Init(c)
      ensures fresh(buff) && fresh(buff.buffer) && fresh(fq)
      ensures fresh(pl) && fresh(pl.pq) && fresh(pl.pq.d) && pl.pq.nodes == {}
    {
      ghost var start := Config(links, stream, true, Never);
      var b, p, f := StartsAsInit(start);
      this.stream, this.buff, this.pl, this.fq := stream, b, p, f;
      blocks, eof, phase := 0, false, Waits;
      this.links := seq(links, _ => Link(Idle, [], [], true));
      c, s := start, Init(start);
      new;
      Start(start);
    }

    method SplitterReads(sizes: nat -> nat)
      requires TxOk(s) && c.stream == stream && !eof
      modifies `blocks, `eof, `s, buff, buff.buffer
      ensures TxOk(s) && KeepsRx(old(s), s) && s.links == old(s).links
      ensures Reaches(c, old(s), s) && SplitterMoves(stream, old(s), s)
      ensures buff.buffer == old(buff.buffer) || fresh(buff.buffer)
    {
      ghost var s';
      var recvCount;
      recvCount, s' := SplitTakesSteps(c, s, buff, stream, blocks, sizes);
      BlockOfSlice(stream, blocks, s.taken + recvCount);
      eof, blocks, s := recvCount < BLOCKSIZE, if recvCount < BLOCKSIZE then blocks else blocks + 1, s';
    }

    method SplitterEnds()
      requires TxOk(s) && eof && !buff.finFlag
      modifies `s, buff`finFlag
      ensures TxOk(s) && KeepsRx(old(s), s) && s.links == old(s).links
      ensures Reaches(c, old(s), s) && SplitterMoves(stream, old(s), s)
    {
      ghost var s' := FinTakesStep(c, s, buff);
      ReachesStep(c, s, s');
      s := s';
    }

    /** A worker makes its claim: what its link is then, and the state. */
    method WorkerClaims(l: nat, ghost results: seq<int>) returns (lk: Link, ghost t: State)
      requires TxOk(s) && LinksOk(s) && l < |links| && links[l].tx.Idle?
      modifies buff`getInd
      ensures TxOk(t) && KeepsRx(s, t) && t.links == links[l := lk] && lk.raw == []
      ensures Reaches(c, s, t) && WorkerMoves(s, l, results, t)
    {
      var r;
      r, t := ClaimTakesStep(c, s, l, buff);
      lk := links[l];
      if r.Empty? {
        ReachesSelf(c, s);
      } else {
        ReachesStep(c, s, t);
        lk := lk.(tx := if r.Got? then Sending(Frame(HOST, r.item), 0) else Worker.Closed);
      }
    }

    /** A worker makes its calls: what its link is then, and the state. */
    method WorkerSends(l: nat, results: seq<int>) returns (lk: Link, ghost weak: Config, ghost t: State)
      requires LinksOk(s) && Reachable(c, s) && l < |links| && links[l].tx.Sending?
      ensures t == s.(links := links[l := lk]) && lk.raw == []
      ensures weak.whole == c.whole && (0 !in results ==> weak.breaks == c.breaks)
      ensures BreaksInside(s, WorkerTurn(l, results), t) || weak.breaks != Anywhere || c.breaks == Anywhere
      ensures GoesOn(c, s, weak, t) && WorkerMoves(s, l, results, t)
    {
      SendingIsShort(l);
      lk := links[l];
      var taken, next, o;
      taken, next, o, t := SendTakesSteps(c, s, l, lk.tx.packet, lk.tx.sentCount, results);
      SentAsTold(s, l, results, taken, next, o, t);
      var m := lk.tx.sentCount + |taken|;
      weak := Witnessed(c, m, o);
      lk := lk.(tx := WorkerAfter(lk.tx.packet, m, o), wire := lk.wire + taken);
    }

    /** Either of the two. */
    method WorkerActs(l: nat, results: seq<int>) returns (lk: Link, ghost weak: Config, ghost t: State)
      requires TxOk(s) && LinksOk(s) && Reachable(c, s) && l < |links| && !links[l].tx.Closed?
      modifies buff`getInd
      ensures TxOk(t) && KeepsRx(s, t) && t.links == links[l := lk] && lk.raw == []
      ensures weak.whole == c.whole && (0 !in results ==> weak.breaks == c.breaks)
      ensures BreaksInside(s, WorkerTurn(l, results), t) || weak.breaks != Anywhere || c.breaks == Anywhere
      ensures GoesOn(c, s, weak, t) && WorkerMoves(s, l, results, t)
    {
      weak := c;
      if links[l].tx.Idle? {
        lk, t := WorkerClaims(l, results);
      } else {
        lk, weak, t := WorkerSends(l, results);
        TxKept(s, t);
      }
    }

    method RememberLink(l: nat, lk: Link, ghost weak: Config, ghost t: State)
      requires TxOk(t) && RxOk(t, phase) && l < |links| && t.links == links[l := lk] && NoneBegun(links) && lk.raw == []
      requires weak.stream == stream && weak.links == |links|
      modifies `links, `c, `s
      ensures Matches() && |links| == |old(links)| && c == weak && s == t
    {
      NoneBegunStill(links, l, lk);
      links, c, s := links[l := lk], weak, t;
    }

    lemma SendingIsShort(l: nat)
      requires LinksOk(s) && Reachable(c, s) && l < |links| && links[l].tx.Sending?
      ensures links[l].tx.sentCount < PACKET_SIZE
    {
      ReachableIsBase(c, s);
      assert LinkOk(c, s.links[l], AllClaimed(s));
    }

    predicate IsReady(l: nat)
      reads `links
    {
      l < |links| && links[l].open && (|links[l].wire| >= PACKET_SIZE || links[l].tx.Closed?)
    }

    /** A receiver collects and queues a packet: what its link is then, and the state. */
    method ReceiverCalls(l: nat, calls: Schedule) returns (lk: Link, ghost t: State)
      requires RxOk(s, phase) && LinksOk(s) && IsReady(l)
      modifies pl`availMinSeq, pl`queued, pl.pq, pl.pq.d, pl.pq.nodes`pos
      ensures RxOk(t, phase) && KeepsTx(s, t) && t.links == links[l := lk] && lk.raw == []
      ensures Reaches(c, s, t) && ReceiverMoves(s, l, t)
      ensures (pl.pq.d == old(pl.pq.d) || fresh(pl.pq.d)) && fresh(pl.pq.nodes - old(pl.pq.nodes))
    {
      var wire := links[l].wire;
      var packet, recvCount;
      assert wire == wire[0..];
      packet, recvCount, t := ReceiveTakesSteps(c, s, l, pl, wire, 0, calls);
      ReceivedAsTold(s, l, packet, recvCount, t);
      lk := links[l].(wire := wire[recvCount..], open := recvCount == PACKET_SIZE);
    }

    /** The forwarder fills its buffer: what it remembers then, and the state. */
    method ForwarderTries(ghost results: seq<int>) returns (f: Phase, ghost t: State)
      requires RxOk(s, phase) && phase.Waits?
      modifies pl`queued, pl.pq, pl.pq.d, pl.pq.nodes`pos, fq`buffer
      ensures RxOk(t, f) && KeepsTx(s, t) && s.links == t.links && Reaches(c, s, t) && ForwarderMoves(s, results, t)
      ensures (pl.pq.d == old(pl.pq.d) || fresh(pl.pq.d)) && pl.pq.nodes <= old(pl.pq.nodes)
    {
      var packCnt;
      ghost var batch;
      packCnt, batch, t := FillTakesStep(c, s, pl, fq);
      FilledAsTold(c, s, batch, t, results);
      f := if packCnt == -1 then Waits else Sends(packCnt, 0, 0);
    }

    lemma ReadyToSend()
      requires Reachable(c, s)
      ensures ForwarderOk(s) && NoneHalfTaken(c, s)
    {
      ReachableIsBase(c, s);
    }

    /** The forwarder makes its calls: what it remembers then, and the state. */
    method ForwarderCalls(results: seq<int>) returns (f: Phase, ghost weak: Config, ghost t: State)
      requires RxOk(s, phase) && Reachable(c, s) && phase.Sends?
      modifies pl`sentMinSeq, fq`sent, fq`out
      ensures RxOk(t, f) && KeepsTx(s, t) && s.links == t.links && GoesOn(c, s, weak, t)
      ensures weak == (if AreWhole(results) then c else c.(whole := false)) && ForwarderMoves(s, results, t)
    {
      ReadyToSend();
      weak := if AreWhole(results) then c else c.(whole := false);
      ghost var batch := s.fwd.batch;
      var count, byte, calls;
      count, byte, calls, t :=
        SendBatchTakesSteps(weak, s, pl, fq, phase.packCnt, phase.count, phase.byte, results, batch);
      f := if count == phase.packCnt then Waits else phase.(count := count, byte := byte);
    }

    method SplitterRuns(sizes: nat -> nat)
      requires Valid()
      modifies `blocks, `eof, `s, buff, buff.buffer
      ensures Matches() && (buff.buffer == old(buff.buffer) || fresh(buff.buffer))
      ensures GoesOn(old(c), old(s), c, s) && IsTurn(stream, old(s), SplitterTurn(sizes), s)
    {
      ghost var before := s;
      ReachesSelf(c, s);
      if !eof {
        SplitterReads(sizes);
      } else if !buff.finFlag {
        SplitterEnds();
      }
      RxKept(before, s);
    }

    method WorkerRuns(l: nat, results: seq<int>)
      requires Valid()
      modifies `links, `c, `s, buff`getInd
      ensures Matches() && |links| == |old(links)|
      ensures c.whole == old(c.whole) && (0 !in results ==> c.breaks == old(c.breaks))
      ensures BreaksInside(old(s), WorkerTurn(l, results), s) || c.breaks != Anywhere || old(c.breaks) == Anywhere
      ensures GoesOn(old(c), old(s), c, s) && IsTurn(stream, old(s), WorkerTurn(l, results), s)
    {
      ReachesSelf(c, s);
      if l < |links| && !links[l].tx.Closed? {
        var lk;
        ghost var weak, t;
        lk, weak, t := WorkerActs(l, results);
        RxKept(s, t);
        RememberLink(l, lk, weak, t);
      }
    }

    method ReceiverRuns(l: nat, calls: Schedule)
      requires Valid()
      modifies `links, `c, `s, pl, pl.pq, pl.pq.d, pl.pq.nodes
      ensures Matches() && |links| == |old(links)| && c == old(c)
      ensures (pl.pq.d == old(pl.pq.d) || fresh(pl.pq.d)) && fresh(pl.pq.nodes - old(pl.pq.nodes))
      ensures GoesOn(old(c), old(s), c, s) && IsTurn(stream, old(s), ReceiverTurn(l, calls), s)
    {
      ReachesSelf(c, s);
      if IsReady(l) {
        var lk;
        ghost var t;
        lk, t := ReceiverCalls(l, calls);
        TxKept(s, t);
        RememberLink(l, lk, c, t);
      }
    }

    /** Either of the two. */
    method ForwarderActs(results: seq<int>) returns (f: Phase, ghost weak: Config, ghost t: State)
      requires RxOk(s, phase) && Reachable(c, s)
      modifies pl`queued, pl`sentMinSeq, pl.pq, pl.pq.d, pl.pq.nodes`pos, fq
      ensures RxOk(t, f) && KeepsTx(s, t) && s.links == t.links && GoesOn(c, s, weak, t)
      ensures weak.breaks == c.breaks && (AreWhole(results) ==> weak.whole == c.whole)
      ensures ForwarderMoves(s, results, t)
      ensures (pl.pq.d == old(pl.pq.d) || fresh(pl.pq.d)) && fresh(pl.pq.nodes - old(pl.pq.nodes))
    {
      weak := c;
      if phase.Waits? {
        f, t := ForwarderTries(results);
      } else {
        f, weak, t := ForwarderCalls(results);
      }
    }

    method Remember(f: Phase, ghost weak: Config, ghost t: State)
      requires TxOk(t) && RxOk(t, f) && LinksOk(t) && weak.stream == stream && weak.links == |links|
      modifies `phase, `c, `s
      ensures Matches() && c == weak && s == t
    {
      phase, c, s := f, weak, t;
    }

    method ForwarderRuns(results: seq<int>)
      requires Valid()
      modifies `phase, `c, `s, pl, pl.pq, pl.pq.d, pl.pq.nodes, fq
      ensures Matches()
      ensures (pl.pq.d == old(pl.pq.d) || fresh(pl.pq.d)) && fresh(pl.pq.nodes - old(pl.pq.nodes))
      ensures c.breaks == old(c.breaks) && (AreWhole(results) ==> c.whole == old(c.whole))
      ensures GoesOn(old(c), old(s), c, s) && IsTurn(stream, old(s), ForwarderTurn(results), s)
    {
      var f;
      ghost var weak, t;
      f, weak, t := ForwarderActs(results);
      TxKept(s, t);
      Remember(f, weak, t);
    }

    /** A thread takes its turn: it does what there is for it to do, and nothing else changes. */
    method TakeTurn(t: Turn)
      requires Valid()
      modifies `blocks, `eof, `links, `phase, `c, `s, buff, buff.buffer, pl, pl.pq, pl.pq.d, pl.pq.nodes, fq
      ensures Valid() && |links| == |old(links)|
      ensures buff.buffer == old(buff.buffer) || fresh(buff.buffer)
      ensures (pl.pq.d == old(pl.pq.d) || fresh(pl.pq.d)) && fresh(pl.pq.nodes - old(pl.pq.nodes))
      ensures GoesOn(old(c), old(s), c, s) && IsTurn(stream, old(s), t, s)
      ensures IsWhole(t) ==> c.whole == old(c.whole)
      ensures IsUp(t) ==> c.breaks == old(c.breaks)
      ensures BreaksInside(old(s), t, s) || c.breaks != Anywhere || old(c.breaks) == Anywhere
    {
      ghost var c0, s0 := c, s;
      match t {
        case SplitterTurn(sizes) => SplitterRuns(sizes);
        case WorkerTurn(l, results) => WorkerRuns(l, results);
        case ReceiverTurn(l, calls) => ReceiverRuns(l, calls);
        case ForwarderTurn(results) => ForwarderRuns(results);
      }
      ReachesOn(c0, s0, c, s);
    }

    /** One more turn of a list. */
    method TakeOneOf(turns: seq<Turn>, k: nat, ghost trace: seq<State>)
      requires Valid() && k < |turns| && |trace| == k + 1
      requires IsTraced(Wildest(|links|, stream), turns, trace, c, s)
      modifies `blocks, `eof, `links, `phase, `c, `s, buff, buff.buffer, pl, pl.pq, pl.pq.d, pl.pq.nodes, fq
      ensures Valid() && |links| == |old(links)|
      ensures buff.buffer == old(buff.buffer) || fresh(buff.buffer)
      ensures (pl.pq.d == old(pl.pq.d) || fresh(pl.pq.d)) && fresh(pl.pq.nodes - old(pl.pq.nodes))
      ensures IsTraced(Wildest(|links|, stream), turns, trace + [s], c, s)
    {
      ghost var c0, s0 := c, s;
      TakeTurn(turns[k]);
      TracedOn(turns, trace, c0, s0, c, s);
    }

    /** The threads take one turn after the other. */
    method TakeTurns(turns: seq<Turn>) returns (ghost trace: seq<State>)
      requires Valid() && s == Init(c) && c.whole && c.breaks == Never
      modifies `blocks, `eof, `links, `phase, `c, `s, buff, buff.buffer, pl, pl.pq, pl.pq.d, pl.pq.nodes, fq
      ensures Valid() && |links| == |old(links)|
      ensures IsTraced(Wildest(|links|, stream), turns, trace, c, s) && |trace| == |turns| + 1
    {
      trace := [s];
      for k := 0 to |turns|
        invariant Valid() && |links| == |old(links)|
        invariant buff.buffer == old(buff.buffer) || fresh(buff.buffer)
        invariant (pl.pq.d == old(pl.pq.d) || fresh(pl.pq.d)) && fresh(pl.pq.nodes - old(pl.pq.nodes))
        invariant IsTraced(Wildest(|links|, stream), turns, trace, c, s) && |trace| == k + 1
      {
        TakeOneOf(turns, k, trace);
        trace := trace + [s];
      }
    }

    /** The threads at both ends of the first `n` links have ended. */
    ghost predicate HaveEnded(n: nat)
      requires n <= |links|
      reads `links
    {
      forall l :: 0 <= l < n ==> links[l].tx.Closed? && !links[l].open
    }

    /** The first link from `n` on, on which a thread has not ended yet. */
    function FirstBusy(n: nat): (l: nat)
      requires n <= |links| && HaveEnded(n)
      reads `links
      ensures l <= |links| && HaveEnded(l)
      ensures l < |links| ==> !links[l].tx.Closed? || links[l].open
      decreases |links| - n
    {
      if n < |links| && links[n].tx.Closed? && !links[n].open then FirstBusy(n + 1) else n
    }

    /** A turn of a thread that has not ended, with sockets that take what they are offered; the
        forwarder is the last. */
    function NextTurn(): Turn
      reads `eof, `links, buff`finFlag
    {
      if !eof || !buff.finFlag then SplitterTurn(_ => BLOCKSIZE)
      else
        var l := FirstBusy(0);
        if l == |links| then ForwarderTurn([BLOCKSIZE])
        else if links[l].tx.Closed? then ReceiverTurn(l, Schedule(_ => 0, _ => PACKET_SIZE))
        else WorkerTurn(l, [PACKET_SIZE])
    }

    lemma NextIsHelpful()
      requires Matches()
      ensures IsHelpful(s, NextTurn()) && IsWhole(NextTurn()) && IsUp(NextTurn())
    {
      assert [PACKET_SIZE][0] >= 0 && [BLOCKSIZE][0] > 0;
    }

    /** One such turn; nothing changes exactly when everything has ended. */
    method Advance() returns (done: bool)
      requires Valid() && c.whole && c.breaks == Never
      modifies `blocks, `eof, `links, `phase, `c, `s, buff, buff.buffer, pl, pl.pq, pl.pq.d, pl.pq.nodes, fq
      ensures Valid() && c.whole && c.breaks == Never && |links| == |old(links)|
      ensures buff.buffer == old(buff.buffer) || fresh(buff.buffer)
      ensures (pl.pq.d == old(pl.pq.d) || fresh(pl.pq.d)) && fresh(pl.pq.nodes - old(pl.pq.nodes))
      ensures GoesOn(old(c), old(s), c, s) && (if done then IsAtEnd(s) else s != old(s))
    {
      ghost var before := s;
      NextIsHelpful();
      var t, waits := NextTurn(), phase.Waits?;
      TakeTurn(t);
      TurnHelps(stream, before, t, s);
      done := t.ForwarderTurn? && waits && phase.Waits?;
    }

    method RunToEnd()
      requires Valid() && c.whole && c.breaks == Never
      modifies `blocks, `eof, `links, `phase, `c, `s, buff, buff.buffer, pl, pl.pq, pl.pq.d, pl.pq.nodes, fq
      ensures Valid() && c.whole && c.breaks == Never && |links| == |old(links)| && IsFinished()
    {
      var done := false;
      while !done
        invariant Valid() && c.whole && c.breaks == Never && |links| == |old(links)|
        invariant buff.buffer == old(buff.buffer) || fresh(buff.buffer)
        invariant (pl.pq.d == old(pl.pq.d) || fresh(pl.pq.d)) && fresh(pl.pq.nodes - old(pl.pq.nodes))
        invariant done ==> IsAtEnd(s)
        decreases !done, Work(c, s)
      {
        ghost var c0, s0 := c, s;
        done := Advance();
        WorksOn(c0, s0, c, s);
      }
      FinishedIsAtEnd();
    }

    /** The splitter and all workers and receivers have ended, and the next block to be
        forwarded does not head the heap. */
    ghost predicate IsFinished()
      requires pl.Valid()
      reads this, buff, pl, pl.pq, pl.pq.d, pl.pq.nodes, fq
    {
      eof && buff.finFlag && phase == Waits && !IsMinKey(pl.queued, fq.sent + 1) && HaveEnded(|links|)
    }

    lemma FinishedIsAtEnd()
      requires Valid()
      ensures IsFinished() <==> IsAtEnd(s)
    {}

    /** Then nothing is left to do. */
    lemma FinishedIsQuiescent()
      requires Valid() && IsFinished()
      ensures Quiescent(c, s)
    {
      forall a
        ensures !Enabled(c, s, a)
      {
        if IsLinkAction(a) {
          AtRest(c, s, a);
        } else if a.Fill? {
          NothingToFill(c, s, a.batch);
        }
      }
    }

    /** The end of a delivery: when everything has ended and no link has broken, every block has
        been forwarded, and a destination that takes whole blocks has received the stream. */
    lemma FinishedMeansDelivered()
      requires Valid() && IsFinished() && IsHealthy(c)
      ensures fq.sent + 1 == NumBlocks(stream) && |fq.out| == BLOCKSIZE * NumBlocks(stream)
      ensures c.whole ==> fq.out == Padded(stream)
    {
      FinishedIsQuiescent();
      var run :| IsRun(c, run) && Last(run) == s;
      QuiescentMeansDelivered(c, run);
    }

    /** What the destination has received, at any time and in the end. */
    lemma IsDelivered()
      requires Valid()
      ensures IsTame(|links|, c.whole, c.breaks, |stream|) ==> fq.out <= Padded(stream)
      ensures IsFinished() && |links| >= 1 && |stream| <= 65_536_000 && c.breaks == Never ==>
        && fq.sent + 1 == NumBlocks(stream)
        && (c.whole ==> fq.out == Padded(stream))
    {
      if IsTame(|links|, c.whole, c.breaks, |stream|) {
        SafeState(c, s);
      }
      if IsFinished() && |links| >= 1 && |stream| <= 65_536_000 && c.breaks == Never {
        FinishedMeansDelivered();
      }
    }

    /** The threads have ended when they have gone round often enough. */
    lemma EndsInTime(turns: seq<Turn>, trace: seq<State>, n: nat)
      requires Valid() && IsTraced(Wildest(|links|, stream), turns, trace, c, s) && |trace| == |turns| + 1
      ensures (forall t :: t in turns ==> IsAnswered(t))
              && GoRound(|links|, turns, |turns|, n) && n >= 6 * |stream| + 5001 + 2001 * |links|
              ==> IsFinished()
    {
      FinishedIsAtEnd();
      if (forall t :: t in turns ==> IsAnswered(t))
         && GoRound(|links|, turns, |turns|, n) && n >= 6 * |stream| + 5001 + 2001 * |links| {
        EndsAfterRounds(Wildest(|links|, stream), turns, trace, n);
      }
    }
  }

  lemma AtRest(c: Config, s: State, a: Action)
    requires IsLinkAction(a) && forall l :: 0 <= l < |s.links| ==> s.links[l].tx.Closed? && !s.links[l].open
    ensures !Enabled(c, s, a)
  {}

  lemma NothingToFill(c: Config, s: State, batch: seq<Item>)
    requires !IsMinKey(s.queued, s.sent + 1)
    ensures !Enabled(c, s, Fill(batch))
  {
    assert batch != [] ==> batch[0] in multiset(batch);
  }

  lemma SentAsTold(s: State, l: nat, results: seq<int>, taken: seq<byte>, next: nat, o: Outcome, s': State)
    requires l < |s.links| && s.links[l].tx.Sending? && s.links[l].tx.sentCount < PACKET_SIZE
    requires var lk, size := s.links[l], PACKET_SIZE - s.links[l].tx.sentCount;
      && Ships(size, results, 0, next, o)
      && taken == lk.tx.packet[lk.tx.sentCount..][..Min(Sum(results, 0, next), size)]
      && s' == s.(links := s.links[l :=
           lk.(tx := WorkerAfter(lk.tx.packet, lk.tx.sentCount + |taken|, o), wire := lk.wire + taken)])
    ensures WorkerMoves(s, l, results, s')
  {
    var m := s.links[l].tx.sentCount;
    assert taken == s.links[l].tx.packet[m..m + |taken|];
    assert WorkerSent(s, l, results, next, o, s');
  }

  lemma ReceivedAsTold(s: State, l: nat, packet: Packet, k: nat, s': State)
    requires CanReceive(s, l) && k == Min(|s.links[l].wire|, PACKET_SIZE) && packet[..k] == s.links[l].wire[..k]
    requires var lk := s.links[l].(wire := s.links[l].wire[k..], open := k == PACKET_SIZE);
      var s1 := s.(links := s.links[l := lk]);
      s' == if k == 0 then s1 else Enqueued(s1, packet)
    ensures ReceiverMoves(s, l, s') && KeepsTx(s, s')
    ensures s'.links == s.links[l := s.links[l].(wire := s.links[l].wire[k..], open := k == PACKET_SIZE)]
  {
    assert Receives(s, l, packet, s');
  }

  lemma FilledAsTold(c: Config, s: State, batch: seq<Item>, s': State, results: seq<int>)
    requires s.fwd == Waiting && IsBatch(s.queued, s.sent, batch, s'.queued)
    requires if batch == [] then s' == s && !IsMinKey(s.queued, s.sent + 1)
      else s' == s.(queued := s'.queued, fwd := Forwarding(batch, 0, 0)) && Step(c, s, s') && KeepsTop(s, batch[0])
    ensures ForwarderMoves(s, results, s') && KeepsTx(s, s') && s'.links == s.links && Reaches(c, s, s')
  {
    if batch == [] {
      ReachesSelf(c, s);
    } else {
      assert Fills(s, batch, s');
      TakenIsNext(s, batch, s');
      ReachesStep(c, s, s');
    }
  }

  lemma TakenIsNext(s: State, batch: seq<Item>, s': State)
    requires Fills(s, batch, s')
    ensures IsMinKey(s.queued, s.sent + 1)
  {
    assert batch[0] in multiset(batch);
    forall x | x in s.queued
      ensures x.key >= s.sent + 1
    {
      if x !in s'.queued {
        assert x in multiset(batch) && x in batch;
      }
    }
  }

  /** The two proxies as a whole, run by any list of turns, with any answers of any socket: each
      turn does what its thread has to do, so the objects are described by the state that the
      machine has reached along these turns. So what the destination has received is the
      beginning of the stream, if no destination call took a part of a block, no link broke inside
      a packet, and there is one link or the stream has at most 65536 blocks; and once everything
      has ended and no link has broken, it is the whole stream, filled up with zeros. And
      everything has ended when the threads have gone round often enough and every socket has
      answered in every turn, however little each call has taken. */
  method Deliver(stream: seq<byte>, links: nat, turns: seq<Turn>) returns (p: Proxies, ghost trace: seq<State>)
    ensures p.Valid() && p.stream == stream && |p.links| == links
    ensures IsTrace(Wildest(links, stream), turns, trace) && |trace| == |turns| + 1 && Last(trace) == p.s
    ensures TakesWhole(turns) ==> p.c.whole
    ensures StaysUp(turns) ==> p.c.breaks == Never
    ensures NeverInside(turns, trace) ==> p.c.breaks != Anywhere
    ensures IsTame(links, p.c.whole, p.c.breaks, |stream|) ==> p.fq.out <= Padded(stream)
    ensures p.IsFinished() && links >= 1 && |stream| <= 65_536_000 && p.c.breaks == Never ==>
      && p.fq.sent + 1 == NumBlocks(stream)
      && (p.c.whole ==> p.fq.out == Padded(stream))
    ensures (forall t :: t in turns ==> IsAnswered(t))
            && GoRound(links, turns, |turns|, 6 * |stream| + 5001 + 2001 * links)
            ==> p.IsFinished()
  {
    p := new Proxies(stream, links);
    trace := p.TakeTurns(turns);
    p.IsDelivered();
    p.EndsInTime(turns, trace, 6 * |stream| + 5001 + 2001 * links);
  }

  /** And this can be brought to its end: turns of threads that have something to do, with
      sockets that take what they are offered, end after finitely many, and then every block of
      a stream of at most 65536 blocks has been delivered. */
  method DeliverAll(stream: seq<byte>, links: nat) returns (p: Proxies)
    ensures p.Valid() && p.stream == stream && |p.links| == links && p.IsFinished()
    ensures links >= 1 && |stream| <= 65_536_000 ==> p.fq.out == Padded(stream)
  {
    p := new Proxies(stream, links);
    p.RunToEnd();
    if links >= 1 && |stream| <= 65_536_000 {
      p.FinishedMeansDelivered();
    }
  }

  /** The worker's end of a link, when all goes well. */
  method LinkSends(buff: ProxyBuff, results: seq<int>, others: nat -> nat)
    returns (wire: seq<byte>, o: Outcome, ghost idxs: seq<nat>, ghost framed: seq<Item>, ghost all: seq<byte>)
    requires buff.Valid()
    modifies buff`getInd
    ensures buff.Valid() && IsWithin(idxs, old(buff.getInd), buff.getInd) && buff.getInd <= |buff.Contents()|
    ensures framed == StampedAll(buff.Contents(), idxs) && all == Frames(HOST, framed)
    ensures (forall n :: others(n) == 0) ==> |idxs| == buff.getInd - old(buff.getInd)
    ensures o == Sent ==> wire == all && buff.finFlag && buff.getInd == |buff.Contents()|
    ensures TakesPackets(results) && |results| >= |buff.Contents()| - old(buff.getInd)
            ==> wire == all && buff.getInd == |buff.Contents()| && (o == Sent <==> buff.finFlag)
  {
    var next;
    wire, next, o, idxs, all := TxChain(buff, results, others);
    framed := StampedAll(buff.Contents(), idxs);
  }

  /** The receiver's end of a link that carries the frames `all`, or the beginning of them. */
  method LinkArrives(pl: Pool, wire: seq<byte>, calls: Schedule, queue: nat -> seq<Packet>,
                     ghost framed: seq<Item>, ghost all: seq<byte>)
    returns (ghost items: seq<Item>, ghost theirs: multiset<Item>, ghost arrived: seq<Item>)
    requires pl.Valid() && all == Frames(HOST, framed)
    modifies pl`availMinSeq, pl`queued, pl.pq, pl.pq.d, pl.pq.nodes`pos
    ensures pl.Valid() && (wire == all ==> items == framed)
    ensures (forall n :: queue(n) == []) ==> theirs == multiset{}
    ensures HasQueued(pl.queued, pl.availMinSeq, old(pl.queued), old(pl.availMinSeq), items, theirs, arrived)
  {
    items, theirs, arrived := RxChain(pl, wire, calls, queue);
    LinkRoundTrip(framed, items);
  }

  /** One link, over the code of both ends: what the receiver queues for the bytes that a worker
      has sent before it ended are exactly the blocks that the worker has claimed. With a socket
      that takes a packet in each call, these are all its blocks, and the worker ends once the
      flag is set. */
  method LinkCarries(buff: ProxyBuff, results: seq<int>, others: nat -> nat,
                     pl: Pool, calls: Schedule, queue: nat -> seq<Packet>)
    returns (o: Outcome, ghost idxs: seq<nat>,
             ghost items: seq<Item>, ghost theirs: multiset<Item>, ghost arrived: seq<Item>)
    requires buff.Valid() && pl.Valid()
    modifies buff`getInd, pl`availMinSeq, pl`queued, pl.pq, pl.pq.d, pl.pq.nodes`pos
    ensures buff.Valid() && pl.Valid() && IsWithin(idxs, old(buff.getInd), buff.getInd)
    ensures (forall n :: others(n) == 0) ==> |idxs| == buff.getInd - old(buff.getInd)
    ensures HasQueued(pl.queued, pl.availMinSeq, old(pl.queued), old(pl.availMinSeq), items, theirs, arrived)
    ensures (forall n :: queue(n) == []) ==> theirs == multiset{}
    ensures o == Sent ==>
      buff.finFlag && buff.getInd == |buff.Contents()| && items == StampedAll(buff.Contents(), idxs)
    ensures TakesPackets(results) && |results| >= |buff.Contents()| - old(buff.getInd) ==>
      && (o == Sent <==> buff.finFlag) && buff.getInd == |buff.Contents()|
      && items == StampedAll(buff.Contents(), idxs)
  {
    var wire;
    ghost var framed, all;
    wire, o, idxs, framed, all := LinkSends(buff, results, others);
    ghost var blocks := buff.Contents();
    items, theirs, arrived := LinkArrives(pl, wire, calls, queue, framed, all);
    assert buff.Contents() == blocks;
  }
}
