/** What the turns of the threads do to the state of the machine, and what comes of them when every
    thread gets its turn again and again. */
module Turns {
  import opened Network
  import opened Batch
  import opened Protocol
  import opened Runs
  import opened Sockets
  import opened Forward
  import opened Splitter
  import opened Limits
  import opened Refinement

  /** What one thread does before another one runs. The splitter reads a block, or sets its
      flag; a worker claims a block, or makes the calls for which `results` has answers; a
      receiver collects and queues a packet; the forwarder fills its buffer, or makes the calls
      for which `results` has answers. */
  datatype Turn =
    | SplitterTurn(sizes: nat -> nat)
    | WorkerTurn(l: nat, results: seq<int>)
    | ReceiverTurn(l: nat, calls: Schedule)
    | ForwarderTurn(results: seq<int>)

  /** In this turn the destination takes no part of a block. */
  ghost predicate IsWhole(t: Turn) {
    t.ForwarderTurn? ==> AreWhole(t.results)
  }

  /** In none of these turns does it. */
  ghost predicate TakesWhole(turns: seq<Turn>) {
    forall t :: t in turns ==> IsWhole(t)
  }

  /** In this turn no link breaks. */
  predicate IsUp(t: Turn) {
    t.WorkerTurn? ==> 0 !in t.results
  }

  /** In none of these turns does one break. */
  ghost predicate StaysUp(turns: seq<Turn>) {
    forall t :: t in turns ==> IsUp(t)
  }

  /** The splitter reads a block, or what is left of the last one, and appends it, unless it is
      empty; once the connection has ended it sets the flag. */
  ghost predicate SplitterMoves(stream: seq<byte>, s: State, s': State) {
    if s.eof then s' == s.(fin := true)
    else
      && s.taken <= |stream|
      && var k := Min(BLOCKSIZE, |stream| - s.taken);
      s' == s.(taken := s.taken + k, eof := k < BLOCKSIZE,
               buffer := s.buffer + if k == 0 then [] else [ZeroFilled(stream[s.taken..s.taken + k])])
  }

  /** The state after a worker has sent `k` more bytes of its packet, with outcome `o`. */
  function AfterSends(s: State, l: nat, k: nat, o: Outcome): State
    requires l < |s.links| && s.links[l].tx.Sending? && s.links[l].tx.sentCount + k <= PACKET_SIZE
  {
    var lk := s.links[l];
    var m := lk.tx.sentCount + k;
    var wire := lk.wire + lk.tx.packet[lk.tx.sentCount..m];
    s.(links := s.links[l := lk.(tx := WorkerAfter(lk.tx.packet, m, o), wire := wire)])
  }

  /** A worker sends its packet: all that the answers up to `next` take of it. */
  ghost predicate WorkerSent(s: State, l: nat, results: seq<int>, next: nat, o: Outcome, s': State)
    requires l < |s.links| && s.links[l].tx.Sending? && s.links[l].tx.sentCount < PACKET_SIZE
  {
    var size := PACKET_SIZE - s.links[l].tx.sentCount;
    Ships(size, results, 0, next, o) && s' == AfterSends(s, l, Min(Sum(results, 0, next), size), o)
  }

  /** An idle worker claims the next block or, if there is none, ends once the flag is set; one
      that has a packet sends it. */
  ghost predicate WorkerMoves(s: State, l: nat, results: seq<int>, s': State) {
    if l >= |s.links| then s' == s
    else match s.links[l].tx
      case Idle =>
        if s.getInd < |s.buffer| then
          var packet := Frame(HOST, StampedAt(s.buffer, s.getInd));
          s' == s.(getInd := s.getInd + 1, links := s.links[l := s.links[l].(tx := Sending(packet, 0))])
        else if s.fin then s' == s.(links := s.links[l := s.links[l].(tx := Worker.Closed)])
        else s' == s
      case Sending(packet, sentCount) =>
        sentCount < PACKET_SIZE && exists next, o :: WorkerSent(s, l, results, next, o, s')
      case Closed => s' == s
  }

  /** A receiver that has neither a whole packet nor the end of its link waits. */
  predicate CanReceive(s: State, l: nat) {
    l < |s.links| && s.links[l].open && (|s.links[l].wire| >= PACKET_SIZE || s.links[l].tx.Closed?)
  }

  /** A receiver queues the first packet on its link, or what is left there. */
  ghost predicate Receives(s: State, l: nat, packet: Packet, s': State)
    requires CanReceive(s, l)
  {
    var lk := s.links[l];
    var k := Min(|lk.wire|, PACKET_SIZE);
    var s1 := s.(links := s.links[l := lk.(wire := lk.wire[k..], open := k == PACKET_SIZE)]);
    packet[..k] == lk.wire[..k] && s' == if k == 0 then s1 else Enqueued(s1, packet)
  }

  ghost predicate ReceiverMoves(s: State, l: nat, s': State) {
    if CanReceive(s, l) then exists packet: Packet :: Receives(s, l, packet, s') else s' == s
  }

  ghost predicate Fills(s: State, batch: seq<Item>, s': State) {
    && batch != [] && IsBatch(s.queued, s.sent, batch, s'.queued) && KeepsTop(s, batch[0])
    && s' == s.(queued := s'.queued, fwd := Forwarding(batch, 0, 0))
  }

  /** A waiting forwarder takes a batch, if there is one; one that has a batch sends it. */
  ghost predicate ForwarderMoves(s: State, results: seq<int>, s': State) {
    match s.fwd
    case Waiting =>
      if IsMinKey(s.queued, s.sent + 1) then exists batch :: Fills(s, batch, s') else s' == s
    case Forwarding(batch, count, bytes) =>
      var start := Progress(count, bytes, []);
      && IsOngoing(Payloads(batch), start)
      && s' == Forwarded(s, SendFrom(Payloads(batch), start, results, |results|))
  }

  /** What the turn does to the state, and nothing else. */
  ghost predicate IsTurn(stream: seq<byte>, s: State, t: Turn, s': State) {
    match t
    case SplitterTurn(_) => SplitterMoves(stream, s, s')
    case WorkerTurn(l, results) => WorkerMoves(s, l, results, s')
    case ReceiverTurn(l, _) => ReceiverMoves(s, l, s')
    case ForwarderTurn(results) => ForwarderMoves(s, results, s')
  }

  /** In this turn a link breaks inside a packet. */
  predicate BreaksInside(s: State, t: Turn, s': State) {
    && t.WorkerTurn? && t.l < |s.links| && t.l < |s'.links|
    && s.links[t.l].tx.Sending? && s'.links[t.l].tx.Closed?
    && (s.links[t.l].tx.sentCount > 0 || s'.links[t.l].wire != s.links[t.l].wire)
  }

  // ---------------------------------------------------------------- paths

  lemma {:induction false} PathBase(c: Config, path: seq<State>, i: nat)
    requires IsPath(c, path) && Base(c, path[0]) && i < |path|
    ensures Base(c, path[i])
  {
    if i > 0 {
      PathBase(c, path, i - 1);
      assert StepAt(c, path, i - 1);
      BaseStep(c, path[i - 1], path[i]);
    }
  }

  lemma {:induction false} PathWorks(c: Config, path: seq<State>, i: nat)
    requires IsPath(c, path) && Base(c, path[0]) && i < |path|
    ensures Work(c, path[i]) + i <= Work(c, path[0])
  {
    if i > 0 {
      var before := Work(c, path[i - 1]);
      PathWorks(c, path, i - 1);
      PathBase(c, path, i - 1);
      assert StepAt(c, path, i - 1);
      StepWorks(c, path[i - 1], path[i]);
    }
  }

  lemma ReachesWorks(c: Config, s: State, t: State)
    requires Base(c, s) && Reaches(c, s, t)
    ensures Work(c, t) <= Work(c, s) && (t != s ==> Work(c, t) < Work(c, s))
  {
    var path :| IsPath(c, path) && path[0] == s && Last(path) == t;
    PathWorks(c, path, |path| - 1);
  }

  /** The machine goes on from `s` to `t`, in an environment that allows what has happened. */
  ghost predicate GoesOn(c: Config, s: State, weak: Config, t: State) {
    Allows(weak, c) && Reaches(weak, s, t)
  }

  lemma ReachesOn(c: Config, s: State, weak: Config, t: State)
    requires Reachable(c, s) && GoesOn(c, s, weak, t)
    ensures Reachable(weak, s) && Reachable(weak, t)
  {
    var run :| IsRun(c, run) && Last(run) == s;
    RelaxedRun(c, weak, run);
    ReachableOnward(weak, s, t);
  }

  /** Unless nothing has happened, less work is left. */
  lemma WorksOn(c: Config, s: State, weak: Config, t: State)
    requires Reachable(c, s) && GoesOn(c, s, weak, t)
    ensures 0 <= Work(weak, t) <= Work(c, s) && (t != s ==> Work(weak, t) < Work(c, s))
  {
    ReachesOn(c, s, weak, t);
    ReachableIsBase(weak, s);
    ReachesWorks(weak, s, t);
    ReachableIsBase(weak, t);
    WorkIsLeft(weak, t);
  }

  /** The environment that allows everything. */
  function Wildest(links: nat, stream: seq<byte>): Config {
    Config(links, stream, false, Anywhere)
  }

  lemma ReachesWildly(c: Config, s: State, weak: Config, t: State)
    requires GoesOn(c, s, weak, t)
    ensures Reaches(Wildest(c.links, c.stream), s, t)
  {
    var path :| IsPath(weak, path) && path[0] == s && Last(path) == t;
    RelaxedPath(weak, Wildest(c.links, c.stream), path);
  }

  lemma ReachesBase(c: Config, s: State, t: State)
    requires Base(c, s) && Reaches(c, s, t)
    ensures Base(c, t)
  {
    var path :| IsPath(c, path) && path[0] == s && Last(path) == t;
    PathBase(c, path, |path| - 1);
  }

  // ---------------------------------------------------------------- turns that change nothing

  /** The socket answers: a worker hears a number of bytes, or 0; the forwarder a number. */
  predicate IsAnswered(t: Turn) {
    match t
    case WorkerTurn(_, results) => exists k :: 0 <= k < |results| && results[k] >= 0
    case ForwarderTurn(results) => exists k :: 0 <= k < |results| && results[k] > 0
    case _ => true
  }

  lemma SplitterStuck(stream: seq<byte>, s: State, s': State)
    requires SplitterMoves(stream, s, s')
    ensures s' == s ==> s.eof && s.fin
  {}

  lemma SomethingShips(size: nat, results: seq<int>, next: nat, o: Outcome, k: nat)
    requires Ships(size, results, 0, next, o) && o == Pending && k < |results| && results[k] >= 0
    ensures Sum(results, 0, next) > 0
  {
    if k + 1 < next {
      ShipsOn(size, results, 0, next, o, k + 1);
    }
    SumGrows(results, 0, k + 1, next);
  }

  lemma SendsMove(s: State, l: nat, results: seq<int>, next: nat, o: Outcome, k: nat, s': State)
    requires l < |s.links| && s.links[l].tx.Sending? && s.links[l].tx.sentCount < PACKET_SIZE
    requires WorkerSent(s, l, results, next, o, s') && k < |results| && results[k] >= 0
    ensures s' != s
  {
    var size := PACKET_SIZE - s.links[l].tx.sentCount;
    if o == Pending {
      SomethingShips(size, results, next, o, k);
      assert |s'.links[l].wire| == |s.links[l].wire| + Min(Sum(results, 0, next), size);
    } else {
      assert !s'.links[l].tx.Sending?;
    }
  }

  lemma WorkerStuck(s: State, l: nat, results: seq<int>, s': State)
    requires l < |s.links| && WorkerMoves(s, l, results, s') && s.fin
    requires IsAnswered(WorkerTurn(l, results))
    ensures s' == s ==> s.links[l].tx.Closed?
  {
    if s.links[l].tx.Sending? {
      var next, o :| WorkerSent(s, l, results, next, o, s');
      var k :| 0 <= k < |results| && results[k] >= 0;
      SendsMove(s, l, results, next, o, k, s');
    } else if s.links[l].tx.Idle? {
      assert !s'.links[l].tx.Idle?;
    }
  }

  lemma ReceiverStuck(s: State, l: nat, s': State)
    requires l < |s.links| && ReceiverMoves(s, l, s') && s.links[l].tx.Closed?
    ensures s' == s ==> !s.links[l].open
  {
    if s.links[l].open {
      var packet: Packet :| Receives(s, l, packet, s');
      ShorterWire(s, l, packet, s');
    }
  }

  lemma ShorterWire(s: State, l: nat, packet: Packet, s': State)
    requires CanReceive(s, l) && Receives(s, l, packet, s')
    ensures s' != s
  {
    var k := Min(|s.links[l].wire|, PACKET_SIZE);
    assert |s'.links| == |s.links|;
    assert s'.links[l] == s.links[l].(wire := s.links[l].wire[k..], open := k == PACKET_SIZE);
  }

  lemma {:induction false} NothingUnsent(blocks: seq<Block>, start: Progress, results: seq<int>, n: nat)
    requires n <= |results| && IsOngoing(blocks, start)
    ensures |SendFrom(blocks, start, results, n).out| >= |start.out|
  {
    if n > 0 {
      NothingUnsent(blocks, start, results, n - 1);
    }
  }

  lemma {:induction false} SomethingSent(blocks: seq<Block>, start: Progress, results: seq<int>, k: nat, n: nat)
    requires k < n <= |results| && results[k] > 0 && IsOngoing(blocks, start) && start.count < |blocks|
    ensures |SendFrom(blocks, start, results, n).out| > |start.out|
  {
    if k < n - 1 {
      SomethingSent(blocks, start, results, k, n - 1);
    } else {
      NothingUnsent(blocks, start, results, k);
    }
  }

  lemma BatchMoves(s: State, results: seq<int>, k: nat, s': State)
    requires s.fwd.Forwarding? && ForwarderMoves(s, results, s') && k < |results| && results[k] > 0
    ensures s' != s
  {
    var start := Progress(s.fwd.count, s.fwd.bytes, []);
    if s.fwd.count < |s.fwd.batch| {
      SomethingSent(Payloads(s.fwd.batch), start, results, k, |results|);
      assert |s'.out| > |s.out|;
    } else {
      assert s'.fwd.Waiting?;
    }
  }

  lemma ForwarderStuck(s: State, results: seq<int>, s': State)
    requires ForwarderMoves(s, results, s') && IsAnswered(ForwarderTurn(results))
    ensures s' == s ==> s.fwd.Waiting? && !IsMinKey(s.queued, s.sent + 1)
  {
    if s.fwd.Forwarding? {
      var k :| 0 <= k < |results| && results[k] > 0;
      BatchMoves(s, results, k, s');
    } else if IsMinKey(s.queued, s.sent + 1) {
      assert !s'.fwd.Waiting?;
    }
  }

  /** All threads of the transmitter and all receivers have ended, and the block that is next has
      not arrived. */
  ghost predicate IsAtEnd(s: State) {
    && s.eof && s.fin && s.fwd.Waiting? && !IsMinKey(s.queued, s.sent + 1)
    && forall l :: 0 <= l < |s.links| ==> s.links[l].tx.Closed? && !s.links[l].open
  }

  /** Then no turn changes anything. */
  lemma EndIsFinal(stream: seq<byte>, s: State, t: Turn, s': State)
    requires IsAtEnd(s) && IsTurn(stream, s, t, s')
    ensures s' == s
  {}

  /** A turn of a thread that has not ended; one of the forwarder, if all the others have. */
  ghost predicate IsHelpful(s: State, t: Turn) {
    IsAnswered(t)
    && match t
       case SplitterTurn(_) => !s.eof || !s.fin
       case WorkerTurn(l, _) => s.fin && l < |s.links| && !s.links[l].tx.Closed?
       case ReceiverTurn(l, _) => l < |s.links| && s.links[l].tx.Closed? && s.links[l].open
       case ForwarderTurn(_) =>
         s.eof && s.fin && forall l :: 0 <= l < |s.links| ==> s.links[l].tx.Closed? && !s.links[l].open
  }

  lemma TurnHelps(stream: seq<byte>, s: State, t: Turn, s': State)
    requires IsTurn(stream, s, t, s') && IsHelpful(s, t)
    ensures s' == s ==> IsAtEnd(s)
    ensures t.ForwarderTurn? && s.fwd.Waiting? && s'.fwd.Waiting? ==> s' == s
    ensures s' == s ==> t.ForwarderTurn? && s.fwd.Waiting?
  {
    match t {
      case SplitterTurn(_) => SplitterStuck(stream, s, s');
      case WorkerTurn(l, results) => WorkerStuck(s, l, results, s');
      case ReceiverTurn(l, _) => ReceiverStuck(s, l, s');
      case ForwarderTurn(results) => ForwarderStuck(s, results, s');
    }
  }

  // ---------------------------------------------------------------- rounds of turns

  /** What turn `i` of a list does to the states before and after it. */
  ghost predicate TurnAt(c: Config, turns: seq<Turn>, trace: seq<State>, i: nat)
    requires i < |turns| && i + 1 < |trace|
  {
    IsTurn(c.stream, trace[i], turns[i], trace[i + 1]) && Reaches(Wildest(c.links, c.stream), trace[i], trace[i + 1])
  }

  /** The states that the first turns of a list go through, from the initial one on. */
  ghost predicate IsTrace(c: Config, turns: seq<Turn>, trace: seq<State>) {
    && 0 < |trace| <= |turns| + 1 && trace[0] == Init(c)
    && forall i {:trigger TurnAt(c, turns, trace, i)} :: 0 <= i < |trace| - 1 ==> TurnAt(c, turns, trace, i)
  }

  lemma TraceGrows(c: Config, turns: seq<Turn>, trace: seq<State>, s: State)
    requires IsTrace(c, turns, trace) && |trace| <= |turns|
    requires IsTurn(c.stream, Last(trace), turns[|trace| - 1], s) && Reaches(Wildest(c.links, c.stream), Last(trace), s)
    ensures IsTrace(c, turns, trace + [s])
  {
    forall i | 0 <= i < |trace|
      ensures TurnAt(c, turns, trace + [s], i)
    {
      if i < |trace| - 1 {
        assert TurnAt(c, turns, trace, i);
      }
    }
  }

  /** On the way no link breaks inside a packet. */
  predicate NeverInside(turns: seq<Turn>, trace: seq<State>) {
    forall i :: 0 <= i < |turns| && i + 1 < |trace| ==> !BreaksInside(trace[i], turns[i], trace[i + 1])
  }

  lemma InsideGrows(turns: seq<Turn>, trace: seq<State>, s: State)
    requires 0 < |trace| <= |turns| && NeverInside(turns, trace + [s])
    ensures NeverInside(turns, trace) && !BreaksInside(Last(trace), turns[|trace| - 1], s)
  {
    var longer := trace + [s];
    assert longer[|trace| - 1] == Last(trace) && longer[|trace|] == s;
    forall i | 0 <= i < |turns| && i + 1 < |trace|
      ensures !BreaksInside(trace[i], turns[i], trace[i + 1])
    {
      assert trace[i] == longer[i] && trace[i + 1] == longer[i + 1];
    }
  }

  datatype Thread = TheSplitter | TheWorker(l: nat) | TheReceiver(l: nat) | TheForwarder

  function ThreadOf(t: Turn): Thread {
    match t
    case SplitterTurn(_) => TheSplitter
    case WorkerTurn(l, _) => TheWorker(l)
    case ReceiverTurn(l, _) => TheReceiver(l)
    case ForwarderTurn(_) => TheForwarder
  }

  predicate IsThread(th: Thread, links: nat) {
    th.TheWorker? || th.TheReceiver? ==> th.l < links
  }

  /** Every thread has a turn between `lo` and `hi`. */
  ghost predicate GoesRound(links: nat, turns: seq<Turn>, lo: nat, hi: nat)
    requires lo <= hi <= |turns|
  {
    forall th :: IsThread(th, links) ==> exists i :: lo <= i < hi && ThreadOf(turns[i]) == th
  }

  /** Among the first `hi` turns every thread has its turn `n` times over: there are `n` stretches,
      one after the other, each with a turn of every thread. */
  ghost predicate GoRound(links: nat, turns: seq<Turn>, hi: nat, n: nat)
    requires hi <= |turns|
  {
    n > 0 ==> exists lo :: 0 <= lo <= hi && GoesRound(links, turns, lo, hi) && GoRound(links, turns, lo, n - 1)
  }

  /** Turns that go round more often go round so often, too. */
  lemma {:induction false} FewerRounds(links: nat, turns: seq<Turn>, hi: nat, n: nat, m: nat)
    requires hi <= |turns| && GoRound(links, turns, hi, n) && m <= n
    ensures GoRound(links, turns, hi, m)
    decreases m
  {
    if m > 0 {
      var lo :| 0 <= lo <= hi && GoesRound(links, turns, lo, hi) && GoRound(links, turns, lo, n - 1);
      FewerRounds(links, turns, lo, n - 1, m - 1);
    }
  }

  lemma {:induction false} TraceBase(c: Config, turns: seq<Turn>, trace: seq<State>, i: nat)
    requires IsTrace(c, turns, trace) && i < |trace|
    ensures Base(Wildest(c.links, c.stream), trace[i])
  {
    var wild := Wildest(c.links, c.stream);
    if i == 0 {
      BaseInit(wild);
    } else {
      TraceBase(c, turns, trace, i - 1);
      assert TurnAt(c, turns, trace, i - 1);
      ReachesBase(wild, trace[i - 1], trace[i]);
    }
  }

  lemma {:induction false} TraceWorks(c: Config, turns: seq<Turn>, trace: seq<State>, i: nat, j: nat)
    requires IsTrace(c, turns, trace) && i <= j < |trace|
    ensures var before, after := Work(Wildest(c.links, c.stream), trace[i]), Work(Wildest(c.links, c.stream), trace[j]);
      after <= before && (trace[j] != trace[i] ==> after < before)
  {
    if i < j {
      TraceWorks(c, turns, trace, i, j - 1);
      TraceBase(c, turns, trace, j - 1);
      assert TurnAt(c, turns, trace, j - 1);
      ReachesWorks(Wildest(c.links, c.stream), trace[j - 1], trace[j]);
    }
  }

  /** When every thread has had its turn and nothing has changed, that is the end. */
  lemma NothingLeft(c: Config, turns: seq<Turn>, trace: seq<State>, lo: nat, hi: nat)
    requires IsTrace(c, turns, trace) && lo <= hi < |trace| && GoesRound(c.links, turns, lo, hi)
    requires forall t :: t in turns ==> IsAnswered(t)
    requires forall i :: lo <= i <= hi ==> trace[i] == trace[lo]
    ensures IsAtEnd(trace[lo])
  {
    var s := trace[lo];
    TraceBase(c, turns, trace, lo);
    var i := TurnOf(c, turns, trace, lo, hi, TheSplitter);
    SplitterStuck(c.stream, s, s);
    var j := TurnOf(c, turns, trace, lo, hi, TheForwarder);
    ForwarderStuck(s, turns[j].results, s);
    forall l | 0 <= l < |s.links|
      ensures s.links[l].tx.Closed? && !s.links[l].open
    {
      var m := TurnOf(c, turns, trace, lo, hi, TheWorker(l));
      WorkerStuck(s, l, turns[m].results, s);
      var n := TurnOf(c, turns, trace, lo, hi, TheReceiver(l));
      ReceiverStuck(s, l, s);
    }
  }

  lemma TurnOf(c: Config, turns: seq<Turn>, trace: seq<State>, lo: nat, hi: nat, th: Thread) returns (i: nat)
    requires IsTrace(c, turns, trace) && lo <= hi < |trace| && GoesRound(c.links, turns, lo, hi)
    requires forall t :: t in turns ==> IsAnswered(t)
    requires forall i :: lo <= i <= hi ==> trace[i] == trace[lo]
    requires IsThread(th, c.links)
    ensures lo <= i < hi && ThreadOf(turns[i]) == th && IsAnswered(turns[i])
    ensures IsTurn(c.stream, trace[lo], turns[i], trace[lo])
  {
    i :| lo <= i < hi && ThreadOf(turns[i]) == th;
    assert TurnAt(c, turns, trace, i);
    assert trace[i] == trace[lo] && trace[i + 1] == trace[lo];
  }

  lemma {:induction false} StaysAtEnd(c: Config, turns: seq<Turn>, trace: seq<State>, i: nat, j: nat)
    requires IsTrace(c, turns, trace) && i <= j < |trace| && IsAtEnd(trace[i])
    ensures trace[j] == trace[i]
  {
    if i < j {
      StaysAtEnd(c, turns, trace, i, j - 1);
      assert TurnAt(c, turns, trace, j - 1);
      EndIsFinal(c.stream, trace[j - 1], turns[j - 1], trace[j]);
    }
  }

  /** Each time round takes some of the work away, until the end. */
  lemma OneRound(c: Config, turns: seq<Turn>, trace: seq<State>, lo: nat, hi: nat)
    requires IsTrace(c, turns, trace) && lo <= hi < |trace| && GoesRound(c.links, turns, lo, hi)
    requires forall t :: t in turns ==> IsAnswered(t)
    ensures var wild := Wildest(c.links, c.stream);
      IsAtEnd(trace[hi]) || Work(wild, trace[hi]) < Work(wild, trace[lo])
  {
    if i :| lo <= i <= hi && trace[i] != trace[lo] {
      TraceWorks(c, turns, trace, lo, i);
      TraceWorks(c, turns, trace, i, hi);
    } else {
      NothingLeft(c, turns, trace, lo, hi);
      StaysAtEnd(c, turns, trace, lo, hi);
    }
  }

  lemma {:induction false} RoundsWork(c: Config, turns: seq<Turn>, trace: seq<State>, hi: nat, n: nat)
    requires IsTrace(c, turns, trace) && hi < |trace| && GoRound(c.links, turns, hi, n)
    requires forall t :: t in turns ==> IsAnswered(t)
    ensures IsAtEnd(trace[hi]) || Work(Wildest(c.links, c.stream), trace[hi]) + n <= WorkBound(c)
  {
    if n == 0 {
      TraceWorks(c, turns, trace, 0, hi);
      InitialLinksWork(Init(c).links);
    } else {
      var lo :| 0 <= lo <= hi && GoesRound(c.links, turns, lo, hi) && GoRound(c.links, turns, lo, n - 1);
      RoundsWork(c, turns, trace, lo, n - 1);
      if IsAtEnd(trace[lo]) {
        StaysAtEnd(c, turns, trace, lo, hi);
      } else {
        OneRound(c, turns, trace, lo, hi);
      }
    }
  }

  /** With no work left everything has ended. */
  lemma NoWorkLeft(c: Config, s: State)
    requires Base(c, s) && Work(c, s) <= 0
    ensures IsAtEnd(s)
  {
    forall l | 0 <= l < |s.links|
      ensures s.links[l].tx.Closed? && !s.links[l].open
    {
      NoLinkWork(s.links, l);
    }
    assert |s.queued| == 0;
  }

  lemma {:induction false} NoLinkWork(links: seq<Link>, l: nat)
    requires l < |links| && LinksWork(links) == 0
    ensures LinkWork(links[l]) == 0
  {
    if l < |links| - 1 {
      NoLinkWork(links[..|links| - 1], l);
    }
  }

  /** Fairness is enough: when the threads have gone round as many times as any run has steps, and
      every socket has answered in every turn, everything has ended, in whatever order the turns
      came and however little each call has taken. */
  lemma EndsAfterRounds(c: Config, turns: seq<Turn>, trace: seq<State>, n: nat)
    requires IsTrace(c, turns, trace) && |trace| == |turns| + 1 && forall t :: t in turns ==> IsAnswered(t)
    requires GoRound(c.links, turns, |turns|, n) && n >= 6 * |c.stream| + 5001 + 2001 * c.links
    ensures IsAtEnd(Last(trace))
  {
    FewerRounds(c.links, turns, |turns|, n, WorkBound(c));
    RoundsWork(c, turns, trace, |turns|, WorkBound(c));
    TraceBase(c, turns, trace, |turns|);
    if !IsAtEnd(trace[|turns|]) {
      NoWorkLeft(Wildest(c.links, c.stream), trace[|turns|]);
    }
  }
}
