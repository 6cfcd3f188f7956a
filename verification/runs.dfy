/** Facts about every run of the system, in every configuration. */
module Runs {
  import opened Network
  import opened Protocol
  import Receptor

  lemma {:induction false} BaseHolds(c: Config, run: seq<State>, i: nat)
    requires IsRun(c, run) && i < |run|
    ensures Base(c, run[i])
  {
    if i == 0 {
      BaseInit(c);
    } else {
      BaseHolds(c, run, i - 1);
      assert StepAt(c, run, i - 1);
      BaseStep(c, run[i - 1], run[i]);
    }
  }

  lemma PathGrows(c: Config, path: seq<State>, a: Action)
    requires IsPath(c, path) && Enabled(c, Last(path), a)
    ensures IsPath(c, path + [Next(c, Last(path), a)])
  {
    var longer := path + [Next(c, Last(path), a)];
    forall i | 0 <= i < |longer| - 1
      ensures StepAt(c, longer, i)
    {
      if i < |path| - 1 {
        assert StepAt(c, path, i);
      }
    }
  }

  /** The environment `weak` can do everything that `c` can, and perhaps more. */
  predicate Allows(weak: Config, c: Config) {
    && weak.links == c.links && weak.stream == c.stream
    && (weak.whole ==> c.whole)
    && (c.breaks == Never || weak.breaks == c.breaks || weak.breaks == Anywhere)
  }

  /** So every path in `c` is one in `weak` too. */
  lemma RelaxedPath(c: Config, weak: Config, path: seq<State>)
    requires IsPath(c, path) && Allows(weak, c)
    ensures IsPath(weak, path)
  {
    forall i | 0 <= i < |path| - 1
      ensures StepAt(weak, path, i)
    {
      assert StepAt(c, path, i);
      var a :| Enabled(c, path[i], a) && path[i + 1] == Next(c, path[i], a);
      RelaxedStep(c, weak, path[i], a);
    }
  }

  /** And every run. */
  lemma RelaxedRun(c: Config, weak: Config, run: seq<State>)
    requires IsRun(c, run) && Allows(weak, c)
    ensures IsRun(weak, run)
  {
    RelaxedPath(c, weak, run);
  }

  lemma RelaxedStep(c: Config, weak: Config, s: State, a: Action)
    requires Enabled(c, s, a) && Allows(weak, c)
    ensures Enabled(weak, s, a) && Next(weak, s, a) == Next(c, s, a)
  {}

  lemma OutStep(c: Config, s: State, s': State)
    requires Step(c, s, s')
    ensures s.out <= s'.out
  {
    var a :| Enabled(c, s, a) && s' == Next(c, s, a);
    if !IsForwarderAction(a) {
      ForwarderKept(c, s, a);
    }
  }

  lemma PrefixTransitive(u: seq<byte>, v: seq<byte>, w: seq<byte>)
    requires u <= v <= w
    ensures u <= w
  {}

  /** What has been sent is never taken back. */
  lemma {:induction false} OutGrows(c: Config, run: seq<State>, i: nat, j: nat)
    requires IsRun(c, run) && i <= j < |run|
    ensures run[i].out <= run[j].out
  {
    if i < j {
      OutGrows(c, run, i, j - 1);
      assert StepAt(c, run, j - 1);
      OutStep(c, run[j - 1], run[j]);
      PrefixTransitive(run[i].out, run[j - 1].out, run[j].out);
    }
  }

  /** The counters, in every run of every configuration: whole blocks and bytes sent agree,
      and between two batches the pool's counter is the number of blocks sent. */
  lemma Counters(c: Config, run: seq<State>, i: nat)
    requires IsRun(c, run) && i < |run|
    ensures var s := run[i];
      && |s.out| == BLOCKSIZE * (s.sent + 1) + (if s.fwd.Forwarding? then s.fwd.bytes else 0)
      && (s.fwd.Waiting? ==> s.sentMinSeq == s.sent + 1 && |s.out| == BLOCKSIZE * s.sentMinSeq)
      && (s.fwd.Forwarding? ==> s.sentMinSeq == s.sent + 1 - s.fwd.count)
  {
    BaseHolds(c, run, i);
  }

  /** However long the stream and the run, no more than 65536 blocks are ever delivered:
      stamps have 16 bits, and the forwarder compares them with a counter that does not wrap. */
  lemma DeliveryCeiling(c: Config, run: seq<State>, i: nat)
    requires IsRun(c, run) && i < |run|
    ensures run[i].sent < STAMPS && |run[i].out| <= BLOCKSIZE * STAMPS
  {
    BaseHolds(c, run, i);
    var f := run[i].fwd;
    assert f.Forwarding? && f.bytes > 0 ==> f.batch[f.count].key == run[i].sent + 1;
  }

  /** Step `j` of the run puts `x` into the heap. */
  ghost predicate QueuesAt(run: seq<State>, j: nat, x: Item)
    requires j + 1 < |run|
  {
    run[j + 1].queued == run[j].queued + multiset{x}
  }

  /** Every number up to `availMinSeq` arrived in some packet: a step of the run queued it. */
  lemma {:induction false} AvailWasQueued(c: Config, run: seq<State>, i: nat, k: nat)
    requires IsRun(c, run) && i < |run| && 1 <= k <= run[i].availMinSeq
    ensures exists j, x: Item :: 0 <= j < i && x.key == k && QueuesAt(run, j, x)
  {
    if i > 0 {
      if k <= run[i - 1].availMinSeq {
        AvailWasQueued(c, run, i - 1, k);
      } else {
        assert StepAt(c, run, i - 1);
        var x := AvailStep(c, run[i - 1], run[i]);
        assert x.key == k && QueuesAt(run, i - 1, x);
      }
    }
  }

  lemma OnlyArrivals(c: Config, s: State, a: Action)
    requires Enabled(c, s, a) && Next(c, s, a).availMinSeq != s.availMinSeq
    ensures a.RxEnqueue? || a.RxEof?
    ensures var raw := s.links[a.l].raw;
      var s' := Enqueued(s, if a.RxEnqueue? then raw else raw + a.junk);
      Next(c, s, a).queued == s'.queued && Next(c, s, a).availMinSeq == s'.availMinSeq
  {}

  lemma AvailStep(c: Config, s: State, s': State) returns (x: Item)
    requires Step(c, s, s') && s'.availMinSeq > s.availMinSeq
    ensures x.key == s'.availMinSeq == s.availMinSeq + 1 && s'.queued == s.queued + multiset{x}
  {
    var a :| Enabled(c, s, a) && s' == Next(c, s, a);
    OnlyArrivals(c, s, a);
    var raw := s.links[a.l].raw;
    x := Unframe(HOST, if a.RxEnqueue? then raw else raw + a.junk);
  }

  lemma ArrivalStep(c: Config, s: State, s': State, x: Item)
    requires Step(c, s, s') && s'.queued == s.queued + multiset{x}
    ensures s'.availMinSeq == Receptor.NextAvail(s.availMinSeq, x.key)
  {
    var a :| Enabled(c, s, a) && s' == Next(c, s, a);
    assert s'.queued[x] == s.queued[x] + 1;
    if a.RxEnqueue? || a.RxEof? {
      Arrives(c, s, a, x);
    } else if !a.Fill? {
      HeapKept(c, s, a);
    }
  }

  lemma Arrives(c: Config, s: State, a: Action, x: Item)
    requires Enabled(c, s, a) && (a.RxEnqueue? || a.RxEof?) && Next(c, s, a).queued == s.queued + multiset{x}
    ensures Next(c, s, a).availMinSeq == Receptor.NextAvail(s.availMinSeq, x.key)
  {
    var raw := s.links[a.l].raw;
    if a.RxEnqueue? || raw != [] {
      var it := Unframe(HOST, if a.RxEnqueue? then raw else raw + a.junk);
      assert Next(c, s, a).queued[x] == (s.queued + multiset{it})[x];
      assert x == it;
    }
  }

  lemma AvailGrowsStep(c: Config, s: State, s': State)
    requires Step(c, s, s')
    ensures s'.availMinSeq >= s.availMinSeq
  {
    var a :| Enabled(c, s, a) && s' == Next(c, s, a);
    if s'.availMinSeq != s.availMinSeq {
      OnlyArrivals(c, s, a);
    }
  }

  lemma {:induction false} AvailGrows(c: Config, run: seq<State>, i: nat, j: nat)
    requires IsRun(c, run) && i <= j < |run|
    ensures run[i].availMinSeq <= run[j].availMinSeq
  {
    if i < j {
      AvailGrows(c, run, i, j - 1);
      assert StepAt(c, run, j - 1);
      AvailGrowsStep(c, run[j - 1], run[j]);
    }
  }

  /** Before state `i`, packets with the numbers 1, 2, ... arrived one after the other, in the
      given steps. */
  ghost predicate ArrivedInOrder(run: seq<State>, i: nat, steps: seq<nat>)
    requires i < |run|
  {
    forall m :: 0 <= m < |steps| ==>
      && steps[m] < i && (m > 0 ==> steps[m - 1] < steps[m])
      && exists x: Item :: x.key == m + 1 && QueuesAt(run, steps[m], x)
  }

  /** `avail_min_seq` is the length of the longest such series: it has reached `k` exactly when
      1 to `k` have arrived in order, whatever has arrived in between. */
  lemma AvailIsLongest(c: Config, run: seq<State>, i: nat, k: nat)
    requires IsRun(c, run) && i < |run|
    ensures run[i].availMinSeq >= k <==> exists steps :: |steps| == k && ArrivedInOrder(run, i, steps)
  {
    if run[i].availMinSeq >= k {
      var steps := ArrivalsBefore(c, run, i, k);
    }
    if steps :| |steps| == k && ArrivedInOrder(run, i, steps) {
      ArrivalsCount(c, run, i, steps);
    }
  }

  lemma {:induction false} ArrivalsBefore(c: Config, run: seq<State>, i: nat, k: nat) returns (steps: seq<nat>)
    requires IsRun(c, run) && i < |run| && run[i].availMinSeq >= k
    ensures |steps| == k && ArrivedInOrder(run, i, steps)
  {
    if k == 0 {
      steps := [];
    } else if run[i - 1].availMinSeq >= k {
      steps := ArrivalsBefore(c, run, i - 1, k);
    } else {
      assert StepAt(c, run, i - 1);
      var x := AvailStep(c, run[i - 1], run[i]);
      var before := ArrivalsBefore(c, run, i - 1, k - 1);
      steps := before + [i - 1];
      assert x.key == k && QueuesAt(run, i - 1, x);
    }
  }

  lemma {:induction false} ArrivalsCount(c: Config, run: seq<State>, i: nat, steps: seq<nat>)
    requires IsRun(c, run) && i < |run| && ArrivedInOrder(run, i, steps)
    ensures run[i].availMinSeq >= |steps|
  {
    if steps == [] {
      BaseHolds(c, run, i);
    } else {
      var k := |steps| - 1;
      var j := steps[k];
      var x: Item :| x.key == k + 1 && QueuesAt(run, j, x);
      assert ArrivedInOrder(run, j, steps[..k]) by {
        forall m | 0 <= m < k
          ensures steps[m] < j
        {
          StepsIncrease(run, i, steps, m, k);
        }
      }
      ArrivalsCount(c, run, j, steps[..k]);
      assert StepAt(c, run, j);
      ArrivalStep(c, run[j], run[j + 1], x);
      AvailGrows(c, run, j + 1, i);
    }
  }

  lemma {:induction false} StepsIncrease(run: seq<State>, i: nat, steps: seq<nat>, m: nat, n: nat)
    requires i < |run| && ArrivedInOrder(run, i, steps) && m < n < |steps|
    ensures steps[m] < steps[n]
  {
    if m < n - 1 {
      StepsIncrease(run, i, steps, m, n - 1);
    }
  }

  /** Once the finish flag is up, nothing is appended any more. */
  lemma {:induction false} FinIsFinal(c: Config, run: seq<State>, i: nat, j: nat)
    requires IsRun(c, run) && i <= j < |run| && run[i].fin
    ensures run[j].fin && run[j].buffer == run[i].buffer && run[j].getInd >= run[i].getInd
  {
    if i < j {
      FinIsFinal(c, run, i, j - 1);
      BaseHolds(c, run, j - 1);
      assert StepAt(c, run, j - 1);
    }
  }

  /** Finishing is safe: a worker that may close because the stream is finished leaves
      nothing behind, then and at any later time. */
  lemma FinishingIsSafe(c: Config, run: seq<State>, i: nat, l: nat, j: nat)
    requires IsRun(c, run) && i <= j < |run| && Enabled(c, run[i], TxFinish(l))
    ensures |run[j].buffer| == run[j].getInd == NumBlocks(c.stream)
    ensures forall k :: 0 <= k < |run[j].buffer| ==> run[j].buffer[k] == BlockAt(c.stream, k)
  {
    BaseHolds(c, run, i);
    FinIsFinal(c, run, i, j);
    BaseHolds(c, run, j);
  }

  // ---------------------------------------------------------------- termination

  /** The work left in a link: bytes still to be sent, on the wire, or in the receiver's
      buffer, and the two threads that have not ended. */
  function LinkWork(lk: Link): nat {
    (match lk.tx
     case Idle => 1
     case Sending(_, sentCount) => if sentCount <= PACKET_SIZE then 1 + 4 * (PACKET_SIZE - sentCount) else 1
     case Closed => 0)
    + 3 * |lk.wire| + 2 * |lk.raw| + if lk.open then 2 * BLOCKSIZE else 0
  }

  function LinksWork(links: seq<Link>): nat {
    if links == [] then 0 else LinksWork(links[..|links| - 1]) + LinkWork(links[|links| - 1])
  }

  lemma {:induction false} LinkUpdate(links: seq<Link>, l: nat, lk: Link)
    requires l < |links|
    ensures LinksWork(links[l := lk]) == LinksWork(links) - LinkWork(links[l]) + LinkWork(lk)
  {
    var n := |links| - 1;
    var links' := links[l := lk];
    if l < n {
      LinkUpdate(links[..n], l, lk);
      assert links'[..n] == links[..n][l := lk];
    } else {
      assert links'[..n] == links[..n];
    }
  }

  lemma {:induction false} InitialLinksWork(links: seq<Link>)
    requires forall l :: 0 <= l < |links| ==> links[l] == Link(Idle, [], [], true)
    ensures LinksWork(links) == (2 * BLOCKSIZE + 1) * |links|
  {
    if links != [] {
      InitialLinksWork(links[..|links| - 1]);
    }
  }

  /** The work left before the links: bytes to be read and blocks to be claimed. */
  function SplitterWork(c: Config, s: State): int {
    6 * (|c.stream| - s.taken) + 5 * |s.raw| + (if s.eof then 0 else 5 * BLOCKSIZE) + (if s.fin then 0 else 1)
    + (4 * PACKET_SIZE + 1) * (|s.buffer| - s.getInd)
  }

  function ForwarderWork(f: Forwarder): int {
    match f
    case Waiting => 0
    case Forwarding(batch, count, bytes) => 1 + BLOCKSIZE * (|batch| - count) - bytes
  }

  /** The work left in the whole system, weighed by the stages still to pass. */
  function Work(c: Config, s: State): int {
    SplitterWork(c, s) + LinksWork(s.links) + PACKET_SIZE * |s.queued| + ForwarderWork(s.fwd)
  }

  function WorkBound(c: Config): nat {
    6 * |c.stream| + 5 * BLOCKSIZE + 1 + (2 * BLOCKSIZE + 1) * c.links
  }

  lemma WorkIsLeft(c: Config, s: State)
    requires Base(c, s)
    ensures Work(c, s) >= 0
  {}

  lemma SplitterWorks(c: Config, s: State, a: Action)
    requires SplitterOk(c, s) && Enabled(c, s, a)
    requires a.SplitRecv? || a.SplitAppend? || a.SplitEof? || a.SplitFin?
    ensures Work(c, Next(c, s, a)) < Work(c, s)
  {}

  lemma FillWorks(c: Config, s: State, batch: seq<Item>)
    requires Enabled(c, s, Fill(batch))
    ensures Work(c, Next(c, s, Fill(batch))) < Work(c, s)
  {
    BatchSize(s.queued, batch);
    TakenWork(c, s, batch, s.queued - multiset(batch));
  }

  lemma TakenWork(c: Config, s: State, batch: seq<Item>, rest: multiset<Item>)
    requires s.fwd.Waiting? && batch != [] && |rest| == |s.queued| - |batch|
    ensures Work(c, s.(queued := rest, fwd := Forwarding(batch, 0, 0))) < Work(c, s)
  {}

  lemma BatchSize(q: multiset<Item>, batch: seq<Item>)
    requires multiset(batch) <= q
    ensures |q - multiset(batch)| == |q| - |batch|
  {
    assert q == multiset(batch) + (q - multiset(batch));
  }

  lemma ForwarderWorks(c: Config, s: State, a: Action)
    requires ForwarderOk(s) && Enabled(c, s, a) && (a.FwdSend? || a.FwdDone?)
    ensures Work(c, Next(c, s, a)) < Work(c, s)
  {
    assert SplitterWork(c, Next(c, s, a)) == SplitterWork(c, s);
  }

  /** What a change of one link takes away or adds; the rest is for the caller to compare. */
  lemma OneLinkWork(c: Config, s: State, a: Action)
    requires Enabled(c, s, a) && IsLinkAction(a)
    ensures var s' := Next(c, s, a);
      LinksWork(s'.links) == LinksWork(s.links) - LinkWork(s.links[a.l]) + LinkWork(s'.links[a.l])
  {
    var s' := Next(c, s, a);
    LinkUpdate(s.links, a.l, s'.links[a.l]);
    assert s'.links == s.links[a.l := s'.links[a.l]];
  }

  lemma ClaimWorks(c: Config, s: State, a: Action)
    requires Enabled(c, s, a) && a.Claim?
    ensures Work(c, Next(c, s, a)) < Work(c, s)
  {
    OneLinkWork(c, s, a);
    var s' := Next(c, s, a);
    assert LinkWork(s'.links[a.l]) == LinkWork(s.links[a.l]) + 4 * PACKET_SIZE;
    assert SplitterWork(c, s') == SplitterWork(c, s) - (4 * PACKET_SIZE + 1);
  }

  lemma WorkerWorks(c: Config, s: State, a: Action)
    requires Base(c, s) && Enabled(c, s, a) && (a.TxSend? || a.TxSendZero? || a.TxFinish?)
    ensures Work(c, Next(c, s, a)) < Work(c, s)
  {
    OneLinkWork(c, s, a);
    var s' := Next(c, s, a);
    assert LinkOk(c, s.links[a.l], AllClaimed(s));
    assert LinkWork(s'.links[a.l]) < LinkWork(s.links[a.l]);
    assert SplitterWork(c, s') == SplitterWork(c, s);
  }

  lemma RecvWorks(c: Config, s: State, a: Action)
    requires Enabled(c, s, a) && a.RxRecv?
    ensures Work(c, Next(c, s, a)) < Work(c, s)
  {
    OneLinkWork(c, s, a);
  }

  /** A packet on the heap is less work than the same packet in a receive buffer. */
  lemma ArrivedWork(c: Config, s: State, s': State)
    requires s' == s.(links := s'.links, queued := s'.queued, zero := s'.zero, availMinSeq := s'.availMinSeq)
    requires LinksWork(s'.links) + PACKET_SIZE * |s'.queued| < LinksWork(s.links) + PACKET_SIZE * |s.queued|
    ensures Work(c, s') < Work(c, s)
  {}

  lemma EmptiedWork(lk: Link, open: bool)
    requires lk.open
    ensures LinkWork(lk.(raw := [], open := open)) + 2 * |lk.raw| + (if open then 0 else 2 * BLOCKSIZE) == LinkWork(lk)
  {}

  lemma ReceivedWork(c: Config, s: State, s': State, l: nat, open: bool)
    requires s' == s.(links := s'.links, queued := s'.queued, zero := s'.zero, availMinSeq := s'.availMinSeq)
    requires l < |s.links| && s.links[l].open && s'.links == s.links[l := s.links[l].(raw := [], open := open)]
    requires if open then |s.links[l].raw| == PACKET_SIZE && |s'.queued| == |s.queued| + 1
             else |s'.queued| <= |s.queued| + if s.links[l].raw == [] then 0 else 1
    ensures Work(c, s') < Work(c, s)
  {
    var lk := s.links[l];
    LinkUpdate(s.links, l, lk.(raw := [], open := open));
    EmptiedWork(lk, open);
    ArrivedWork(c, s, s');
  }

  lemma EnqueueWorks(c: Config, s: State, l: nat)
    requires Enabled(c, s, RxEnqueue(l))
    ensures Work(c, Next(c, s, RxEnqueue(l))) < Work(c, s)
  {
    var s' := Next(c, s, RxEnqueue(l));
    assert s'.links == s.links[l := s.links[l].(raw := [], open := true)];
    ReceivedWork(c, s, s', l, true);
  }

  lemma EofWorks(c: Config, s: State, l: nat, junk: seq<byte>)
    requires Enabled(c, s, RxEof(l, junk))
    ensures Work(c, Next(c, s, RxEof(l, junk))) < Work(c, s)
  {
    var s' := Next(c, s, RxEof(l, junk));
    assert s'.links == s.links[l := s.links[l].(raw := [], open := false)];
    ReceivedWork(c, s, s', l, false);
  }

  /** Every action takes work away. */
  lemma StepWorks(c: Config, s: State, s': State)
    requires Base(c, s) && Step(c, s, s')
    ensures Work(c, s') < Work(c, s)
  {
    var a :| Enabled(c, s, a) && s' == Next(c, s, a);
    if a.Claim? {
      ClaimWorks(c, s, a);
    } else if a.TxSend? || a.TxSendZero? || a.TxFinish? {
      WorkerWorks(c, s, a);
    } else if a.RxRecv? {
      RecvWorks(c, s, a);
    } else if a.RxEnqueue? {
      EnqueueWorks(c, s, a.l);
    } else if a.RxEof? {
      EofWorks(c, s, a.l, a.junk);
    } else if a.Fill? {
      FillWorks(c, s, a.batch);
    } else if a.FwdSend? || a.FwdDone? {
      ForwarderWorks(c, s, a);
    } else {
      SplitterWorks(c, s, a);
    }
  }

  lemma {:induction false} WorkAlong(c: Config, run: seq<State>, i: nat)
    requires IsRun(c, run) && i < |run|
    ensures i + Work(c, run[i]) <= WorkBound(c)
  {
    if i == 0 {
      InitialLinksWork(Init(c).links);
    } else {
      WorkAlong(c, run, i - 1);
      BaseHolds(c, run, i - 1);
      assert StepAt(c, run, i - 1);
      StepWorks(c, run[i - 1], run[i]);
    }
  }

  /** Every run ends: it takes no more steps than a linear function of the stream's length
      and the number of links, whatever the segmentation and the interleaving. */
  lemma RunsAreBounded(c: Config, run: seq<State>)
    requires IsRun(c, run)
    ensures |run| - 1 <= 6 * |c.stream| + 5001 + 2001 * c.links
  {
    WorkAlong(c, run, |run| - 1);
    BaseHolds(c, run, |run| - 1);
    WorkIsLeft(c, Last(run));
  }
}
