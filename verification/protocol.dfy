/** The whole system as a state machine: one splitter, any number of workers with one FIFO
    link each, one receiver a link, and one forwarder. Every action is one atomic critical
    section or one socket call; steps that change nothing (failed calls that are retried,
    timeouts, a forwarder that finds nothing to take) are not listed. */
module Protocol {
  import opened Network
  import opened Batch
  import Splitter
  import Receptor

  /** Where a worker's `send` may return 0, which closes its link. */
  datatype Breaks = Never | BetweenPackets | Anywhere

  /** The environment: `stream` is what the splitter's connection delivers before it ends;
      with `whole`, the destination takes a whole block in each call. */
  datatype Config = Config(links: nat, stream: seq<byte>, whole: bool, breaks: Breaks)

  datatype Worker = Idle | Sending(packet: Packet, sentCount: nat) | Closed

  datatype Link = Link(tx: Worker, wire: seq<byte>, raw: seq<byte>, open: bool)

  datatype Forwarder = Waiting | Forwarding(batch: seq<Item>, count: nat, bytes: nat)

  /** The item with key 0 that was queued first. No key is smaller, and an item only ever
      moves up past larger ones, so the array keeps it on top until it is taken. */
  datatype Zero = NoneYet | Oldest(item: Item)

  datatype State = State(
    taken: nat, raw: seq<byte>, eof: bool, fin: bool,
    buffer: seq<Block>, getInd: nat,
    links: seq<Link>,
    queued: multiset<Item>, zero: Zero, availMinSeq: int, sentMinSeq: int,
    fwd: Forwarder, sent: int, out: seq<byte>)

  function Init(c: Config): State {
    State(0, [], false, false, [], 0,
          seq(c.links, _ => Link(Idle, [], [], true)),
          multiset{}, NoneYet, 0, 0, Waiting, -1, [])
  }

  datatype Action =
    | SplitRecv(k: nat)
    | SplitAppend
    | SplitEof
    | SplitFin
    | Claim(l: nat)
    | TxSend(l: nat, k: nat)
    | TxSendZero(l: nat)
    | TxFinish(l: nat)
    | RxRecv(l: nat, k: nat)
    | RxEnqueue(l: nat)
    | RxEof(l: nat, junk: seq<byte>)
    | Fill(batch: seq<Item>)
    | FwdSend(k: nat)
    | FwdDone

  predicate MayBreak(breaks: Breaks, sentCount: nat) {
    breaks == Anywhere || (breaks == BetweenPackets && sentCount == 0)
  }

  /** Among the items with key 0 the first batch can only begin with the oldest. Later ties
      may be broken in any way. */
  predicate KeepsTop(s: State, first: Item) {
    s.sent == -1 && s.zero.Oldest? ==> first == s.zero.item
  }

  ghost predicate Enabled(c: Config, s: State, a: Action) {
    match a
    case SplitRecv(k) =>
      !s.eof && 0 < k && |s.raw| + k <= BLOCKSIZE && s.taken + k <= |c.stream|
    case SplitAppend => !s.eof && |s.raw| == BLOCKSIZE
    case SplitEof => !s.eof && |s.raw| < BLOCKSIZE && s.taken == |c.stream|
    case SplitFin => s.eof && !s.fin
    case Claim(l) => l < |s.links| && s.links[l].tx.Idle? && s.getInd < |s.buffer|
    case TxSend(l, k) =>
      l < |s.links| && s.links[l].tx.Sending? && 0 < k && s.links[l].tx.sentCount + k <= PACKET_SIZE
    case TxSendZero(l) =>
      l < |s.links| && s.links[l].tx.Sending? && MayBreak(c.breaks, s.links[l].tx.sentCount)
    case TxFinish(l) =>
      l < |s.links| && s.links[l].tx.Idle? && s.getInd >= |s.buffer| && s.fin
    case RxRecv(l, k) =>
      l < |s.links| && s.links[l].open && 0 < k <= |s.links[l].wire| && |s.links[l].raw| + k <= PACKET_SIZE
    case RxEnqueue(l) => l < |s.links| && s.links[l].open && |s.links[l].raw| == PACKET_SIZE
    case RxEof(l, junk) =>
      && l < |s.links| && s.links[l].open && s.links[l].tx.Closed? && s.links[l].wire == []
      && |s.links[l].raw| < PACKET_SIZE && |s.links[l].raw| + |junk| == PACKET_SIZE
    case Fill(batch) =>
      && s.fwd.Waiting? && batch != [] && IsBatch(s.queued, s.sent, batch, s.queued - multiset(batch))
      && KeepsTop(s, batch[0])
    case FwdSend(k) =>
      && s.fwd.Forwarding? && s.fwd.count < |s.fwd.batch|
      && 0 < k && s.fwd.bytes + k <= BLOCKSIZE && (c.whole ==> k == BLOCKSIZE)
    case FwdDone => s.fwd.Forwarding? && s.fwd.count == |s.fwd.batch|
  }

  /** The lock-protected insertion of one received packet. */
  function Enqueued(s: State, packet: Packet): State {
    var it := Unframe(HOST, packet);
    s.(queued := s.queued + multiset{it},
       zero := if s.zero.NoneYet? && it.key == 0 then Oldest(it) else s.zero,
       availMinSeq := Receptor.NextAvail(s.availMinSeq, it.key))
  }

  ghost function Next(c: Config, s: State, a: Action): State
    requires Enabled(c, s, a)
  {
    match a
    case SplitRecv(k) =>
      s.(taken := s.taken + k, raw := s.raw + c.stream[s.taken..s.taken + k])
    case SplitAppend => s.(buffer := s.buffer + [Splitter.ZeroFilled(s.raw)], raw := [])
    case SplitEof =>
      s.(eof := true, raw := [], buffer := if s.raw == [] then s.buffer else s.buffer + [Splitter.ZeroFilled(s.raw)])
    case SplitFin => s.(fin := true)
    case Claim(l) =>
      var packet := Frame(HOST, Splitter.StampedAt(s.buffer, s.getInd));
      s.(getInd := s.getInd + 1, links := s.links[l := s.links[l].(tx := Sending(packet, 0))])
    case TxSend(l, k) =>
      var lk := s.links[l];
      var sentCount := lk.tx.sentCount + k;
      var wire := lk.wire + lk.tx.packet[lk.tx.sentCount..sentCount];
      var tx := if sentCount < PACKET_SIZE then lk.tx.(sentCount := sentCount) else Idle;
      s.(links := s.links[l := lk.(tx := tx, wire := wire)])
    case TxSendZero(l) => s.(links := s.links[l := s.links[l].(tx := Closed)])
    case TxFinish(l) => s.(links := s.links[l := s.links[l].(tx := Closed)])
    case RxRecv(l, k) =>
      var lk := s.links[l];
      s.(links := s.links[l := lk.(wire := lk.wire[k..], raw := lk.raw + lk.wire[..k])])
    case RxEnqueue(l) =>
      Enqueued(s.(links := s.links[l := s.links[l].(raw := [])]), s.links[l].raw)
    case RxEof(l, junk) =>
      var lk := s.links[l];
      var s' := s.(links := s.links[l := lk.(raw := [], open := false)]);
      if lk.raw == [] then s' else Enqueued(s', lk.raw + junk)
    case Fill(batch) =>
      s.(queued := s.queued - multiset(batch), fwd := Forwarding(batch, 0, 0))
    case FwdSend(k) =>
      var f := s.fwd;
      var out := s.out + f.batch[f.count].payload[..k];
      if f.bytes + k == BLOCKSIZE
      then s.(out := out, sent := s.sent + 1, fwd := Forwarding(f.batch, f.count + 1, 0))
      else s.(out := out, fwd := f.(bytes := f.bytes + k))
    case FwdDone => s.(fwd := Waiting, sentMinSeq := s.sentMinSeq + |s.fwd.batch|)
  }

  ghost predicate Step(c: Config, s: State, s': State) {
    exists a :: Enabled(c, s, a) && s' == Next(c, s, a)
  }

  /** A list of states, each next one a step away. */
  ghost predicate IsPath(c: Config, path: seq<State>) {
    && path != []
    && forall i {:trigger StepAt(c, path, i)} :: 0 <= i < |path| - 1 ==> StepAt(c, path, i)
  }

  /** A run: a path from the initial state. */
  ghost predicate IsRun(c: Config, run: seq<State>) {
    IsPath(c, run) && run[0] == Init(c)
  }

  ghost predicate StepAt(c: Config, run: seq<State>, i: nat)
    requires i + 1 < |run|
  {
    Step(c, run[i], run[i + 1])
  }

  function Last(run: seq<State>): State
    requires run != []
  {
    run[|run| - 1]
  }

  ghost predicate Reachable(c: Config, s: State) {
    exists run :: IsRun(c, run) && Last(run) == s
  }

  /** No action is possible any more. */
  ghost predicate Quiescent(c: Config, s: State) {
    forall a :: !Enabled(c, s, a)
  }

  /** What the destination has received is the beginning of the zero-filled stream. */
  ghost predicate IsFaithful(c: Config, s: State) {
    s.out <= Padded(c.stream)
  }

  // ---------------------------------------------------------------- every configuration

  /** All blocks have been appended and claimed. */
  predicate AllClaimed(s: State) {
    s.fin && s.getInd == |s.buffer|
  }

  ghost predicate SplitterOk(c: Config, s: State) {
    && s.taken <= |c.stream| && |s.raw| <= BLOCKSIZE && s.getInd <= |s.buffer|
    && (forall i :: 0 <= i < |s.buffer| ==> s.buffer[i] == BlockAt(c.stream, i))
    && (s.fin ==> s.eof)
    && (if s.eof then s.raw == [] && s.taken == |c.stream| && |s.buffer| == NumBlocks(c.stream)
        else s.taken == BLOCKSIZE * |s.buffer| + |s.raw| && s.raw == c.stream[BLOCKSIZE * |s.buffer|..s.taken])
  }

  ghost predicate LinkOk(c: Config, lk: Link, allClaimed: bool) {
    && |lk.raw| <= PACKET_SIZE
    && (lk.tx.Sending? ==> lk.tx.sentCount < PACKET_SIZE)
    && (!lk.open ==> lk.tx.Closed? && lk.wire == [] && lk.raw == [])
    && (c.breaks == Never && lk.tx.Closed? ==> allClaimed)
  }

  ghost predicate ForwarderOk(s: State) {
    var (count, bytes) := if s.fwd.Waiting? then (0, 0) else (s.fwd.count, s.fwd.bytes);
    && -1 <= s.sent < STAMPS && 0 <= s.availMinSeq < STAMPS
    && s.sentMinSeq == s.sent + 1 - count
    && |s.out| == BLOCKSIZE * (s.sent + 1) + bytes
    && (s.fwd.Forwarding? ==>
      && s.fwd.batch != [] && count <= |s.fwd.batch| && bytes < BLOCKSIZE && (count == |s.fwd.batch| ==> bytes == 0)
      && forall j :: 0 <= j < |s.fwd.batch| ==> s.fwd.batch[j].key == s.sentMinSeq + j)
  }

  /** The oldest item with key 0 is queued until a batch has been taken. */
  predicate ZeroOk(s: State) {
    s.zero.Oldest? ==> s.zero.item.key == 0 && (s.sent == -1 && s.fwd.Waiting? ==> s.zero.item in s.queued)
  }

  /** A destination that takes whole blocks never leaves one half taken. */
  predicate NoneHalfTaken(c: Config, s: State) {
    c.whole && s.fwd.Forwarding? ==> s.fwd.bytes == 0
  }

  ghost predicate Base(c: Config, s: State) {
    && SplitterOk(c, s)
    && |s.links| == c.links
    && (forall l :: 0 <= l < |s.links| ==> LinkOk(c, s.links[l], AllClaimed(s)))
    && ForwarderOk(s)
    && ZeroOk(s) && NoneHalfTaken(c, s)
  }

  lemma AppendKeepsBlocks(c: Config, s: State, end: nat)
    requires SplitterOk(c, s) && !s.eof && s.raw != []
    requires |s.raw| == BLOCKSIZE || s.taken == |c.stream|
    ensures Splitter.ZeroFilled(s.raw) == BlockAt(c.stream, |s.buffer|)
  {
    Splitter.BlockOfSlice(c.stream, |s.buffer|, s.taken);
  }

  predicate IsSplitterAction(a: Action) {
    a.SplitRecv? || a.SplitAppend? || a.SplitEof? || a.SplitFin?
  }

  predicate IsWorkerAction(a: Action) {
    a.Claim? || a.TxSend? || a.TxSendZero? || a.TxFinish?
  }

  predicate IsReceiverAction(a: Action) {
    a.RxRecv? || a.RxEnqueue? || a.RxEof?
  }

  predicate IsForwarderAction(a: Action) {
    a.Fill? || a.FwdSend? || a.FwdDone?
  }

  /** The actions that work on the link `a.l`. */
  predicate IsLinkAction(a: Action) {
    IsWorkerAction(a) || IsReceiverAction(a)
  }

  /** What each thread leaves alone. */
  lemma OtherLinksKept(c: Config, s: State, a: Action)
    requires Enabled(c, s, a)
    ensures var s' := Next(c, s, a);
      if IsLinkAction(a) then a.l < |s.links| == |s'.links| && s'.links == s.links[a.l := s'.links[a.l]]
      else s'.links == s.links
  {}

  lemma SplitterKept(c: Config, s: State, a: Action)
    requires Enabled(c, s, a) && !IsSplitterAction(a)
    ensures var s' := Next(c, s, a);
      && s'.taken == s.taken && s'.raw == s.raw && s'.eof == s.eof && s'.fin == s.fin && s'.buffer == s.buffer
      && s'.getInd == s.getInd + if a.Claim? then 1 else 0
  {}

  lemma ForwarderKept(c: Config, s: State, a: Action)
    requires Enabled(c, s, a) && !IsForwarderAction(a)
    ensures var s' := Next(c, s, a);
      s'.fwd == s.fwd && s'.sent == s.sent && s'.sentMinSeq == s.sentMinSeq && s'.out == s.out
  {}

  lemma HeapKept(c: Config, s: State, a: Action)
    requires Enabled(c, s, a) && !a.RxEnqueue? && !a.RxEof? && !a.Fill?
    ensures var s' := Next(c, s, a);
      s'.queued == s.queued && s'.availMinSeq == s.availMinSeq && s'.zero == s.zero
  {}

  lemma AppendStep(c: Config, s: State)
    requires Enabled(c, s, SplitAppend) && SplitterOk(c, s)
    ensures SplitterOk(c, Next(c, s, SplitAppend))
  {
    AppendKeepsBlocks(c, s, s.taken);
  }

  lemma ResidueStep(c: Config, s: State)
    requires Enabled(c, s, SplitEof) && SplitterOk(c, s)
    ensures SplitterOk(c, Next(c, s, SplitEof))
  {
    if s.raw != [] {
      AppendKeepsBlocks(c, s, s.taken);
    }
  }

  lemma SplitterStep(c: Config, s: State, a: Action)
    requires Enabled(c, s, a) && SplitterOk(c, s)
    ensures SplitterOk(c, Next(c, s, a))
  {
    if a.SplitAppend? {
      AppendStep(c, s);
    } else if a.SplitEof? {
      ResidueStep(c, s);
    } else if !IsSplitterAction(a) {
      SplitterKept(c, s, a);
    }
  }

  lemma ClaimedForGood(c: Config, s: State, a: Action)
    requires Enabled(c, s, a) && SplitterOk(c, s) && AllClaimed(s)
    ensures AllClaimed(Next(c, s, a))
  {}

  lemma WorkerStep(c: Config, s: State, a: Action)
    requires Enabled(c, s, a) && IsWorkerAction(a) && SplitterOk(c, s)
    requires LinkOk(c, s.links[a.l], AllClaimed(s))
    ensures a.l < |Next(c, s, a).links| && LinkOk(c, Next(c, s, a).links[a.l], AllClaimed(s))
  {}

  lemma ReceiverStep(c: Config, s: State, a: Action)
    requires Enabled(c, s, a) && IsReceiverAction(a)
    requires LinkOk(c, s.links[a.l], AllClaimed(s))
    ensures a.l < |Next(c, s, a).links| && LinkOk(c, Next(c, s, a).links[a.l], AllClaimed(s))
  {}

  lemma LinksStep(c: Config, s: State, a: Action)
    requires Enabled(c, s, a) && Base(c, s)
    ensures var s' := Next(c, s, a);
      |s'.links| == c.links && forall l :: 0 <= l < |s'.links| ==> LinkOk(c, s'.links[l], AllClaimed(s'))
  {
    if AllClaimed(s) {
      ClaimedForGood(c, s, a);
    }
    OtherLinksKept(c, s, a);
    if IsWorkerAction(a) {
      WorkerStep(c, s, a);
    } else if IsReceiverAction(a) {
      ReceiverStep(c, s, a);
    }
  }

  lemma ArrivalKeepsOk(s: State, packet: Packet)
    requires ForwarderOk(s) && ZeroOk(s)
    ensures ForwarderOk(Enqueued(s, packet)) && ZeroOk(Enqueued(s, packet))
  {}

  lemma EnqueueKeepsOk(c: Config, s: State, l: nat)
    requires Enabled(c, s, RxEnqueue(l)) && ForwarderOk(s) && ZeroOk(s)
    ensures ForwarderOk(Next(c, s, RxEnqueue(l))) && ZeroOk(Next(c, s, RxEnqueue(l)))
  {
    var s' := Next(c, s, RxEnqueue(l));
    ArrivalKeepsOk(s.(links := s'.links), s.links[l].raw);
  }

  lemma EndKeepsOk(c: Config, s: State, l: nat, junk: seq<byte>)
    requires Enabled(c, s, RxEof(l, junk)) && ForwarderOk(s) && ZeroOk(s)
    ensures ForwarderOk(Next(c, s, RxEof(l, junk))) && ZeroOk(Next(c, s, RxEof(l, junk)))
  {
    var s' := Next(c, s, RxEof(l, junk));
    if s.links[l].raw != [] {
      ArrivalKeepsOk(s.(links := s'.links), s.links[l].raw + junk);
    }
  }

  lemma FillKeepsOk(c: Config, s: State, batch: seq<Item>)
    requires Enabled(c, s, Fill(batch)) && ForwarderOk(s) && ZeroOk(s)
    ensures ForwarderOk(Next(c, s, Fill(batch))) && ZeroOk(Next(c, s, Fill(batch)))
  {}

  lemma SendingStep(c: Config, s: State, a: Action)
    requires Enabled(c, s, a) && (a.FwdSend? || a.FwdDone?) && ForwarderOk(s) && ZeroOk(s)
    ensures ForwarderOk(Next(c, s, a)) && ZeroOk(Next(c, s, a))
  {
    assert s.fwd.batch[0].key == s.sentMinSeq;
  }

  lemma ForwarderStep(c: Config, s: State, a: Action)
    requires Enabled(c, s, a) && ForwarderOk(s) && ZeroOk(s)
    ensures ForwarderOk(Next(c, s, a)) && ZeroOk(Next(c, s, a))
  {
    if a.RxEnqueue? {
      EnqueueKeepsOk(c, s, a.l);
    } else if a.RxEof? {
      EndKeepsOk(c, s, a.l, a.junk);
    } else if a.Fill? {
      FillKeepsOk(c, s, a.batch);
    } else if IsForwarderAction(a) {
      SendingStep(c, s, a);
    } else {
      ForwarderKept(c, s, a);
      HeapKept(c, s, a);
    }
  }

  lemma WholeStep(c: Config, s: State, a: Action)
    requires Enabled(c, s, a) && NoneHalfTaken(c, s)
    ensures NoneHalfTaken(c, Next(c, s, a))
  {
    if !IsForwarderAction(a) {
      ForwarderKept(c, s, a);
    }
  }

  lemma BaseStep(c: Config, s: State, s': State)
    requires Base(c, s) && Step(c, s, s')
    ensures Base(c, s')
  {
    var a :| Enabled(c, s, a) && s' == Next(c, s, a);
    SplitterStep(c, s, a);
    LinksStep(c, s, a);
    ForwarderStep(c, s, a);
    WholeStep(c, s, a);
  }

  lemma BaseInit(c: Config)
    ensures Base(c, Init(c))
  {}
}
