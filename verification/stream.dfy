/** The file source (stream/stream.c): sending a file in blocks over partial writes. */
module Stream {
  import opened Network
  import opened Sockets

  /** Where the block of a file ends that byte `w` is in. */
  function BlockEnd(length: nat, w: nat): (end: nat)
    requires w <= length
    ensures w <= end <= length && end <= w + BLOCKSIZE && (end == w <==> w == length)
  {
    if length <= BLOCKSIZE then length
    else if w < BLOCKSIZE then BLOCKSIZE
    else BLOCKSIZE + BlockEnd(length - BLOCKSIZE, w - BLOCKSIZE)
  }

  /** The bytes of block number `i` all have the same end. */
  lemma {:induction false} BlockEnds(length: nat, i: nat, w: nat)
    requires BLOCKSIZE * i <= w < length && w < BLOCKSIZE * (i + 1)
    ensures BlockEnd(length, w) == Min(BLOCKSIZE * (i + 1), length)
  {
    if i > 0 {
      BlockEnds(length - BLOCKSIZE, i - 1, w - BLOCKSIZE);
    }
  }

  /** What a call offers when `w` bytes have been written: the rest of the block. */
  function Offered(length: nat, w: nat): nat
    requires w <= length
  {
    BlockEnd(length, w) - w
  }

  /** The bytes of a file that the first `n` calls write. */
  function FileBytes(length: nat, results: seq<int>, n: nat): (w: nat)
    requires n <= |results|
    ensures w <= length
  {
    if n == 0 then 0
    else var w := FileBytes(length, results, n - 1); w + Accepted(results[n - 1], Offered(length, w))
  }

  /** A file that has been written stays as it is. */
  lemma {:induction false} WrittenForGood(length: nat, results: seq<int>, m: nat, n: nat)
    requires m <= n <= |results| && FileBytes(length, results, m) == length
    ensures FileBytes(length, results, n) == length
  {
    if m < n {
      WrittenForGood(length, results, m, n - 1);
    }
  }

  /** No answer exceeds what its call offers. */
  ghost predicate AreOffered(length: nat, results: seq<int>, n: nat)
    requires n <= |results|
  {
    forall k {:trigger results[k]} :: 0 <= k < n ==> results[k] <= Offered(length, FileBytes(length, results, k))
  }

  /** Then what is written is the sum of the answers. */
  lemma {:induction false} WrittenIsSum(length: nat, results: seq<int>, n: nat)
    requires n <= |results| && AreOffered(length, results, n)
    ensures FileBytes(length, results, n) == Sum(results, 0, n)
  {
    if n > 0 {
      WrittenIsSum(length, results, n - 1);
      assert results[n - 1] <= Offered(length, FileBytes(length, results, n - 1));
    }
  }

  /** Call `k` takes all that it offers, or nothing. */
  ghost predicate IsFull(length: nat, results: seq<int>, k: nat)
    requires k < |results|
  {
    results[k] <= 0 || results[k] >= Offered(length, FileBytes(length, results, k))
  }

  ghost predicate AreFull(length: nat, results: seq<int>) {
    forall k {:trigger IsFull(length, results, k)} :: 0 <= k < |results| ==> IsFull(length, results, k)
  }

  lemma FullWrite(length: nat, w: nat, i: nat, result: int)
    requires w == Min(BLOCKSIZE * i, length) && (result <= 0 || result >= Offered(length, w))
    ensures w + Accepted(result, Offered(length, w)) == Min(BLOCKSIZE * (i + if result > 0 then 1 else 0), length)
  {
    if w < length {
      BlockEnds(length, i, w);
    }
  }

  /** When every call does, each that takes something writes a block, until the file ends. */
  lemma {:induction false} FullWrites(length: nat, results: seq<int>, n: nat)
    requires n <= |results| && AreFull(length, results)
    ensures FileBytes(length, results, n) == Min(BLOCKSIZE * Successes(results, n), length)
  {
    if n > 0 {
      FullWrites(length, results, n - 1);
      assert IsFull(length, results, n - 1);
      FullWrite(length, FileBytes(length, results, n - 1), Successes(results, n - 1), results[n - 1]);
    }
  }

  /** However little it takes, a call that succeeds writes at least one byte. */
  lemma {:induction false} WritesAdvance(length: nat, results: seq<int>, n: nat)
    requires n <= |results|
    ensures FileBytes(length, results, n) >= Min(Successes(results, n), length)
  {
    if n > 0 {
      WritesAdvance(length, results, n - 1);
    }
  }

  /** The first `n` calls all find something left to write. */
  ghost predicate NoneWasted(length: nat, results: seq<int>, n: nat)
    requires n <= |results|
  {
    forall k {:trigger IsNeeded(length, results, k)} :: 0 <= k < n ==> IsNeeded(length, results, k)
  }

  ghost predicate IsNeeded(length: nat, results: seq<int>, k: nat)
    requires k < |results|
  {
    FileBytes(length, results, k) < length
  }

  /** The block from byte `start` on ends at `end`. */
  ghost predicate IsBlock(length: nat, start: nat, end: nat) {
    start < end <= length && forall w :: start <= w < end ==> BlockEnd(length, w) == end
  }

  lemma NextBlock(length: nat, i: nat)
    requires BLOCKSIZE * i < length
    ensures IsBlock(length, BLOCKSIZE * i, Min(BLOCKSIZE * (i + 1), length))
  {
    forall w | BLOCKSIZE * i <= w < Min(BLOCKSIZE * (i + 1), length)
      ensures BlockEnd(length, w) == Min(BLOCKSIZE * (i + 1), length)
    {
      BlockEnds(length, i, w);
    }
  }

  lemma WrittenOnward(file: seq<byte>, start: nat, block: seq<byte>, m: nat, k: nat)
    requires start + |block| <= |file| && m + k <= |block| && block == file[start..start + |block|]
    ensures file[..start + m] + block[m..m + k] == file[..start + m + k]
  {}

  /** Reads a part of the file into the buffer. */
  method ReadFile(file: seq<byte>, start: nat, end: nat, buff: array<byte>)
    requires start <= end <= |file| && end - start <= buff.Length
    modifies buff
    ensures buff[..end - start] == file[start..end]
  {
    forall k | 0 <= k < end - start {
      buff[k] := file[start + k];
    }
  }

  /** Reads one block of the file and writes it, after `before`. */
  method WriteBlock(file: seq<byte>, start: nat, end: nat, results: seq<int>, from: nat,
                    thrBuff: array<byte>, before: seq<byte>)
    returns (tempCount: nat, calls: nat, written: seq<byte>)
    requires IsBlock(|file|, start, end) && end - start <= thrBuff.Length && before == file[..start]
    requires from <= |results| && FileBytes(|file|, results, from) == start && NoneWasted(|file|, results, from)
    modifies thrBuff
    ensures calls <= |results| && NoneWasted(|file|, results, calls)
    ensures start + tempCount <= end && (start + tempCount < end ==> calls == |results|)
    ensures FileBytes(|file|, results, calls) == start + tempCount && written == file[..start + tempCount]
  {
    ReadFile(file, start, end, thrBuff);
    ghost var block := thrBuff[..];
    var capacity := end - start;
    tempCount, calls, written := 0, from, before;
    while tempCount < capacity
      invariant calls <= |results| && tempCount <= capacity && thrBuff[..] == block
      invariant NoneWasted(|file|, results, calls)
      invariant FileBytes(|file|, results, calls) == start + tempCount && written == file[..start + tempCount]
      decreases |results| - calls
    {
      if calls == |results| {
        return;
      }
      var amount := Accepted(results[calls], capacity - tempCount);
      WrittenOnward(file, start, thrBuff[..capacity], tempCount, amount);
      written := written + thrBuff[..capacity][tempCount..tempCount + amount];
      tempCount, calls := tempCount + amount, calls + 1;
    }
  }

  /** What comes of the answers used so far, once the file has been written or no answer is left. */
  lemma WrittenWhen(file: seq<byte>, results: seq<int>, calls: nat)
    requires calls <= |results| && (calls == |results| || FileBytes(|file|, results, calls) == |file|)
    ensures var w := FileBytes(|file|, results, calls);
      && w == FileBytes(|file|, results, |results|)
      && (AreOffered(|file|, results, calls) ==> w == Sum(results, 0, calls))
      && (AreFull(|file|, results) ==> w == Min(BLOCKSIZE * Successes(results, |results|), |file|))
      && (AreFull(|file|, results) && Successes(results, |results|) >= NumBlocks(file) ==> w == |file|)
      && (Successes(results, |results|) >= |file| ==> w == |file|)
  {
    if FileBytes(|file|, results, calls) == |file| {
      WrittenForGood(|file|, results, calls, |results|);
    }
    if AreOffered(|file|, results, calls) {
      WrittenIsSum(|file|, results, calls);
    }
    if AreFull(|file|, results) {
      FullWrites(|file|, results, |results|);
    }
    WritesAdvance(|file|, results, |results|);
  }

  /** Writes a whole file, block by block; a write that fails is retried. `results` is what
      the socket answers; the method stops early only when no further answer is given. */
  method StreamFile(file: seq<byte>, results: seq<int>) returns (written: seq<byte>, calls: nat)
    ensures calls <= |results| && (written == file || calls == |results|) && NoneWasted(|file|, results, calls)
    ensures written == file[..FileBytes(|file|, results, calls)]
    ensures AreOffered(|file|, results, calls) ==> |written| == Sum(results, 0, calls)
    ensures AreFull(|file|, results) && Successes(results, |results|) >= NumBlocks(file) ==> written == file
    ensures Successes(results, |results|) >= |file| ==> written == file
  {
    written, calls := [], 0;
    var byteCount := 0;
    var thrBuff := new byte[BLOCKSIZE];
    ghost var i := 0;
    while byteCount < |file|
      invariant calls <= |results| && 0 <= byteCount <= |file| && written == file[..byteCount]
      invariant NoneWasted(|file|, results, calls)
      invariant byteCount == Min(BLOCKSIZE * i, |file|) == FileBytes(|file|, results, calls)
      decreases |file| - byteCount
    {
      var capacity := if byteCount + BLOCKSIZE < |file| then BLOCKSIZE else |file| - byteCount;
      NextBlock(|file|, i);
      var tempCount;
      tempCount, calls, written :=
        WriteBlock(file, byteCount, byteCount + capacity, results, calls, thrBuff, written);
      if tempCount < capacity {
        WrittenWhen(file, results, calls);
        return;
      }
      byteCount, i := byteCount + tempCount, i + 1;
    }
    WrittenWhen(file, results, calls);
  }
}
