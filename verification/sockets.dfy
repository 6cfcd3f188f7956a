/** What the socket calls of both proxies do with bytes. How much one call moves is up to
    the network and is a parameter of every method that uses one. */
module Sockets {
  import opened Network

  /** The bytes a socket takes in one call that offers `want`; none if the call fails. */
  function Accepted(result: int, want: nat): (k: nat)
    ensures k <= want
  {
    if result <= 0 then 0 else if result < want then result else want
  }

  /** What the answers from `from` up to but not including `to` take, if nothing limits them. */
  function Sum(results: seq<int>, from: nat, to: nat): nat
    requires from <= to <= |results|
  {
    if from == to then 0
    else Sum(results, from, to - 1) + if results[to - 1] > 0 then results[to - 1] else 0
  }

  lemma {:induction false} SumGrows(results: seq<int>, from: nat, mid: nat, to: nat)
    requires from <= mid <= to <= |results|
    ensures Sum(results, from, mid) <= Sum(results, from, to)
  {
    if mid < to {
      SumGrows(results, from, mid, to - 1);
    }
  }

  /** The number of calls, among the first `n`, that take something. */
  function Successes(results: seq<int>, n: nat): nat
    requires n <= |results|
  {
    if n == 0 then 0 else Successes(results, n - 1) + if results[n - 1] > 0 then 1 else 0
  }

  /** Every call that takes anything takes a whole block. */
  ghost predicate AreWhole(results: seq<int>) {
    forall i :: 0 <= i < |results| ==> results[i] <= 0 || results[i] >= BLOCKSIZE
  }

  function Min(a: nat, b: nat): nat {
    if a < b then a else b
  }

  /** The bytes one `recv` yields: at least one and at most `want` while any are left, and
      none once the peer has closed. */
  function Received(left: nat, want: nat, size: nat): (n: nat)
    requires want >= 1
    ensures n <= left && n <= want && (n == 0 <==> left == 0)
  {
    var most := if left < want then left else want;
    if most <= 1 || size >= most then most else if size == 0 then 1 else size
  }

  /** How a connection answers `recv` at each offset: the calls that fail before one
      succeeds, and what that one yields at most. */
  datatype Schedule = Schedule(fails: nat -> nat, sizes: nat -> nat)

  /** The receive loop of both proxies: collects `want` bytes from offset `pos` of what
      arrives, or what is left when the peer closes first; a call that fails is repeated. The
      buffer starts out with arbitrary contents and keeps them where nothing was received. */
  method ReceiveUpTo(wire: seq<byte>, pos: nat, want: nat, calls: Schedule) returns (raw: array<byte>, recvCount: nat)
    requires pos <= |wire|
    ensures fresh(raw) && raw.Length == want
    ensures recvCount == if |wire| - pos < want then |wire| - pos else want
    ensures raw[..recvCount] == wire[pos..pos + recvCount]
  {
    raw := new byte[want];
    recvCount := 0;
    var failed := 0;
    while recvCount < want
      invariant recvCount <= want && pos + recvCount <= |wire|
      invariant forall k :: 0 <= k < recvCount ==> raw[k] == wire[pos + k]
      decreases want - recvCount, calls.fails(pos + recvCount) - failed
    {
      var at := pos + recvCount;
      if failed < calls.fails(at) {
        failed := failed + 1;
      } else {
        var numbytes := Received(|wire| - at, want - recvCount, calls.sizes(at));
        if numbytes == 0 {
          break;
        }
        forall k | 0 <= k < numbytes {
          raw[recvCount + k] := wire[pos + (recvCount + k)];
        }
        recvCount, failed := recvCount + numbytes, 0;
      }
    }
  }
}
