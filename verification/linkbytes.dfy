/** What one action does to the bytes in transit on one link. */
module LinkBytes {
  import opened Network
  import opened Protocol
  import opened Ledger

  lemma FirstFrame(stream: seq<byte>, idxs: seq<nat>)
    requires idxs != []
    ensures Frames(HOST, ItemsAt(stream, idxs))
         == Frame(HOST, ItemAt(stream, idxs[0])) + Frames(HOST, ItemsAt(stream, idxs[1..]))
  {
    assert ItemsAt(stream, idxs)[1..] == ItemsAt(stream, idxs[1..]);
  }

  lemma LastFrame(stream: seq<byte>, idxs: seq<nat>, i: nat)
    ensures Frames(HOST, ItemsAt(stream, idxs + [i]))
         == Frames(HOST, ItemsAt(stream, idxs)) + Frame(HOST, ItemAt(stream, i))
  {
    var it := ItemAt(stream, i);
    assert ItemsAt(stream, idxs + [i]) == ItemsAt(stream, idxs) + [it];
    FramesConcat(HOST, ItemsAt(stream, idxs), [it]);
    assert Frames(HOST, [it]) == Frame(HOST, it) + [];
  }

  lemma ClaimedOnLink(c: Config, lk: Link, idxs: seq<nat>, i: nat)
    requires LinkHolds(c, lk, idxs) && lk.tx.Idle?
    ensures LinkHolds(c, lk.(tx := Sending(Frame(HOST, ItemAt(c.stream, i)), 0)), idxs + [i])
  {
    LastFrame(c.stream, idxs, i);
    assert InTransit(lk) == lk.raw + lk.wire;
  }

  /** Sending and receiving move bytes along a link without changing their order. */
  lemma SendMoves(lk: Link, k: nat)
    requires lk.tx.Sending? && lk.tx.sentCount + k <= PACKET_SIZE
    ensures var m := lk.tx.sentCount + k;
      var wire := lk.wire + lk.tx.packet[lk.tx.sentCount..m];
      var tx := if m < PACKET_SIZE then lk.tx.(sentCount := m) else Idle;
      InTransit(lk.(tx := tx, wire := wire)) == InTransit(lk)
  {}

  lemma RecvMoves(lk: Link, k: nat)
    requires k <= |lk.wire|
    ensures InTransit(lk.(wire := lk.wire[k..], raw := lk.raw + lk.wire[..k])) == InTransit(lk)
  {
    assert lk.wire == lk.wire[..k] + lk.wire[k..];
  }

  /** A full receive buffer is exactly the oldest packet the link owes. */
  lemma FullBuffer(c: Config, lk: Link, idxs: seq<nat>)
    requires LinkHolds(c, lk, idxs) && |lk.raw| == PACKET_SIZE
    ensures idxs != [] && lk.raw == Frame(HOST, ItemAt(c.stream, idxs[0]))
    ensures Unframe(HOST, lk.raw) == ItemAt(c.stream, idxs[0])
    ensures LinkHolds(c, lk.(raw := []), idxs[1..])
  {
    FirstFrame(c.stream, idxs);
    var w, it := InTransit(lk), ItemAt(c.stream, idxs[0]);
    assert lk.raw == w[..PACKET_SIZE] == Frame(HOST, it);
    assert InTransit(lk.(raw := [])) == w[PACKET_SIZE..];
    UnframeFrame(HOST, HOST, it);
  }

  /** A link that breaks before the first byte of a packet loses that packet and no more. */
  lemma BreakLosesLast(c: Config, lk: Link, idxs: seq<nat>)
    requires LinkHolds(c, lk, idxs) && lk.tx.Sending? && lk.tx.sentCount == 0
    ensures idxs != [] && LinkHolds(c, lk.(tx := Closed), idxs[..|idxs| - 1])
  {
    var n, w := |idxs| - 1, InTransit(lk);
    assert |w| == PACKET_SIZE * |idxs|;
    LastFrame(c.stream, idxs[..n], idxs[n]);
    assert idxs[..n] + [idxs[n]] == idxs;
    assert InTransit(lk.(tx := Closed)) == w[..|w| - PACKET_SIZE];
  }

  /** A receiver that sees the end of its link has no part of a packet in its buffer. */
  lemma NothingTruncated(c: Config, lk: Link, idxs: seq<nat>)
    requires LinkHolds(c, lk, idxs) && lk.tx.Closed? && lk.wire == [] && |lk.raw| < PACKET_SIZE
    ensures lk.raw == [] && idxs == []
  {
    assert |InTransit(lk)| == PACKET_SIZE * |idxs|;
  }
}
