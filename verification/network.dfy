/** The wire format shared by both proxies (commons/network/network.h), and the
    cut of a byte stream into blocks. */
module Network {
  newtype byte = x: int | 0 <= x < 256

  const BLOCKSIZE: nat := 1000
  const HEADER_SIZE: nat := 2
  const PACKET_SIZE: nat := BLOCKSIZE + HEADER_SIZE
  const STAMPS: nat := 0x1_0000 // number of values of an unsigned short

  type Block = b: seq<byte> | |b| == BLOCKSIZE witness seq(BLOCKSIZE, _ => 0)
  type Packet = p: seq<byte> | |p| == PACKET_SIZE witness seq(PACKET_SIZE, _ => 0)
  type Stamp = v: nat | v < STAMPS

  /** The header is copied in host byte order at both ends. */
  datatype ByteOrder = LittleEndian | BigEndian

  /** The byte order of both proxies; nothing below depends on which it is. */
  const HOST: ByteOrder := LittleEndian

  /** What the receiver makes of one packet, and what the heap holds. */
  datatype Item = Item(key: Stamp, payload: Block)

  /** The cast to unsigned short that stamps block number `ind`. */
  function StampOf(ind: nat): Stamp {
    ind % STAMPS
  }

  function Frame(order: ByteOrder, it: Item): Packet {
    var lo, hi := (it.key % 256) as byte, (it.key / 256) as byte;
    (match order case LittleEndian => [lo, hi] case BigEndian => [hi, lo]) + it.payload
  }

  function Unframe(order: ByteOrder, p: Packet): Item {
    var key := match order
      case LittleEndian => p[0] as int + 256 * p[1] as int
      case BigEndian => p[1] as int + 256 * p[0] as int;
    Item(key, p[HEADER_SIZE..])
  }

  /** A packet survives the link exactly when both hosts agree on the byte order, or
      the two header bytes happen to be equal. The payload always survives. */
  lemma UnframeFrame(tx: ByteOrder, rx: ByteOrder, it: Item)
    ensures Unframe(rx, Frame(tx, it)).payload == it.payload
    ensures Unframe(rx, Frame(tx, it)) == it <==> tx == rx || it.key % 257 == 0
  {
    var lo, hi := it.key % 256, it.key / 256;
    assert Frame(tx, it)[HEADER_SIZE..] == it.payload;
    assert it.key == 257 * hi + (lo - hi);
  }

  /** What is where on the wire: the header takes the first two bytes, low byte first or last,
      and the payload follows unchanged. */
  lemma FrameLayout(order: ByteOrder, it: Item)
    ensures var p := Frame(order, it);
      && p[HEADER_SIZE..] == it.payload
      && match order
         case LittleEndian => p[0] as int == it.key % 256 && p[1] as int == it.key / 256
         case BigEndian => p[0] as int == it.key / 256 && p[1] as int == it.key % 256
  {
    assert Frame(order, it)[HEADER_SIZE..] == it.payload;
  }

  /** The bytes that a list of packets puts on one link. */
  function Frames(order: ByteOrder, items: seq<Item>): (w: seq<byte>)
    ensures |w| == PACKET_SIZE * |items|
  {
    if items == [] then [] else Frame(order, items[0]) + Frames(order, items[1..])
  }

  /** The packets that a receiver cuts out of a byte stream, and the bytes left over. */
  function Parse(order: ByteOrder, w: seq<byte>): (seq<Item>, seq<byte>)
    decreases |w|
  {
    if |w| < PACKET_SIZE then ([], w)
    else
      var (items, rest) := Parse(order, w[PACKET_SIZE..]);
      ([Unframe(order, w[..PACKET_SIZE])] + items, rest)
  }

  lemma SeqAssociative(a: seq<byte>, b: seq<byte>, c: seq<byte>)
    ensures a + b + c == a + (b + c)
  {}

  lemma {:induction false} FramesConcat(order: ByteOrder, a: seq<Item>, b: seq<Item>)
    ensures Frames(order, a + b) == Frames(order, a) + Frames(order, b)
  {
    if a == [] {
      assert a + b == b;
    } else {
      FramesConcat(order, a[1..], b);
      assert (a + b)[0] == a[0] && (a + b)[1..] == a[1..] + b;
      SeqAssociative(Frame(order, a[0]), Frames(order, a[1..]), Frames(order, b));
    }
  }

  /** A receiver cuts off one packet and goes on with the rest. */
  lemma ParseOne(order: ByteOrder, it: Item, w: seq<byte>, rest: (seq<Item>, seq<byte>))
    requires Parse(order, w) == rest
    ensures Parse(order, Frame(order, it) + w) == ([it] + rest.0, rest.1)
  {
    var v := Frame(order, it) + w;
    assert v[..PACKET_SIZE] == Frame(order, it) && v[PACKET_SIZE..] == w;
    UnframeFrame(order, order, it);
  }

  /** Framing round trip, with a tail that is not yet a whole packet. */
  lemma {:induction false} ParseFrames(order: ByteOrder, items: seq<Item>, tail: seq<byte>)
    requires |tail| < PACKET_SIZE
    ensures Parse(order, Frames(order, items) + tail) == (items, tail)
  {
    if items == [] {
      assert Frames(order, items) + tail == tail;
    } else {
      var w := Frames(order, items[1..]);
      ParseFrames(order, items[1..], tail);
      ParseOne(order, items[0], w + tail, (items[1..], tail));
      SeqAssociative(Frame(order, items[0]), w, tail);
      assert items == [items[0]] + items[1..];
    }
  }

  // ---------------------------------------------------------------- blocks of a stream

  function NumBlocks(stream: seq<byte>): nat {
    (|stream| + BLOCKSIZE - 1) / BLOCKSIZE
  }

  /** Block `i` of a stream: its bytes, followed by zeros once the stream has ended. */
  function BlockAt(stream: seq<byte>, i: nat): Block {
    seq(BLOCKSIZE, j requires 0 <= j < BLOCKSIZE =>
      if BLOCKSIZE * i + j < |stream| then stream[BLOCKSIZE * i + j] else 0)
  }

  /** What a complete delivery looks like: the stream, zero-filled to a whole block. */
  function Padded(stream: seq<byte>): seq<byte> {
    stream + seq(BLOCKSIZE * NumBlocks(stream) - |stream|, _ => 0)
  }

  lemma PaddedBlock(stream: seq<byte>, i: nat)
    requires i < NumBlocks(stream)
    ensures BLOCKSIZE * (i + 1) <= |Padded(stream)|
    ensures Padded(stream)[..BLOCKSIZE * (i + 1)] == Padded(stream)[..BLOCKSIZE * i] + BlockAt(stream, i)
  {
    var p := Padded(stream);
    assert p[BLOCKSIZE * i..BLOCKSIZE * (i + 1)] == BlockAt(stream, i);
  }
}
