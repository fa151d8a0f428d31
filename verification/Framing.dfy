/** The length headers of MTProto packets, and the frames that begin with them. */
module Framing {
  import opened Bytes
  import opened Options

  const MAX_PACKET_PAYLOAD := 16 * 1024 * 1024

  datatype Protocol = Abridged | Intermediate | PaddedIntermediate

  function Tag(protocol: Protocol): seq<byte> {
    match protocol
    case Abridged => [0xef, 0xef, 0xef, 0xef]
    case Intermediate => [0xee, 0xee, 0xee, 0xee]
    case PaddedIntermediate => [0xdd, 0xdd, 0xdd, 0xdd]
  }

  /** The top bit of the first byte asks for a quick acknowledgement and is no part of the length. */
  function HeaderLen(first: byte, protocol: Protocol): nat {
    if protocol.Abridged? && first % 128 != 127 then 1 else 4
  }

  /** Header and payload length, or nothing yet for a partial header. */
  function PacketLength(header: seq<byte>, protocol: Protocol): Result<Option<(nat, nat)>, ()> {
    if |header| == 0 then Ok(None)
    else
      var size := HeaderLen(header[0], protocol);
      if |header| < size then Ok(None)
      else
        var payload :=
          if protocol.Abridged? && size == 1 then (header[0] as int % 128) * 4
          else if protocol.Abridged? then FromLe(header[1..4]) * 4
          else FromLe(header[..4]) % 0x8000_0000;
        if payload == 0 || payload > MAX_PACKET_PAYLOAD then Err(()) else Ok(Some((size, payload)))
  }

  /** The header a sender writes for a payload of this length. */
  function Header(length: nat, protocol: Protocol, quickAck: bool): seq<byte> {
    match protocol
    case Abridged =>
      var ack := if quickAck then 128 else 0;
      if length / 4 < 127 then [length / 4 + ack] else [127 + ack] + ToLe(length / 4, 3)
    case _ => ToLe(length + (if quickAck then 0x8000_0000 else 0), 4)
  }

  /** Lengths a protocol can express. */
  predicate Expressible(length: nat, protocol: Protocol) {
    0 < length <= MAX_PACKET_PAYLOAD && (protocol.Abridged? ==> length % 4 == 0)
  }

  lemma Powers()
    ensures Pow256(3) == 0x100_0000 && Pow256(4) == 0x1_0000_0000
    ensures Pow256(2) == 0x1_0000 && Pow256(8) == 0x1_0000_0000_0000_0000
  {
    assert Pow256(1) == 256;
    assert Pow256(2) == 65536;
    assert Pow256(4) == 0x1_0000_0000;
    assert Pow256(6) == 0x1_0000_0000_0000;
  }

  lemma AbridgedRoundTrip(length: nat, quickAck: bool, rest: seq<byte>)
    requires Expressible(length, Abridged)
    ensures var h := Header(length, Abridged, quickAck);
      |h| > 0 && PacketLength(h + rest, Abridged) == Ok(Some((|h|, length)))
  {
    var h := Header(length, Abridged, quickAck);
    Powers();
    LeRoundTrip(length / 4, 3);
    if length / 4 >= 127 {
      assert (h + rest)[1..4] == ToLe(length / 4, 3);
    }
  }

  /** A header says how long it is and how long the packet is, whatever follows it. */
  lemma HeaderRoundTrip(length: nat, protocol: Protocol, quickAck: bool, rest: seq<byte>)
    requires Expressible(length, protocol)
    ensures var h := Header(length, protocol, quickAck);
      |h| > 0 && PacketLength(h + rest, protocol) == Ok(Some((|h|, length)))
  {
    if protocol.Abridged? {
      AbridgedRoundTrip(length, quickAck, rest);
    } else {
      var h := Header(length, protocol, quickAck);
      Powers();
      LeRoundTrip(length + (if quickAck then 0x8000_0000 else 0), 4);
      assert (h + rest)[..4] == h;
    }
  }

  /** The verdict depends on the header alone, and a shorter prefix of the header has none. */
  lemma SelfDelimiting(stream: seq<byte>, protocol: Protocol)
    requires |stream| > 0 && |stream| >= HeaderLen(stream[0], protocol)
    ensures var size := HeaderLen(stream[0], protocol);
      && PacketLength(stream, protocol) == PacketLength(stream[..size], protocol) != Ok(None)
      && (forall n: nat | n < size :: PacketLength(stream[..n], protocol) == Ok(None))
  {
    var size := HeaderLen(stream[0], protocol);
    if size == 4 {
      assert stream[..size][1..4] == stream[1..4];
      assert stream[..size][..4] == stream[..4];
    }
  }

  /** The bit by which a header asks for a quick acknowledgement. */
  predicate AsksForAck(header: seq<byte>, protocol: Protocol) {
    if protocol.Abridged? then |header| > 0 && header[0] >= 128 else |header| >= 4 && header[3] >= 128
  }

  /** An accepted header is the one a sender writes, save that a short length may be spelled in full. */
  lemma HeaderUnique(stream: seq<byte>, protocol: Protocol)
    requires PacketLength(stream, protocol).Ok? && PacketLength(stream, protocol).value.Some?
    ensures var (size, length) := PacketLength(stream, protocol).value.value;
      && Expressible(length, protocol)
      && (stream[..size] == Header(length, protocol, AsksForAck(stream, protocol))
          || (protocol.Abridged? && size == 4 && length < 4 * 127))
  {
    if protocol.Abridged? {
      AbridgedUnique(stream);
    } else {
      Powers();
      LeInverse(stream[..4]);
      TopByte(stream[..4]);
      hide FromLe, ToLe;
      assert FromLe(stream[..4]) ==
        FromLe(stream[..4]) % 0x8000_0000 + (if AsksForAck(stream, protocol) then 0x8000_0000 else 0);
    }
  }

  lemma AbridgedUnique(stream: seq<byte>)
    requires PacketLength(stream, Abridged).Ok? && PacketLength(stream, Abridged).value.Some?
    ensures var (size, length) := PacketLength(stream, Abridged).value.value;
      && Expressible(length, Abridged)
      && ((size == 4 && length < 4 * 127) || stream[..size] == Header(length, Abridged, AsksForAck(stream, Abridged)))
  {
    if HeaderLen(stream[0], Abridged) == 4 {
      LeInverse(stream[1..4]);
      hide FromLe, ToLe;
      assert stream[..4] == [stream[0]] + stream[1..4];
    }
  }

  /** The highest of four bytes says whether the number they spell has its top bit. */
  lemma TopByte(b: seq<byte>)
    requires |b| == 4
    ensures FromLe(b) >= 0x8000_0000 <==> b[3] >= 128
  {
    assert FromLe(b[3..]) == b[3];
    assert b[1..][1..] == b[2..] && b[2..][1..] == b[3..];
    assert FromLe(b) == b[0] + 256 * FromLe(b[1..]);
    assert FromLe(b[1..]) == b[1] + 256 * FromLe(b[2..]);
    assert FromLe(b[2..]) == b[2] + 256 * FromLe(b[3..]);
  }

  /** No packet an accepted header announces is too long for one outgoing frame. */
  lemma AcceptedFits(stream: seq<byte>, protocol: Protocol)
    requires PacketLength(stream, protocol).Ok? && PacketLength(stream, protocol).value.Some?
    ensures var (size, length) := PacketLength(stream, protocol).value.value;
      size == HeaderLen(stream[0], protocol) && 0 < size + length <= MAX_PACKET_PAYLOAD + 4
  {
  }
}
