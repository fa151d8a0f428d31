/** Between a native client and its H2 channel: packets read off the client's stream become request bodies,
    replies become framed and encrypted packets. */
module H2Bridge {
  import opened Bytes
  import opened Framing
  import opened Limits
  import opened Options
  import opened ReplyFraming
  import opened Streams
  import opened Upload

  function MostLength(protocol: Protocol): nat {
    if protocol.PaddedIntermediate? then MAX_PADDED_PACKET else MAX_PACKET
  }

  /** What a complete payload is worth as a request body. */
  function Body(payload: seq<byte>, protocol: Protocol): Option<seq<byte>> {
    var body := if protocol.PaddedIntermediate? then StripPaddedBody(payload) else Some(payload);
    if body.Some? && (|body.value| > MAX_PACKET || |body.value| % 4 != 0) then None else body
  }

  /** The first request body of a plaintext stream, and how much of the stream it took. */
  function NextBody(plain: seq<byte>, protocol: Protocol): (r: Option<(seq<byte>, nat)>)
    ensures r.Some? ==> 0 < r.value.1 <= |plain|
  {
    if |plain| == 0 then None
    else match PacketLength(plain, protocol)
      case Err(_) => None
      case Ok(None) => None
      case Ok(Some((size, length))) =>
        if length < 24 || length > MostLength(protocol) || |plain| < size + length then None
        else match Body(plain[size..size + length], protocol)
          case None => None
          case Some(body) => Some((body, size + length))
  }

  /** All request bodies of a stream, as far as they are acceptable. */
  function Bodies(plain: seq<byte>, protocol: Protocol): seq<seq<byte>>
    decreases |plain|
  {
    match NextBody(plain, protocol)
    case None => []
    case Some((body, used)) => [body] + Bodies(plain[used..], protocol)
  }

  /** How a client sends a packet. */
  function ClientFrame(m: seq<byte>, padding: seq<byte>, protocol: Protocol, quickAck: bool): seq<byte> {
    Header(|m| + |padding|, protocol, quickAck) + (m + padding)
  }

  /** Packets a native client may send: of whole words, and padded only where the protocol pads, after a
      complete MTProto packet. */
  predicate Sendable(m: seq<byte>, padding: seq<byte>, protocol: Protocol) {
    && 24 <= |m| <= MAX_PACKET && |m| % 4 == 0
    && if protocol.PaddedIntermediate? then ReplyFraming.Packet(m) && |padding| <= MostPadding(m) else padding == []
  }

  /** A payload is accepted for the body `m` exactly when a client may send `m` with the rest as padding. */
  lemma AcceptedExactly(payload: seq<byte>, m: seq<byte>, protocol: Protocol)
    ensures 24 <= |payload| <= MostLength(protocol) && Body(payload, protocol) == Some(m) <==>
      m <= payload && Sendable(m, payload[|m|..], protocol)
  {
    if protocol.PaddedIntermediate? {
      StripExactly(payload, m);
    } else {
      assert m <= payload ==> payload == m + payload[|m|..];
      assert payload == m ==> payload[|m|..] == [];
    }
  }

  lemma SendableBody(m: seq<byte>, padding: seq<byte>, protocol: Protocol)
    requires Sendable(m, padding, protocol)
    ensures Body(m + padding, protocol) == Some(m)
    ensures 24 <= |m| + |padding| <= MostLength(protocol) && Expressible(|m| + |padding|, protocol)
  {
    assert (m + padding)[..|m|] == m && (m + padding)[|m|..] == padding;
    AcceptedExactly(m + padding, m, protocol);
  }

  /** Where the header and payload that were read lie in the plaintext. */
  lemma BodyAt(plain: seq<byte>, protocol: Protocol, size: nat, length: nat)
    requires |plain| > 0 && PacketLength(plain, protocol) == Ok(Some((size, length)))
    ensures NextBody(plain, protocol) ==
      if length < 24 || length > MostLength(protocol) || |plain| < size + length then None
      else match Body(plain[size..size + length], protocol)
        case None => None
        case Some(body) => Some((body, size + length))
  {
  }

  lemma FrontBody(m: seq<byte>, padding: seq<byte>, protocol: Protocol, quickAck: bool, rest: seq<byte>)
    requires Sendable(m, padding, protocol)
    ensures var frame := ClientFrame(m, padding, protocol, quickAck);
      NextBody(frame + rest, protocol) == Some((m, |frame|)) && (frame + rest)[|frame|..] == rest
  {
    hide PacketLength, Body, NextBody, MostLength, Header, Sendable;
    SendableBody(m, padding, protocol);
    var length := |m| + |padding|;
    var h := Header(length, protocol, quickAck);
    var frame := ClientFrame(m, padding, protocol, quickAck);
    HeaderRoundTrip(length, protocol, quickAck, m + padding + rest);
    assert frame + rest == h + (m + padding + rest);
    assert (frame + rest)[|h|..|h| + length] == m + padding;
    BodyAt(frame + rest, protocol, |h|, length);
  }

  /** Every packet a client sends arrives as it was, without its padding. */
  lemma {:induction false} ClientIsHeard(
    packets: seq<(seq<byte>, seq<byte>)>, protocol: Protocol, quickAcks: seq<bool>)
    requires |quickAcks| == |packets|
    requires forall i | 0 <= i < |packets| :: Sendable(packets[i].0, packets[i].1, protocol)
    ensures Bodies(ClientFrames(packets, protocol, quickAcks), protocol) == Firsts(packets)
  {
    if |packets| > 0 {
      var (m, padding) := packets[0];
      FrontBody(m, padding, protocol, quickAcks[0], ClientFrames(packets[1..], protocol, quickAcks[1..]));
      ClientIsHeard(packets[1..], protocol, quickAcks[1..]);
      hide NextBody, Sendable, ClientFrame;
    }
  }

  function ClientFrames(packets: seq<(seq<byte>, seq<byte>)>, protocol: Protocol, quickAcks: seq<bool>): seq<byte>
    requires |quickAcks| == |packets|
  {
    if |packets| == 0 then []
    else
      ClientFrame(packets[0].0, packets[0].1, protocol, quickAcks[0])
          + ClientFrames(packets[1..], protocol, quickAcks[1..])
  }

  function Firsts(packets: seq<(seq<byte>, seq<byte>)>): seq<seq<byte>> {
    if |packets| == 0 then [] else [packets[0].0] + Firsts(packets[1..])
  }

  // ---------------------------------------------------------------- reading

  datatype Read = Got(body: seq<byte>) | Unacceptable | NoRoom

  /** The payload a header announced; room for it is reserved before it is read. */
  method ReadPayload(reader: Source, decrypt: AesCtr, length: nat) returns (payload: Option<seq<byte>>)
    requires reader.Valid()
    modifies reader`taken, decrypt`position
    ensures reader.Valid() && (payload.Some? <==> |old(reader.Left())| >= length)
    ensures payload.Some? ==>
      && reader.Left() == old(reader.Left())[length..] && decrypt.position == old(decrypt.position) + length
      && payload.value == Crypt(old(reader.Left())[..length], decrypt.keystream, old(decrypt.position))
  {
    var body := new byte[length];
    var filled := reader.ReadExact(body, 0, length);
    if !filled {
      return None;
    }
    decrypt.ApplyKeystream(body, 0, length);
    assert body[0..length] == body[..];
    return Some(body[..]);
  }

  method ReadPacket(reader: Source, decrypt: AesCtr, protocol: Protocol, ghost plain: seq<byte>) returns (r: Read)
    requires reader.Valid() && plain == Crypt(reader.Left(), decrypt.keystream, decrypt.position)
    modifies reader`taken, decrypt`position
    ensures reader.Valid()
    ensures r.Unacceptable? ==> NextBody(plain, protocol).None?
    ensures r.Got? ==>
      && NextBody(plain, protocol).Some? && NextBody(plain, protocol).value.0 == r.body
      && plain[NextBody(plain, protocol).value.1..] == Crypt(reader.Left(), decrypt.keystream, decrypt.position)
  {
    hide Crypt, Body, MostLength, NextBody;
    ghost var left, start := reader.Left(), decrypt.position;
    var header := new byte[4];
    var size, why := FillHeader(reader, decrypt, header, protocol, plain);
    if size == 0 {
      TooShort(plain, protocol);
      return Unacceptable;
    }
    SelfDelimiting(plain, protocol);
    assert header[..size] == plain[..size];
    var announced := PacketLength(header[..size], protocol);
    if announced.Err? {
      TooShort(plain, protocol);
      return Unacceptable;
    }
    var length := announced.value.value.1;
    AcceptedFits(plain, protocol);
    BodyAt(plain, protocol, size, length);
    if length < 24 || length > MostLength(protocol) {
      return Unacceptable;
    }
    var reserved: bool := *;
    if !reserved {
      return NoRoom;
    }
    var payload := ReadPayload(reader, decrypt, length);
    if payload.None? {
      return Unacceptable;
    }
    PayloadAt(left, decrypt.keystream, start, size, length);
    var body := Body(payload.value, protocol);
    if body.None? {
      return Unacceptable;
    }
    return Got(body.value);
  }

  lemma TooShort(plain: seq<byte>, protocol: Protocol)
    requires |plain| == 0 || |plain| < HeaderLen(plain[0], protocol) || PacketLength(plain, protocol).Err?
    ensures NextBody(plain, protocol).None?
  {
  }

  lemma PayloadAt(left: seq<byte>, ks: Keystream, start: nat, size: nat, length: nat)
    requires size + length <= |left|
    ensures Crypt(left[size..][..length], ks, start + size) == Crypt(left, ks, start)[size..size + length]
    ensures Crypt(left, ks, start)[size + length..] == Crypt(left[size..][length..], ks, start + size + length)
  {
  }

  /** The upload of a native client: its bodies go to the channel in order, up to the first that is not
      acceptable, or that there is no room for. */
  method UploadBodies(reader: Source, decrypt: AesCtr, protocol: Protocol) returns (bodies: seq<seq<byte>>, end: Read)
    requires reader.Valid()
    modifies reader`taken, decrypt`position
    ensures !end.Got?
    ensures var all := Bodies(Crypt(old(reader.Left()), decrypt.keystream, old(decrypt.position)), protocol);
      bodies <= all && (end.Unacceptable? ==> bodies == all)
  {
    hide NextBody, Crypt;
    ghost var rest := Crypt(reader.Left(), decrypt.keystream, decrypt.position);
    ghost var all := Bodies(rest, protocol);
    bodies := [];
    while true
      invariant reader.Valid() && rest == Crypt(reader.Left(), decrypt.keystream, decrypt.position)
      invariant all == bodies + Bodies(rest, protocol)
      decreases |rest|
    {
      end := ReadPacket(reader, decrypt, protocol, rest);
      if !end.Got? {
        return;
      }
      ghost var used := NextBody(rest, protocol).value.1;
      Associate(bodies, [end.body], Bodies(rest[used..], protocol));
      bodies, rest := bodies + [end.body], rest[used..];
    }
  }

  // ---------------------------------------------------------------- writing

  /** Frames for several replies, one after another. */
  function FrameAll(replies: seq<seq<byte>>, paddings: seq<seq<byte>>, protocol: Protocol): seq<byte>
    requires |paddings| == |replies|
  {
    if |replies| == 0 then []
    else
      var last := |replies| - 1;
      var frame := FrameReply(replies[last], paddings[last], protocol);
      FrameAll(replies[..last], paddings[..last], protocol) + if frame.Some? then frame.value else []
  }

  /** The download: however each reply is cut into parts, the client deciphers one frame after another, or the
      front of that when a write fails or a reply is not acceptable. */
  method DownloadReplies(
    writer: Sink, encrypt: AesCtr, replies: seq<seq<seq<byte>>>, bodies: seq<seq<byte>>, paddings: seq<seq<byte>>,
    protocol: Protocol, bufferSize: nat) returns (ok: bool)
    requires |replies| == |bodies| == |paddings|
    requires forall i | 0 <= i < |replies| :: Concat(replies[i]) == bodies[i] && ValidPadding(paddings[i], protocol)
    modifies writer, encrypt`position
    ensures Underway(old(writer.wire), writer.wire,
                     Crypt(FrameAll(bodies, paddings, protocol), encrypt.keystream, old(encrypt.position)))
    ensures ok ==>
      && writer.wire == old(writer.wire)
           + Crypt(FrameAll(bodies, paddings, protocol), encrypt.keystream, old(encrypt.position))
      && encrypt.position == old(encrypt.position) + |FrameAll(bodies, paddings, protocol)|
      && forall i | 0 <= i < |bodies| :: FrameReply(bodies[i], paddings[i], protocol).Some?
  {
    hide Crypt, FrameReply, ValidPadding, Underway;
    CryptNothing(encrypt.keystream, encrypt.position);
    var i := 0;
    while i < |replies|
      invariant i <= |replies|
      invariant writer.wire == old(writer.wire)
        + Crypt(FrameAll(bodies[..i], paddings[..i], protocol), encrypt.keystream, old(encrypt.position))
      invariant encrypt.position == old(encrypt.position) + |FrameAll(bodies[..i], paddings[..i], protocol)|
      invariant forall j | 0 <= j < i :: FrameReply(bodies[j], paddings[j], protocol).Some?
    {
      FrameAllStep(bodies, paddings, protocol, i);
      ok := WriteEncryptedReply(writer, encrypt, |bodies[i]|, replies[i], protocol, bufferSize, paddings[i]);
      if !ok {
        if !ValidBody(|bodies[i]|) {
          HasNoFrame(bodies[i], paddings[i], protocol);
        }
        Whole(writer.wire, []);
        assert writer.wire + [] == writer.wire;
        FrontFramed(bodies, paddings, protocol, i, old(writer.wire), writer.wire, encrypt.keystream,
            old(encrypt.position));
        return false;
      }
      CryptConcat(FrameAll(bodies[..i], paddings[..i], protocol), FrameReply(bodies[i], paddings[i], protocol).value,
                  encrypt.keystream, old(encrypt.position));
      i := i + 1;
    }
    assert bodies[..i] == bodies && paddings[..i] == paddings;
    Whole(old(writer.wire), Crypt(FrameAll(bodies, paddings, protocol), encrypt.keystream, old(encrypt.position)));
    ok := true;
  }

  lemma HasNoFrame(body: seq<byte>, padding: seq<byte>, protocol: Protocol)
    requires !ValidBody(|body|)
    ensures FrameReply(body, padding, protocol) == None
  {
  }

  lemma {:induction false} FrameAllFront(bodies: seq<seq<byte>>, paddings: seq<seq<byte>>, protocol: Protocol, i: nat)
    requires |paddings| == |bodies| && i <= |bodies|
    ensures FrameAll(bodies[..i], paddings[..i], protocol) <= FrameAll(bodies, paddings, protocol)
    decreases |bodies| - i
  {
    if i == |bodies| {
      assert bodies[..i] == bodies && paddings[..i] == paddings;
    } else {
      FrameAllStep(bodies, paddings, protocol, i);
      FrameAllFront(bodies, paddings, protocol, i + 1);
    }
  }

  /** What one reply that failed left on the wire after the ones before it. */
  lemma FrontFramed(bodies: seq<seq<byte>>, paddings: seq<seq<byte>>, protocol: Protocol, i: nat, before: seq<byte>,
                    wire: seq<byte>, ks: Keystream, pos: nat)
    requires |paddings| == |bodies| && i < |bodies|
    requires var done := FrameAll(bodies[..i], paddings[..i], protocol);
      var frame := FrameReply(bodies[i], paddings[i], protocol);
      Underway(before + Crypt(done, ks, pos), wire, if frame.Some? then Crypt(frame.value, ks, pos + |done|) else [])
    ensures Underway(before, wire, Crypt(FrameAll(bodies, paddings, protocol), ks, pos))
  {
    hide Crypt, FrameReply, Underway;
    var done, all := FrameAll(bodies[..i], paddings[..i], protocol), FrameAll(bodies, paddings, protocol);
    var frame := FrameReply(bodies[i], paddings[i], protocol);
    var next := if frame.Some? then frame.value else [];
    FrameAllStep(bodies, paddings, protocol, i);
    FrameAllFront(bodies, paddings, protocol, i + 1);
    CryptNothing(ks, pos + |done|);
    CryptConcat(done, next, ks, pos);
    CryptFront(done + next, all[|done + next|..], ks, pos);
    assert done + next + all[|done + next|..] == all;
    UnderwayFurther(before, Crypt(done, ks, pos), wire, Crypt(next, ks, pos + |done|), Crypt(all, ks, pos));
  }

  lemma FrameAllStep(bodies: seq<seq<byte>>, paddings: seq<seq<byte>>, protocol: Protocol, i: nat)
    requires |paddings| == |bodies| && i < |bodies|
    ensures FrameAll(bodies[..i + 1], paddings[..i + 1], protocol) == FrameAll(bodies[..i], paddings[..i], protocol) +
      var frame := FrameReply(bodies[i], paddings[i], protocol); if frame.Some? then frame.value else []
  {
    assert bodies[..i + 1][..i] == bodies[..i] && paddings[..i + 1][..i] == paddings[..i];
  }
}
