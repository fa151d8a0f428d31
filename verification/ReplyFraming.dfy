/** Replies on their way to the native client, and the padding of packets on their way up. */
module ReplyFraming {
  import opened Bytes
  import opened Limits
  import opened Options
  import opened Streams
  import opened Framing

  const MAX_ENCRYPTED_PADDING := 15

  predicate ValidBody(length: nat) {
    0 < length <= MAX_PACKET && length % 4 == 0
  }

  /** The random bytes a frame is made with: the padding, of at most fifteen bytes. */
  predicate ValidPadding(padding: seq<byte>, protocol: Protocol) {
    if protocol.PaddedIntermediate? then |padding| <= 15 else padding == []
  }

  function Prefix(length: nat, padding: seq<byte>, protocol: Protocol): seq<byte> {
    match protocol
    case Abridged => if length / 4 < 0x7f then [length / 4] else [0x7f] + ToLe(length / 4, 3)
    case Intermediate => ToLe(length, 4)
    case PaddedIntermediate => ToLe(length + |padding|, 4)
  }

  /** The whole frame at once. */
  function FrameReply(body: seq<byte>, padding: seq<byte>, protocol: Protocol): Option<seq<byte>> {
    if !ValidBody(|body|) then None
    else if protocol.Abridged? && |body| / 4 > 0xff_ffff then None
    else Some(Prefix(|body|, padding, protocol) + body + padding)
  }

  /** A frame's own header gives back its prefix and its length. */
  lemma FrameIsDelimited(body: seq<byte>, padding: seq<byte>, protocol: Protocol)
    requires ValidBody(|body|) && ValidPadding(padding, protocol)
    ensures var frame := FrameReply(body, padding, protocol);
      && frame.Some?
      && PacketLength(frame.value, protocol) == Ok(Some((|Prefix(|body|, padding, protocol)|, |body| + |padding|)))
      && |frame.value| == |Prefix(|body|, padding, protocol)| + |body| + |padding|
  {
    var length := |body| + |padding|;
    HeaderRoundTrip(length, protocol, false, body + padding);
    assert Header(length, protocol, false) == Prefix(|body|, padding, protocol);
    assert Prefix(|body|, padding, protocol) + body + padding == Header(length, protocol, false) + (body + padding);
  }

  /** Some front of `all` has been written after what was there before. */
  predicate Underway(before: seq<byte>, wire: seq<byte>, all: seq<byte>) {
    before <= wire <= before + all
  }

  lemma UnderwayFurther(before: seq<byte>, done: seq<byte>, wire: seq<byte>, next: seq<byte>, all: seq<byte>)
    requires Underway(before + done, wire, next) && done + next <= all
    ensures Underway(before, wire, all)
  {
    assert before + done + next == before + (done + next);
  }

  lemma CryptFront(data: seq<byte>, more: seq<byte>, ks: Keystream, pos: nat)
    ensures Crypt(data, ks, pos) <= Crypt(data + more, ks, pos)
  {
    CryptConcat(data, more, ks, pos);
  }

  /** Writes `data` encrypted where the cipher stands. */
  method Emit(writer: Sink, encrypt: AesCtr, scratch: array<byte>, count: nat) returns (ok: bool)
    requires count <= scratch.Length
    modifies writer, encrypt`position, scratch
    ensures encrypt.position == old(encrypt.position) + count
    ensures var all := Crypt(old(scratch[..count]), encrypt.keystream, old(encrypt.position));
      Underway(old(writer.wire), writer.wire, all) && (ok ==> writer.wire == old(writer.wire) + all)
  {
    encrypt.ApplyKeystream(scratch, 0, count);
    assert scratch[0..count] == scratch[..count];
    ok := writer.WriteAll(scratch[..count]);
  }

  /** Copies into the scratch buffer. */
  method Load(scratch: array<byte>, data: seq<byte>)
    requires |data| <= scratch.Length
    modifies scratch
    ensures scratch[..|data|] == data
  {
    var i := 0;
    while i < |data|
      invariant i <= |data|
      invariant forall k | 0 <= k < i :: scratch[k] == data[k]
    {
      scratch[i] := data[i];
      i := i + 1;
    }
  }

  lemma CryptNothing(ks: Keystream, pos: nat)
    ensures Crypt([], ks, pos) == []
  {
  }

  /** One part, in chunks of the scratch buffer's size. */
  method EmitPart(writer: Sink, encrypt: AesCtr, scratch: array<byte>, part: seq<byte>) returns (ok: bool)
    requires scratch.Length > 0
    modifies writer, encrypt`position, scratch
    ensures ok ==> encrypt.position == old(encrypt.position) + |part|
    ensures var all := Crypt(part, encrypt.keystream, old(encrypt.position));
      Underway(old(writer.wire), writer.wire, all) && (ok ==> writer.wire == old(writer.wire) + all)
  {
    hide Crypt;
    var at: nat := 0;
    CryptNothing(encrypt.keystream, encrypt.position);
    while at < |part|
      invariant at <= |part| && encrypt.position == old(encrypt.position) + at
      invariant writer.wire == old(writer.wire) + Crypt(part[..at], encrypt.keystream, old(encrypt.position))
    {
      var count := Min(scratch.Length, |part| - at);
      Load(scratch, part[at..at + count]);
      assert part[..at + count] == part[..at] + part[at..at + count];
      CryptConcat(part[..at], part[at..at + count], encrypt.keystream, old(encrypt.position));
      ghost var start := encrypt.position;
      ok := Emit(writer, encrypt, scratch, count);
      if !ok {
        CryptFront(part[..at + count], part[at + count..], encrypt.keystream, old(encrypt.position));
        assert part[..at + count] + part[at + count..] == part;
        UnderwayFurther(old(writer.wire), Crypt(part[..at], encrypt.keystream, old(encrypt.position)), writer.wire,
                        Crypt(part[at..at + count], encrypt.keystream, start),
                        Crypt(part, encrypt.keystream, old(encrypt.position)));
        return false;
      }
      at := at + count;
    }
    assert part[..at] == part;
    return true;
  }

  method EmitParts(writer: Sink, encrypt: AesCtr, scratch: array<byte>, parts: seq<seq<byte>>) returns (ok: bool)
    requires scratch.Length > 0
    modifies writer, encrypt`position, scratch
    ensures ok ==> encrypt.position == old(encrypt.position) + |Concat(parts)|
    ensures var all := Crypt(Concat(parts), encrypt.keystream, old(encrypt.position));
      Underway(old(writer.wire), writer.wire, all) && (ok ==> writer.wire == old(writer.wire) + all)
  {
    hide Crypt, Underway;
    CryptNothing(encrypt.keystream, encrypt.position);
    var i := 0;
    while i < |parts|
      invariant i <= |parts| && encrypt.position == old(encrypt.position) + |Concat(parts[..i])|
      invariant writer.wire == old(writer.wire) + Crypt(Concat(parts[..i]), encrypt.keystream, old(encrypt.position))
    {
      assert parts[..i + 1] == parts[..i] + [parts[i]];
      ConcatAppend(parts[..i], parts[i]);
      CryptConcat(Concat(parts[..i]), parts[i], encrypt.keystream, old(encrypt.position));
      ghost var start := encrypt.position;
      ok := EmitPart(writer, encrypt, scratch, parts[i]);
      if !ok {
        ConcatSplit(parts, i + 1);
        CryptFront(Concat(parts[..i + 1]), Concat(parts[i + 1..]), encrypt.keystream, old(encrypt.position));
        UnderwayFurther(old(writer.wire), Crypt(Concat(parts[..i]), encrypt.keystream, old(encrypt.position)),
            writer.wire,
                        Crypt(parts[i], encrypt.keystream, start),
                        Crypt(Concat(parts), encrypt.keystream, old(encrypt.position)));
        return false;
      }
      i := i + 1;
    }
    assert parts[..i] == parts;
    Whole(old(writer.wire), Crypt(Concat(parts), encrypt.keystream, old(encrypt.position)));
    return true;
  }

  lemma Whole(before: seq<byte>, all: seq<byte>)
    ensures Underway(before, before + all, all)
  {
  }

  /** A small fixed buffer: the prefix, or the padding. */
  method EmitSmall(writer: Sink, encrypt: AesCtr, data: seq<byte>, size: nat) returns (ok: bool)
    requires |data| <= size
    modifies writer, encrypt`position
    ensures encrypt.position == old(encrypt.position) + |data|
    ensures var all := Crypt(data, encrypt.keystream, old(encrypt.position));
      Underway(old(writer.wire), writer.wire, all) && (ok ==> writer.wire == old(writer.wire) + all)
  {
    var small := new byte[size];
    Load(small, data);
    ok := Emit(writer, encrypt, small, |data|);
  }

  lemma CryptThree(a: seq<byte>, b: seq<byte>, c: seq<byte>, ks: Keystream, pos: nat)
    ensures Crypt(a + b + c, ks, pos) == Crypt(a, ks, pos) + Crypt(b, ks, pos + |a|) + Crypt(c, ks, pos + |a| + |b|)
  {
    CryptConcat(a, b, ks, pos);
    CryptConcat(a + b, c, ks, pos);
  }

  method EmitFrame(
    writer: Sink, encrypt: AesCtr, prefix: seq<byte>, parts: seq<seq<byte>>, padding: seq<byte>, chunkSize: nat)
    returns (ok: bool)
    requires |prefix| <= 4 && |padding| <= 15 && chunkSize > 0
    modifies writer, encrypt`position
    ensures var frame := prefix + Concat(parts) + padding;
      var all := Crypt(frame, encrypt.keystream, old(encrypt.position));
      && Underway(old(writer.wire), writer.wire, all)
      && (ok ==> writer.wire == old(writer.wire) + all && encrypt.position == old(encrypt.position) + |frame|)
  {
    hide Crypt, Concat;
    ghost var was, body, start := writer.wire, Concat(parts), encrypt.position;
    ghost var first, second, third :=
      Crypt(prefix, encrypt.keystream, start), Crypt(body, encrypt.keystream, start + |prefix|),
      Crypt(padding, encrypt.keystream, start + |prefix| + |body|);
    CryptThree(prefix, body, padding, encrypt.keystream, start);
    ok := EmitSmall(writer, encrypt, prefix, 4);
    if !ok {
      UnderwayFurther(was, [], writer.wire, first, first + second + third);
      return;
    }
    var scratch := new byte[chunkSize];
    ok := EmitParts(writer, encrypt, scratch, parts);
    if !ok {
      UnderwayFurther(was, first, writer.wire, second, first + second + third);
      return;
    }
    CryptNothing(encrypt.keystream, encrypt.position);
    Associate(was, first, second);
    if |padding| > 0 {
      ok := EmitSmall(writer, encrypt, padding, 15);
    }
    UnderwayFurther(was, first + second, writer.wire, third, first + second + third);
  }

  /** The streaming framer; `padding` stands for what the random generator yields. */
  method WriteEncryptedReply(
    writer: Sink, encrypt: AesCtr, bodyLength: nat, parts: seq<seq<byte>>,
    protocol: Protocol, bufferSize: nat, padding: seq<byte>) returns (ok: bool)
    requires ValidPadding(padding, protocol)
    modifies writer, encrypt`position
    ensures !ValidBody(bodyLength) ==>
        !ok && writer.wire == old(writer.wire) && encrypt.position == old(encrypt.position)
    ensures ok ==> ValidBody(bodyLength) && (|Concat(parts)| == bodyLength ==>
      var frame := FrameReply(Concat(parts), padding, protocol);
      && frame.Some?
      && writer.wire == old(writer.wire) + Crypt(frame.value, encrypt.keystream, old(encrypt.position))
      && encrypt.position == old(encrypt.position) + |frame.value|)
    ensures ValidBody(bodyLength) && |Concat(parts)| == bodyLength ==>
      var frame := FrameReply(Concat(parts), padding, protocol);
      frame.Some? && Underway(old(writer.wire), writer.wire,
          Crypt(frame.value, encrypt.keystream, old(encrypt.position)))
  {
    if bodyLength == 0 || bodyLength > MAX_PACKET || bodyLength % 4 != 0 {
      return false;
    }
    var chunkSize := Min(if bufferSize < 1 then 1 else bufferSize, bodyLength);
    ok := EmitFrame(writer, encrypt, Prefix(bodyLength, padding, protocol), parts, padding, chunkSize);
  }

  /** What the client decrypts is the frame itself. */
  lemma ClientReadsFrame(frame: seq<byte>, before: seq<byte>, ks: Keystream, pos: nat)
    ensures Crypt((before + Crypt(frame, ks, pos))[|before|..], ks, pos) == frame
  {
    assert (before + Crypt(frame, ks, pos))[|before|..] == Crypt(frame, ks, pos);
    CryptInvolutive(frame, ks, pos);
  }

  // ---------------------------------------------------------------- padding on the way up

  /** The length of the packet inside, and how much padding it may carry. */
  function Inside(body: seq<byte>): (nat, nat)
    requires |body| >= 24
  {
    if body[..8] == ZERO_KEY then (20 + FromLe(body[16..20]), MAX_PLAIN_PADDING)
    else (24 + ((|body| - 24) / 16) * 16, MAX_ENCRYPTED_PADDING)
  }

  function StripPaddedBody(body: seq<byte>): Option<seq<byte>> {
    if |body| < 24 then None
    else
      var (length, most) := Inside(body);
      if length < 24 || length > |body| || |body| - length > most then None else Some(body[..length])
  }

  /** A complete MTProto packet: in the clear it names its length, otherwise its encrypted part is a
      whole number of cipher blocks. */
  predicate Packet(m: seq<byte>) {
    |m| >= 24 && if m[..8] == ZERO_KEY then 20 + FromLe(m[16..20]) == |m| else (|m| - 24) % 16 == 0
  }

  function MostPadding(m: seq<byte>): nat
    requires |m| >= 8
  {
    if m[..8] == ZERO_KEY then MAX_PLAIN_PADDING else MAX_ENCRYPTED_PADDING
  }

  /** Stripping accepts exactly a packet followed by legal padding, and returns the packet. */
  lemma StripExactly(body: seq<byte>, m: seq<byte>)
    ensures StripPaddedBody(body) == Some(m) <==>
      Packet(m) && m <= body && |body| - |m| <= MostPadding(m)
  {
    if |body| >= 24 && |m| >= 24 && m <= body {
      assert m[..8] == body[..8] && m[16..20] == body[16..20];
      assert m == body[..|m|];
    }
  }

  lemma StripTwice(body: seq<byte>)
    requires StripPaddedBody(body).Some?
    ensures StripPaddedBody(StripPaddedBody(body).value) == StripPaddedBody(body)
  {
    var m := StripPaddedBody(body).value;
    StripExactly(body, m);
    StripExactly(m, m);
  }
}
