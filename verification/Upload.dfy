/** The upload half of a WebSocket bridge: one binary frame for each MTProto packet. */
module Upload {
  import opened Bytes
  import opened Options
  import opened Streams
  import opened Framing
  import opened WsFrames
  import opened WsWriter

  // ---------------------------------------------------------------- what the plaintext says

  datatype Next = End | Short | Bad | Packet(headerSize: nat, size: nat)

  /** The packet at the front of the plaintext, header included. */
  function NextPacket(plain: seq<byte>, protocol: Protocol): (r: Next)
    ensures r.Packet? ==> 0 < r.headerSize <= 4 && r.headerSize < r.size <= |plain| && r.size <= MAX_MESSAGE
  {
    if |plain| == 0 then End
    else match PacketLength(plain, protocol)
      case Err(_) => Bad
      case Ok(None) => Short
      case Ok(Some((size, length))) => if |plain| < size + length then Short else Packet(size, size + length)
  }

  /** All packets of the plaintext, and what stops the list. */
  function Packets(plain: seq<byte>, protocol: Protocol): (seq<seq<byte>>, Next)
    decreases |plain|
  {
    var next := NextPacket(plain, protocol);
    if !next.Packet? then ([], next)
    else var (rest, stop) := Packets(plain[next.size..], protocol); ([plain[..next.size]] + rest, stop)
  }

  /** Each packet encrypted where the ones before it leave the cipher. */
  function EncryptEach(packets: seq<seq<byte>>, ks: Keystream, pos: nat): seq<seq<byte>> {
    if |packets| == 0 then []
    else
      var front := packets[..|packets| - 1];
      EncryptEach(front, ks, pos) + [Crypt(packets[|packets| - 1], ks, pos + |Concat(front)|)]
  }

  /** The payloads of the binary frames. */
  function Binaries(frames: seq<Frame>): seq<seq<byte>> {
    Payloads(frames, 2)
  }

  lemma BinariesAppend(frames: seq<Frame>, f: Frame)
    ensures Binaries(frames + [f]) == Binaries(frames) + if f.opcode == 2 then [f.payload] else []
  {
    PayloadsAppend(frames, f, 2);
  }

  lemma EncryptEachAppend(packets: seq<seq<byte>>, last: seq<byte>, ks: Keystream, pos: nat)
    ensures EncryptEach(packets + [last], ks, pos)
         == EncryptEach(packets, ks, pos) + [Crypt(last, ks, pos + |Concat(packets)|)]
  {
    assert (packets + [last])[..|packets|] == packets;
  }

  lemma CryptSlice(data: seq<byte>, ks: Keystream, pos: nat, lo: nat, hi: nat)
    requires lo <= hi <= |data|
    ensures Crypt(data, ks, pos)[lo..hi] == Crypt(data[lo..hi], ks, pos + lo)
  {
  }

  lemma CryptTail(data: seq<byte>, ks: Keystream, pos: nat, lo: nat)
    requires lo <= |data|
    ensures Crypt(data, ks, pos)[lo..] == Crypt(data[lo..], ks, pos + lo)
  {
  }

  // ---------------------------------------------------------------- moving bytes

  /** Decrypts and re-encrypts the first `n` bytes of the buffer. */
  method RecryptInPlace(decrypt: AesCtr, encrypt: AesCtr, buffer: array<byte>, n: nat)
    requires decrypt != encrypt && n <= buffer.Length
    modifies decrypt`position, encrypt`position, buffer
    ensures decrypt.position == old(decrypt.position) + n && encrypt.position == old(encrypt.position) + n
    ensures buffer[..n] == Recrypt(old(buffer[..n]), decrypt.keystream, old(decrypt.position),
                                   encrypt.keystream, old(encrypt.position))
  {
    assert buffer[0..n] == buffer[..n];
    decrypt.ApplyKeystream(buffer, 0, n);
    encrypt.ApplyKeystream(buffer, 0, n);
    assert buffer[0..n] == buffer[..n];
  }

  /** Other holders of the writer's lock, which is free only between packets: they send pongs. */
  method OthersWrite(writer: Writer) returns (ok: bool)
    requires writer.Valid() && writer.Idle() && !writer.broken
    modifies writer, writer.wire
    ensures writer.Valid() && ok == !writer.broken
    ensures Binaries(writer.frames) == old(Binaries(writer.frames))
    ensures ok ==> writer.Idle()
  {
    hide EncodeAll, WireWith, Binaries;
    var pongs: nat := *;
    ok := true;
    while pongs > 0
      invariant writer.Valid() && writer.Idle() && !writer.broken
      invariant Binaries(writer.frames) == old(Binaries(writer.frames))
      invariant ok
    {
      var count: nat :| count <= 125;
      var data := new byte[count];
      ghost var before, payload := writer.frames, data[..count];
      ok := writer.Control(10, data, count);
      if !ok {
        return;
      }
      ghost var m: Mask :| writer.frames == before + [Frame(true, 10, Some(m), payload)];
      BinariesAppend(before, Frame(true, 10, Some(m), payload));
      pongs := pongs - 1;
    }
  }

  lemma RecryptSlice(data: seq<byte>, from: Keystream, fromPos: nat, target: Keystream, toPos: nat, lo: nat, hi: nat)
    requires lo <= hi <= |data|
    ensures Recrypt(data, from, fromPos, target, toPos)[lo..hi]
         == Recrypt(data[lo..hi], from, fromPos + lo, target, toPos + lo)
  {
    CryptSlice(data, from, fromPos, lo, hi);
    CryptSlice(Crypt(data, from, fromPos), target, toPos, lo, hi);
  }

  /** Reads some bytes and turns them, in the buffer, into what the other side is to see. */
  method ReadRecrypted(reader: Source, decrypt: AesCtr, encrypt: AesCtr, buffer: array<byte>, most: nat)
      returns (n: nat)
    requires reader.Valid() && decrypt != encrypt && most <= buffer.Length
    modifies reader`taken, decrypt`position, encrypt`position, buffer
    ensures reader.Valid() && n <= most && n <= |old(reader.Left())|
        && (n == 0 <==> most == 0 || |old(reader.Left())| == 0)
    ensures reader.Left() == old(reader.Left())[n..]
    ensures decrypt.position == old(decrypt.position) + n && encrypt.position == old(encrypt.position) + n
    ensures buffer[..n] == Recrypt(old(reader.Left())[..n], decrypt.keystream, old(decrypt.position),
                                   encrypt.keystream, old(encrypt.position))
  {
    n := reader.Read(buffer, 0, most);
    assert buffer[0..0 + n] == buffer[..n];
    RecryptInPlace(decrypt, encrypt, buffer, n);
  }

  lemma NextPiece<T>(head: seq<T>, whole: seq<T>, at: nat, n: nat)
    requires at + n <= |whole|
    ensures head + whole[..at] + whole[at..at + n] == head + whole[..at + n]
  {
  }

  datatype Sent = Done | Ended(why: Next) | WriteFailed

  /** One read's worth of the body. */
  method SendPiece(
    reader: Source, writer: Writer, decrypt: AesCtr, encrypt: AesCtr, buffer: array<byte>) returns (n: nat, ok: bool)
    requires reader.Valid() && writer.Valid() && !writer.broken && decrypt != encrypt
    requires writer.remaining > 0 && buffer.Length > 0
    modifies reader`taken, writer, writer.wire, decrypt`position, encrypt`position, buffer
    ensures reader.Valid() && writer.Valid() && writer.mask == old(writer.mask) && writer.opcode == old(writer.opcode)
    ensures n <= old(writer.remaining) && n <= |old(reader.Left())| && (n == 0 <==> |old(reader.Left())| == 0)
    ensures ok == !writer.broken && (n == 0 ==> ok)
    ensures reader.Left() == old(reader.Left())[n..]
    ensures decrypt.position == old(decrypt.position) + n && encrypt.position == old(encrypt.position) + n
    ensures ok ==>
      && writer.remaining == old(writer.remaining) - n
      && writer.done == old(writer.done) + Recrypt(old(reader.Left())[..n], decrypt.keystream, old(decrypt.position),
                                                    encrypt.keystream, old(encrypt.position))
    ensures !ok || writer.remaining > 0 ==> writer.frames == old(writer.frames)
    ensures ok && writer.remaining == 0 ==>
      writer.frames == old(writer.frames) + [Frame(true, writer.opcode, Some(writer.mask), writer.done)]
  {
    n := ReadRecrypted(reader, decrypt, encrypt, buffer, Min(writer.remaining, buffer.Length));
    if n == 0 {
      assert writer.done + [] == writer.done;
      return n, true;
    }
    ok := writer.Payload(buffer, n);
  }

  /** The body of a packet, a buffer at a time, into the frame that was begun for it. `whole` is
      everything still to be read, as the upstream is to see it. */
  method SendBody(
    reader: Source, writer: Writer, decrypt: AesCtr, encrypt: AesCtr, buffer: array<byte>, length: nat,
    ghost whole: seq<byte>) returns (sent: Sent)
    requires reader.Valid() && writer.Valid() && !writer.broken && decrypt != encrypt
    requires writer.remaining == length > 0 && buffer.Length > 0
    requires whole == Recrypt(reader.Left(), decrypt.keystream, decrypt.position, encrypt.keystream, encrypt.position)
    modifies reader`taken, writer, writer.wire, decrypt`position, encrypt`position, buffer
    ensures reader.Valid() && writer.Valid()
    ensures sent.Ended? ==>
        sent.why == Short && |whole| < length && writer.frames == old(writer.frames) && !writer.broken
    ensures sent.WriteFailed? ==> writer.broken && writer.frames == old(writer.frames)
    ensures sent.Done? ==>
      && length <= |whole| && reader.Left() == old(reader.Left())[length..]
      && decrypt.position == old(decrypt.position) + length && encrypt.position == old(encrypt.position) + length
      && !writer.broken && writer.Idle()
      && writer.frames ==
           old(writer.frames) + [Frame(true, old(writer.opcode), Some(old(writer.mask)),
               old(writer.done) + whole[..length])]
  {
    hide Crypt, Recrypt, EncodeAll, WireWith, Writer.Valid;
    ghost var left, head, frames := reader.Left(), writer.done, writer.frames;
    var remaining, moved: nat := length, 0;
    while remaining > 0
      invariant remaining + moved == length && moved <= |left|
      invariant reader.Valid() && reader.Left() == left[moved..]
      invariant writer.Valid() && !writer.broken && writer.remaining == remaining
      invariant writer.mask == old(writer.mask) && writer.opcode == old(writer.opcode)
      invariant decrypt.position == old(decrypt.position) + moved && encrypt.position == old(encrypt.position) + moved
      invariant writer.done == head + whole[..moved]
      invariant remaining > 0 ==> writer.frames == frames
      invariant remaining == 0 ==>
          writer.frames == frames + [Frame(true, writer.opcode, Some(writer.mask), writer.done)]
    {
      var n, ok := SendPiece(reader, writer, decrypt, encrypt, buffer);
      RecryptLeft(left, decrypt.keystream, old(decrypt.position), encrypt.keystream, old(encrypt.position), moved, n,
          head, whole);
      if n == 0 {
        return Ended(Short);
      }
      if !ok {
        return WriteFailed;
      }
      moved, remaining := moved + n, remaining - n;
    }
    return Done;
  }

  /** What the next read takes continues `whole` where `at` is. */
  lemma RecryptLeft(
    left: seq<byte>, from: Keystream, fromPos: nat, target: Keystream, toPos: nat, at: nat, n: nat, head: seq<byte>,
    whole: seq<byte>)
    requires at + n <= |left| && whole == Recrypt(left, from, fromPos, target, toPos)
    ensures left[at..][n..] == left[at + n..]
    ensures head + whole[..at] + Recrypt(left[at..][..n], from, fromPos + at, target, toPos + at)
         == head + whole[..at + n]
  {
    assert left[at..][..n] == left[at..at + n];
    RecryptSlice(left, from, fromPos, target, toPos, at, at + n);
    NextPiece(head, whole, at, n);
  }

  datatype HeaderRead = Complete(size: nat, length: nat) | Missing(why: Next)

  /** What a header announces, whether or not the body is there. */
  ghost predicate Announces(plain: seq<byte>, protocol: Protocol, size: nat, length: nat) {
    && 0 < size <= 4 && size <= |plain| && 0 < length && size + length <= MAX_MESSAGE
    && NextPacket(plain, protocol) == if |plain| < size + length then Short else Packet(size, size + length)
  }

  lemma HeaderAnnounces(plain: seq<byte>, protocol: Protocol)
    requires |plain| > 0 && |plain| >= HeaderLen(plain[0], protocol)
    ensures var size := HeaderLen(plain[0], protocol);
      match PacketLength(plain[..size], protocol)
      case Err(_) => NextPacket(plain, protocol) == Bad
      case Ok(None) => false
      case Ok(Some((s, length))) => s == size && Announces(plain, protocol, size, length)
  {
    SelfDelimiting(plain, protocol);
  }

  /** The first byte, then as many more as it asks for. */
  method FillHeader(reader: Source, decrypt: AesCtr, header: array<byte>, protocol: Protocol, ghost plain: seq<byte>)
    returns (size: nat, why: Next)
    requires reader.Valid() && header.Length == 4
    requires plain == Crypt(reader.Left(), decrypt.keystream, decrypt.position)
    modifies reader`taken, decrypt`position, header
    ensures reader.Valid()
    ensures size == 0 ==> if |plain| == 0 then why == End else why == Short && |plain| < HeaderLen(plain[0], protocol)
    ensures size > 0 ==>
      && 0 < size <= |plain| && size == HeaderLen(plain[0], protocol) && header[..size] == plain[..size]
      && reader.Left() == old(reader.Left())[size..] && decrypt.position == old(decrypt.position) + size
  {
    hide Crypt;
    ghost var left := reader.Left();
    var n := reader.Read(header, 0, 1);
    if n == 0 {
      return 0, End;
    }
    decrypt.ApplyKeystream(header, 0, 1);
    CryptSlice(left, decrypt.keystream, old(decrypt.position), 0, 1);
    assert header[0..1] == plain[0..1];
    size := HeaderLen(header[0], protocol);
    if size > 1 {
      var filled := reader.ReadExact(header, 1, size);
      if !filled {
        return 0, Short;
      }
      decrypt.ApplyKeystream(header, 1, size);
      CryptSlice(left, decrypt.keystream, old(decrypt.position), 1, size);
      assert left[1..][..size - 1] == left[1..size];
      assert header[..size] == header[..1] + header[1..size];
      assert plain[..size] == plain[0..1] + plain[1..size];
    }
    why := End;
  }

  method ReadHeader(reader: Source, decrypt: AesCtr, header: array<byte>, protocol: Protocol, ghost plain: seq<byte>)
    returns (r: HeaderRead)
    requires reader.Valid() && header.Length == 4
    requires plain == Crypt(reader.Left(), decrypt.keystream, decrypt.position)
    modifies reader`taken, decrypt`position, header
    ensures reader.Valid()
    ensures r.Missing? ==> r.why == NextPacket(plain, protocol) && !r.why.Packet?
    ensures r.Complete? ==>
      && Announces(plain, protocol, r.size, r.length) && header[..r.size] == plain[..r.size]
      && reader.Left() == old(reader.Left())[r.size..] && decrypt.position == old(decrypt.position) + r.size
  {
    var size, why := FillHeader(reader, decrypt, header, protocol, plain);
    if size == 0 {
      return Missing(why);
    }
    HeaderAnnounces(plain, protocol);
    var announced := PacketLength(header[..size], protocol);
    if announced.Err? {
      return Missing(Bad);
    }
    return Complete(size, announced.value.value.1);
  }

  lemma BodyEncrypted(
    left: seq<byte>, from: Keystream, fromPos: nat, target: Keystream, toPos: nat, size: nat, length: nat)
    requires size + length <= |left|
    ensures Recrypt(left[size..], from, fromPos + size, target, toPos + size)[..length]
         == Crypt(Crypt(left, from, fromPos)[size..size + length], target, toPos + size)
  {
    CryptTail(left, from, fromPos, size);
    CryptSlice(Crypt(left, from, fromPos)[size..], target, toPos + size, 0, length);
    assert Crypt(left, from, fromPos)[size..][0..length] == Crypt(left, from, fromPos)[size..size + length];
  }

  /** Header and body of a packet, encrypted one after the other, are the packet encrypted. */
  lemma PacketEncrypted(
    left: seq<byte>, from: Keystream, fromPos: nat, target: Keystream, toPos: nat, size: nat, length: nat)
    requires size + length <= |left|
    ensures var plain := Crypt(left, from, fromPos);
      Crypt(plain[..size], target, toPos) + Recrypt(left[size..], from, fromPos + size, target, toPos + size)[..length]
        == Crypt(plain[..size + length], target, toPos)
  {
    var plain := Crypt(left, from, fromPos);
    BodyEncrypted(left, from, fromPos, target, toPos, size, length);
    CryptConcat(plain[..size], plain[size..size + length], target, toPos);
    assert plain[..size + length] == plain[..size] + plain[size..size + length];
  }

  /** The frame that was filled adds exactly that packet to the binary payloads. */
  lemma FramedPacket(
    frames: seq<Frame>, mask: Mask, left: seq<byte>, from: Keystream, fromPos: nat, target: Keystream, toPos: nat,
    size: nat, length: nat)
    requires size + length <= |left| && size + length <= MAX_MESSAGE
    ensures left[size..][length..] == left[size + length..]
    ensures var payload := Crypt(Crypt(left, from, fromPos)[..size], target, toPos)
              + Recrypt(left[size..], from, fromPos + size, target, toPos + size)[..length];
      && |payload| == size + length
      && Binaries(frames + [Frame(true, 2, Some(mask), payload)])
           == Binaries(frames) + [Crypt(Crypt(left, from, fromPos)[..size + length], target, toPos)]
  {
    PacketEncrypted(left, from, fromPos, target, toPos, size, length);
    BinariesAppend(frames, Frame(true, 2, Some(mask),
        Crypt(Crypt(left, from, fromPos)[..size + length], target, toPos)));
  }

  /** Begins the frame for a packet of this length and puts the encrypted header into it. */
  method BeginPacket(writer: Writer, encrypt: AesCtr, header: array<byte>, size: nat, length: nat) returns (ok: bool)
    requires writer.Valid() && writer.Idle() && !writer.broken
    requires 0 < size <= header.Length && 0 < length && size + length <= MAX_MESSAGE
    modifies writer, writer.wire, encrypt`position, header
    ensures writer.Valid() && ok == !writer.broken
    ensures encrypt.position == old(encrypt.position) + size || !ok
    ensures writer.frames == old(writer.frames)
    ensures ok ==>
      && writer.remaining == length && writer.opcode == 2
      && writer.done == Crypt(old(header[..size]), encrypt.keystream, old(encrypt.position))
  {
    ok := writer.Begin(2, size + length);
    if !ok {
      return;
    }
    assert header[0..size] == header[..size];
    encrypt.ApplyKeystream(header, 0, size);
    assert header[0..size] == header[..size];
    ok := writer.Payload(header, size);
  }

  /** The packet whose header was just read: other writers first, then the frame. */
  method SendAnnounced(
    reader: Source, writer: Writer, decrypt: AesCtr, encrypt: AesCtr, buffer: array<byte>,
    header: array<byte>, size: nat, length: nat, ghost left: seq<byte>, ghost start: nat) returns (sent: Sent)
    requires reader.Valid() && writer.Valid() && writer.Idle() && !writer.broken && decrypt != encrypt
        && buffer.Length > 0
    requires header != buffer && 0 < size <= header.Length && size <= |left| && 0 < length
        && size + length <= MAX_MESSAGE
    requires reader.Left() == left[size..] && decrypt.position == start + size
    requires header[..size] == Crypt(left, decrypt.keystream, start)[..size]
    modifies reader`taken, writer, writer.wire, decrypt`position, encrypt`position, buffer, header
    ensures reader.Valid() && writer.Valid() && writer.broken == sent.WriteFailed?
    ensures sent.Ended? ==> sent.why == Short && |left| < size + length
    ensures !sent.Done? ==> Binaries(writer.frames) == old(Binaries(writer.frames))
    ensures sent.Done? ==>
      && size + length <= |left| && reader.Left() == left[size + length..] && writer.Idle()
      && decrypt.position == start + size + length && encrypt.position == old(encrypt.position) + size + length
      && Binaries(writer.frames) == old(Binaries(writer.frames)) +
           [Crypt(Crypt(left, decrypt.keystream, start)[..size + length], encrypt.keystream, old(encrypt.position))]
  {
    hide Crypt, Binaries, Recrypt, EncodeAll, WireWith;
    var ok := OthersWrite(writer);
    if !ok {
      return WriteFailed;
    }
    ok := BeginPacket(writer, encrypt, header, size, length);
    if !ok {
      return WriteFailed;
    }
    ghost var frames, mask := writer.frames, writer.mask;
    ghost var whole := Recrypt(left[size..], decrypt.keystream, start + size, encrypt.keystream, encrypt.position);
    sent := SendBody(reader, writer, decrypt, encrypt, buffer, length, whole);
    if sent.Done? {
      FramedPacket(frames, mask, left, decrypt.keystream, start, encrypt.keystream, old(encrypt.position), size,
          length);
    }
  }

  /** One packet from the client to one frame on the wire; `size` is its length with the header. */
  method SendPacket(
    reader: Source, writer: Writer, decrypt: AesCtr, encrypt: AesCtr, protocol: Protocol, buffer: array<byte>,
    ghost plain: seq<byte>) returns (sent: Sent, ghost size: nat)
    requires reader.Valid() && writer.Valid() && writer.Idle() && !writer.broken && decrypt != encrypt
        && buffer.Length > 0
    requires plain == Crypt(reader.Left(), decrypt.keystream, decrypt.position)
    modifies reader`taken, writer, writer.wire, decrypt`position, encrypt`position, buffer
    ensures reader.Valid() && writer.Valid() && writer.broken == sent.WriteFailed?
    ensures sent.Ended? ==> sent.why == NextPacket(plain, protocol) && !sent.why.Packet?
    ensures !sent.Done? ==> Binaries(writer.frames) == old(Binaries(writer.frames))
    ensures sent.Done? ==>
      && writer.Idle() && 0 < size <= |plain|
      && (NextPacket(plain, protocol).Packet? && NextPacket(plain, protocol).size == size)
      && plain[size..] == Crypt(reader.Left(), decrypt.keystream, decrypt.position)
      && encrypt.position == old(encrypt.position) + size
      && Binaries(writer.frames) ==
           old(Binaries(writer.frames)) + [Crypt(plain[..size], encrypt.keystream, old(encrypt.position))]
  {
    hide *;
    size := 0;
    ghost var left, start := reader.Left(), decrypt.position;
    var header := new byte[4];
    var read := ReadHeader(reader, decrypt, header, protocol, plain);
    if read.Missing? {
      return Ended(read.why), 0;
    }
    size := read.size + read.length;
    sent := SendAnnounced(reader, writer, decrypt, encrypt, buffer, header, read.size, read.length, left, start);
    if sent.Done? {
      CryptTail(left, decrypt.keystream, start, size);
    }
  }

  /** A packet was taken off the front. */
  lemma PacketsStep(all: seq<byte>, sent: seq<seq<byte>>, rest: seq<byte>, protocol: Protocol, size: nat)
    requires Packets(all, protocol) == (sent + Packets(rest, protocol).0, Packets(rest, protocol).1)
    requires NextPacket(rest, protocol).Packet? && NextPacket(rest, protocol).size == size
    ensures Packets(all, protocol)
         == (sent + [rest[..size]] + Packets(rest[size..], protocol).0, Packets(rest[size..], protocol).1)
  {
    Associate(sent, [rest[..size]], Packets(rest[size..], protocol).0);
  }

  /** Nothing more can be taken off. */
  lemma PacketsStop(all: seq<byte>, sent: seq<seq<byte>>, rest: seq<byte>, protocol: Protocol)
    requires Packets(all, protocol) == (sent + Packets(rest, protocol).0, Packets(rest, protocol).1)
    requires !NextPacket(rest, protocol).Packet?
    ensures Packets(all, protocol) == (sent, NextPacket(rest, protocol))
  {
    assert sent + [] == sent;
  }

  lemma NothingSent(before: seq<seq<byte>>, ks: Keystream, pos: nat)
    ensures before + EncryptEach([], ks, pos) == before && |Concat([])| == 0
  {
  }

  lemma SentStep(sentBefore: seq<seq<byte>>, sent: seq<seq<byte>>, packet: seq<byte>, ks: Keystream, pos: nat)
    ensures sentBefore + EncryptEach(sent, ks, pos) + [Crypt(packet, ks, pos + |Concat(sent)|)]
         == sentBefore + EncryptEach(sent + [packet], ks, pos)
    ensures |Concat(sent + [packet])| == |Concat(sent)| + |packet|
  {
    EncryptEachAppend(sent, packet, ks, pos);
    ConcatAppend(sent, packet);
  }

  /** The whole upload: whatever the reads and buffers, the binary frames are the packets of the client's
      plaintext, in order, each encrypted where the one before it stopped. */
  method UploadPackets(
    reader: Source, writer: Writer, decrypt: AesCtr, encrypt: AesCtr, protocol: Protocol, bufferSize: nat)
    returns (end: Sent, ghost packets: seq<seq<byte>>)
    requires reader.Valid() && writer.Valid() && writer.Idle() && !writer.broken && decrypt != encrypt && bufferSize > 0
    modifies reader`taken, writer, writer.wire, decrypt`position, encrypt`position
    ensures writer.Valid() && writer.broken == end.WriteFailed? && !end.Done?
    ensures Binaries(writer.frames) ==
      old(Binaries(writer.frames)) + EncryptEach(packets, encrypt.keystream, old(encrypt.position))
    ensures var all := Packets(Crypt(old(reader.Left()), decrypt.keystream, old(decrypt.position)), protocol);
      && packets <= all.0
      && (end.Ended? ==> packets == all.0 && end.why == all.1)
    ensures writer.frames <= DecodeAll(writer.wire.wire).0 && forall f | f in writer.frames :: f.fin && f.mask.Some?
  {
    hide *;
    ghost var all := Crypt(reader.Left(), decrypt.keystream, decrypt.position);
    ghost var rest := all;
    packets := [];
    var buffer := new byte[bufferSize];
    assert [] + Packets(all, protocol).0 == Packets(all, protocol).0;
    NothingSent(Binaries(writer.frames), encrypt.keystream, encrypt.position);
    while true
      invariant reader.Valid() && writer.Valid() && writer.Idle() && !writer.broken
      invariant rest == Crypt(reader.Left(), decrypt.keystream, decrypt.position)
      invariant Packets(all, protocol) == (packets + Packets(rest, protocol).0, Packets(rest, protocol).1)
      invariant encrypt.position == old(encrypt.position) + |Concat(packets)|
      invariant Binaries(writer.frames) ==
        old(Binaries(writer.frames)) + EncryptEach(packets, encrypt.keystream, old(encrypt.position))
      decreases |rest|
    {
      ghost var size: nat;
      end, size := SendPacket(reader, writer, decrypt, encrypt, protocol, buffer, rest);
      if !end.Done? {
        if end.Ended? {
          PacketsStop(all, packets, rest, protocol);
        }
        writer.WireDecodes();
        return;
      }
      PacketsStep(all, packets, rest, protocol, size);
      SentStep(old(Binaries(writer.frames)), packets, rest[..size], encrypt.keystream, old(encrypt.position));
      packets, rest := packets + [rest[..size]], rest[size..];
    }
  }

  // ---------------------------------------------------------------- what the upstream makes of it

  /** Decrypted one after another, the payloads are the packets one after another. */
  lemma {:induction false} ConcatEncryptEach(packets: seq<seq<byte>>, ks: Keystream, pos: nat)
    ensures Concat(EncryptEach(packets, ks, pos)) == Crypt(Concat(packets), ks, pos)
  {
    if |packets| > 0 {
      var front, last := packets[..|packets| - 1], packets[|packets| - 1];
      ConcatEncryptEach(front, ks, pos);
      ConcatAppend(EncryptEach(front, ks, pos), Crypt(last, ks, pos + |Concat(front)|));
      ConcatAppend(front, last);
      assert packets == front + [last];
      CryptConcat(Concat(front), last, ks, pos);
    }
  }

  /** Nothing of the plaintext is lost or reordered: the packets are its front, and what follows them is
      what stopped the list. */
  lemma {:induction false} PacketsPartition(plain: seq<byte>, protocol: Protocol)
    ensures var (packets, stop) := Packets(plain, protocol);
      && Concat(packets) <= plain
      && !stop.Packet? && stop == NextPacket(plain[|Concat(packets)|..], protocol)
      && (stop.End? <==> Concat(packets) == plain)
    decreases |plain|
  {
    var next := NextPacket(plain, protocol);
    var (packets, stop) := Packets(plain, protocol);
    if next.Packet? {
      hide NextPacket;
      var head, tail := plain[..next.size], plain[next.size..];
      PacketsPartition(tail, protocol);
      var after := Packets(tail, protocol).0;
      assert packets[1..] == after && packets[0] == head;
      assert Concat(packets) == head + Concat(after);
      assert plain == head + tail;
      assert plain[|Concat(packets)|..] == tail[|Concat(after)|..];
    }
  }

  /** A packet as a client sends it: a header and exactly the payload it announces. */
  predicate IsPacket(p: seq<byte>, protocol: Protocol) {
    PacketLength(p, protocol).Ok? && PacketLength(p, protocol).value.Some? &&
    var (size, length) := PacketLength(p, protocol).value.value;
    |p| == size + length
  }

  lemma FrontPacket(p: seq<byte>, rest: seq<byte>, protocol: Protocol)
    requires IsPacket(p, protocol)
    ensures var next := NextPacket(p + rest, protocol);
      next.Packet? && next.size == |p| && (p + rest)[..next.size] == p && (p + rest)[next.size..] == rest
  {
    SelfDelimiting(p, protocol);
    SelfDelimiting(p + rest, protocol);
    assert (p + rest)[..HeaderLen(p[0], protocol)] == p[..HeaderLen(p[0], protocol)];
  }

  /** A client that sends packets has exactly those packets found in its plaintext. */
  lemma {:induction false} PacketsOfClient(packets: seq<seq<byte>>, protocol: Protocol)
    requires forall p | p in packets :: IsPacket(p, protocol)
    ensures Packets(Concat(packets), protocol) == (packets, End)
  {
    if |packets| > 0 {
      FrontPacket(packets[0], Concat(packets[1..]), protocol);
      hide NextPacket;
      PacketsOfClient(packets[1..], protocol);
      assert packets == [packets[0]] + packets[1..];
    }
  }

  // ---------------------------------------------------------------- without packet boundaries

  lemma RecryptNext(left: seq<byte>, from: Keystream, fromPos: nat, target: Keystream, toPos: nat, at: nat, n: nat)
    requires at + n <= |left|
    ensures left[at..][..n] == left[at..at + n] && left[at..][n..] == left[at + n..]
    ensures Recrypt(left[..at], from, fromPos, target, toPos)
        + Recrypt(left[at..at + n], from, fromPos + at, target, toPos + at)
         == Recrypt(left[..at + n], from, fromPos, target, toPos)
  {
    hide Recrypt;
    RecryptConcat(left[..at], left[at..at + n], from, fromPos, target, toPos);
    assert left[..at + n] == left[..at] + left[at..at + n];
  }

  /** One read, one frame. */
  method SendChunk(reader: Source, writer: Writer, decrypt: AesCtr, encrypt: AesCtr, buffer: array<byte>)
    returns (n: nat, ok: bool)
    requires reader.Valid() && writer.Valid() && writer.Idle() && !writer.broken && decrypt != encrypt
    requires 0 < buffer.Length <= MAX_MESSAGE
    modifies reader`taken, writer, writer.wire, decrypt`position, encrypt`position, buffer
    ensures reader.Valid() && n <= |old(reader.Left())| && (n == 0 <==> |old(reader.Left())| == 0)
    ensures reader.Left() == old(reader.Left())[n..]
    ensures decrypt.position == old(decrypt.position) + n && encrypt.position == old(encrypt.position) + n
    ensures writer.Valid() && ok == !writer.broken && (ok ==> writer.Idle())
    ensures Binaries(writer.frames) == old(Binaries(writer.frames)) +
      if ok && n > 0 then [Recrypt(old(reader.Left())[..n], decrypt.keystream, old(decrypt.position),
                                   encrypt.keystream, old(encrypt.position))]
      else []
  {
    hide Recrypt, Binaries;
    n := ReadRecrypted(reader, decrypt, encrypt, buffer, buffer.Length);
    ok := true;
    assert Binaries(writer.frames) + [] == Binaries(writer.frames);
    if n == 0 {
      return;
    }
    ok := OthersWrite(writer);
    if !ok {
      return;
    }
    ghost var before, piece := writer.frames, buffer[..n];
    ok := writer.Binary(buffer, n);
    if ok {
      ghost var m: Mask :| writer.frames == before + [Frame(true, 2, Some(m), piece)];
      BinariesAppend(before, Frame(true, 2, Some(m), piece));
    }
  }

  /** The upload of a protocol whose packets the origin does not need framed: the payloads, put together,
      are the client's stream re-encrypted. */
  method UploadStream(reader: Source, writer: Writer, decrypt: AesCtr, encrypt: AesCtr, bufferSize: nat)
    returns (ok: bool, ghost pieces: seq<seq<byte>>)
    requires reader.Valid() && writer.Valid() && writer.Idle() && !writer.broken && decrypt != encrypt
    requires 0 < bufferSize <= MAX_MESSAGE
    modifies reader`taken, writer, writer.wire, decrypt`position, encrypt`position
    ensures writer.Valid() && ok == !writer.broken
    ensures Binaries(writer.frames) == old(Binaries(writer.frames)) + pieces
    ensures var all := Recrypt(old(reader.Left()), decrypt.keystream, old(decrypt.position),
                               encrypt.keystream, old(encrypt.position));
      && Concat(pieces) <= all
      && (ok ==> Concat(pieces) == all)
  {
    hide *;
    ghost var left, start := reader.Left(), encrypt.position;
    ghost var moved: nat := 0;
    var buffer := new byte[bufferSize];
    pieces := [];
    assert Binaries(writer.frames) + [] == Binaries(writer.frames);
    RecryptFront(left, decrypt.keystream, decrypt.position, encrypt.keystream, start, 0);
    while true
      invariant reader.Valid() && moved <= |left| && reader.Left() == left[moved..]
      invariant writer.Valid() && writer.Idle() && !writer.broken
      invariant decrypt.position == old(decrypt.position) + moved && encrypt.position == start + moved
      invariant Binaries(writer.frames) == old(Binaries(writer.frames)) + pieces
      invariant Concat(pieces) == Recrypt(left[..moved], decrypt.keystream, old(decrypt.position), encrypt.keystream,
          start)
      decreases |left| - moved
    {
      var n;
      n, ok := SendChunk(reader, writer, decrypt, encrypt, buffer);
      RecryptFront(left, decrypt.keystream, old(decrypt.position), encrypt.keystream, start, moved);
      if n == 0 || !ok {
        return;
      }
      RecryptNext(left, decrypt.keystream, old(decrypt.position), encrypt.keystream, start, moved, n);
      ghost var piece := Recrypt(left[moved..moved + n], decrypt.keystream, old(decrypt.position) + moved,
                                 encrypt.keystream, start + moved);
      ConcatAppend(pieces, piece);
      Associate(old(Binaries(writer.frames)), pieces, [piece]);
      pieces, moved := pieces + [piece], moved + n;
    }
  }

  lemma RecryptFront(left: seq<byte>, from: Keystream, fromPos: nat, target: Keystream, toPos: nat, at: nat)
    requires at <= |left|
    ensures Recrypt(left[..at], from, fromPos, target, toPos) <= Recrypt(left, from, fromPos, target, toPos)
    ensures at == 0 ==> Recrypt(left[..at], from, fromPos, target, toPos) == Concat([])
    ensures at == |left| ==>
        Recrypt(left[..at], from, fromPos, target, toPos) == Recrypt(left, from, fromPos, target, toPos)
  {
    RecryptConcat(left[..at], left[at..], from, fromPos, target, toPos);
    assert left == left[..at] + left[at..];
  }
}
