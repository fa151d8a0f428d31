/** A served connection from end to end: what the data centre makes of what the client sent, and the client of
    what the data centre answers. */
module Serving {
  import opened Bytes
  import opened Framing
  import opened H2Bridge
  import opened Handshake
  import opened Options
  import opened Pumps
  import opened ReplyFraming
  import opened Streams
  import opened Upload
  import opened WsFrames
  import opened WsReader
  import opened WsWriter

  /** The data centre, whether it is for media, and whether it is a test one. */
  function NormalizeDc(index: int, forceTest: bool): Option<(int, bool, bool)>
    requires IsI16(index)
  {
    if index == -32768 then None
    else
      var unsigned := if index < 0 then -index else index;
      var test := unsigned >= 10000 || forceTest;
      var dc := if unsigned >= 10000 then unsigned - 10000 else unsigned;
      if !(1 <= dc <= 5 || dc == 203) || (test && !(1 <= dc <= 3)) then None
      else Some((dc, index < 0, test))
  }

  /** Which indices are served: the five data centres and 203, of which the first three have test
      counterparts, 10000 further out. The sign goes on to the data centre, the test offset does not. */
  lemma NormalizedSign(index: int, forceTest: bool)
    requires IsI16(index)
    ensures var unsigned := if index < 0 then -index else index;
      NormalizeDc(index, forceTest).Some? <==>
        unsigned in {1, 2, 3, 10001, 10002, 10003} || (!forceTest && unsigned in {4, 5, 203})
    ensures NormalizeDc(index, forceTest).Some? ==>
      var (dc, media, test) := NormalizeDc(index, forceTest).value;
      var sent := if media then -dc else dc;
      && (index == sent || index == sent + (if media then -10000 else 10000))
      && (test <==> forceTest || index != sent)
  {
  }

  // ---------------------------------------------------------------- greeting

  /** What was read of the client: its handshake, sealed with the secret, and the data centre it goes to. */
  ghost predicate Greeted(p: Primitives, secret: seq<byte>, forceTest: bool, sent: seq<byte>, c: ClientHandshake,
      dc: int) {
    && |sent| >= 64 && ParseClientHandshake(p, sent[..64], secret) == Some(c) && c.prekeyIv == sent[8..56]
    && IsI16(c.dcIndex) && NormalizeDc(c.dcIndex, forceTest).Some?
    && var (at, media, _) := NormalizeDc(c.dcIndex, forceTest).value; dc == (if media then -at else at)
  }

  /** Whether a client can be served at all. */
  ghost predicate Welcome(p: Primitives, secret: seq<byte>, forceTest: bool, sent: seq<byte>) {
    exists c, dc :: Greeted(p, secret, forceTest, sent, c, dc)
  }

  /** What the client sends after its handshake. */
  ghost function PlainOf(p: Primitives, secret: seq<byte>, sent: seq<byte>): seq<byte>
    requires |sent| >= 64
  {
    Crypt(sent, ClientStream(p, sent[8..56], secret), 0)[64..]
  }

  method Greet(p: Primitives, secret: seq<byte>, forceTest: bool, client: Source)
    returns (greeting: Option<(ClientHandshake, int)>)
    requires client.Valid()
    modifies client`taken
    ensures client.Valid()
    ensures greeting.Some? <==> Welcome(p, secret, forceTest, old(client.Left()))
    ensures greeting.Some? ==>
      var sent, (c, dc) := old(client.Left()), greeting.value;
      && Greeted(p, secret, forceTest, sent, c, dc) && client.Left() == sent[64..]
      && Crypt(client.Left(), ClientStream(p, c.prekeyIv, secret), 64) == PlainOf(p, secret, sent)
  {
    hide Crypt, ParseClientHandshake, Sealed;
    var handshake := new byte[64];
    ghost var sent := client.Left();
    var filled := client.ReadExact(handshake, 0, 64);
    if !filled {
      return None;
    }
    assert handshake[..] == handshake[0..64] == sent[..64];
    var parsed := ParseClientHandshake(p, handshake[..], secret);
    if parsed.None? {
      return None;
    }
    AcceptedIsSealed(p, handshake[..], secret);
    assert sent[..64][8..56] == sent[8..56];
    var normal := NormalizeDc(parsed.value.dcIndex, forceTest);
    if normal.None? {
      return None;
    }
    CryptTail(sent, ClientStream(p, sent[8..56], secret), 0, 64);
    var dc := if normal.value.1 then -normal.value.0 else normal.value.0;
    assert Greeted(p, secret, forceTest, sent, parsed.value, dc);
    return Some((parsed.value, dc));
  }

  // ---------------------------------------------------------------- the way up

  /** What the owner of the other end of a relay handshake makes of the bytes it receives. */
  ghost predicate DataCentreSees(p: Primitives, wire: seq<byte>, protocol: Protocol, dc: int, plain: seq<byte>) {
    |wire| >= 64 && !Reserved(wire) &&
    var seen := Crypt(wire, RelayStream(p, wire), 0);
    seen[56..60] == Tag(protocol) && ToI16(seen[60..62]) == dc && seen[64..] == plain
  }

  /** A relay handshake and what is encrypted after it. */
  lemma RelayIsSeen(p: Primitives, r: Block, protocol: Protocol, dc: int, plain: seq<byte>)
    requires IsI16(dc) && !Reserved(Sealed(r, RelayStream(p, r), protocol, dc))
    ensures var relay := Sealed(r, RelayStream(p, r), protocol, dc);
      DataCentreSees(p, relay + Crypt(plain, RelayStream(p, relay), 64), protocol, dc, plain)
  {
    var ks := RelayStream(p, r);
    var relay := Sealed(r, ks, protocol, dc);
    var wire := relay + Crypt(plain, ks, 64);
    hide Crypt;
    assert relay[8..40] == r[8..40] && relay[40..56] == r[40..56];
    assert wire[8..40] == relay[8..40] && wire[40..56] == relay[40..56];
    assert wire[..4] == relay[..4] && wire[4..8] == relay[4..8] && wire[0] == relay[0];
    SealedOpens(r, ks, protocol, dc, plain);
  }

  datatype Served = Relayed(dc: int, protocol: Protocol) | Unrecognised | Failed

  /** The upload of a directly bridged client. On a clean end the data centre, deciphering from the first
      byte with nothing but the relay handshake, sees the client's protocol, its data centre, and after
      them exactly the client's plaintext; on any other, once it has the handshake, the front of that. */
  method ServeTcp(
    p: Primitives, secret: seq<byte>, forceTest: bool, client: Source, remote: Sink, draws: nat -> Block,
    ghost enough: nat, bufferSize: nat) returns (served: Served, ghost passed: seq<byte>)
    requires client.Valid() && remote.wire == [] && !Reserved(draws(enough)) && bufferSize > 0
    modifies client`taken, remote
    ensures served.Unrecognised? <==> !Welcome(p, secret, forceTest, old(client.Left()))
    ensures served.Unrecognised? ==> remote.wire == []
    ensures served.Relayed? ==>
      var sent := old(client.Left());
      && |sent| >= 64 && |remote.wire| == |sent|
      && (exists c :: Greeted(p, secret, forceTest, sent, c, served.dc) && c.protocol == served.protocol)
      && DataCentreSees(p, remote.wire, served.protocol, served.dc, PlainOf(p, secret, sent))
    ensures served.Failed? && |remote.wire| >= 64 ==>
      var sent := old(client.Left());
      && |sent| >= 64 && passed <= PlainOf(p, secret, sent)
      && exists c, dc ::
           Greeted(p, secret, forceTest, sent, c, dc) && DataCentreSees(p, remote.wire, c.protocol, dc, passed)
  {
    hide Crypt, DataCentreSees, ParseClientHandshake, Sealed;
    passed := [];
    var greeting := Greet(p, secret, forceTest, client);
    if greeting.None? {
      return Unrecognised, [];
    }
    served, passed := Relay(p, secret, greeting.value.0, greeting.value.1, client, remote, draws, enough, bufferSize);
    assert Greeted(p, secret, forceTest, old(client.Left()), greeting.value.0, greeting.value.1);
  }

  /** Draws a relay handshake, sends it, and pumps. */
  method Relay(
    p: Primitives, secret: seq<byte>, parsed: ClientHandshake, dc: int, client: Source, remote: Sink,
    draws: nat -> Block, ghost enough: nat, bufferSize: nat) returns (served: Served, ghost passed: seq<byte>)
    requires client.Valid() && remote.wire == [] && !Reserved(draws(enough)) && bufferSize > 0
    requires IsI16(dc) && |parsed.prekeyIv| == 48
    modifies client`taken, remote
    ensures !served.Unrecognised?
    ensures var plain := Crypt(old(client.Left()), ClientStream(p, parsed.prekeyIv, secret), 64);
      && passed <= plain
      && (|remote.wire| >= 64 ==> DataCentreSees(p, remote.wire, parsed.protocol, dc, passed))
      && (served.Relayed? ==>
            && served.dc == dc && served.protocol == parsed.protocol
            && |remote.wire| == 64 + |old(client.Left())| && passed == plain)
  {
    hide *;
    ghost var left := client.Left();
    var relay, drawn := GenerateRelayHandshake(p, parsed.protocol, dc, draws, enough);
    var context := new CryptoContext(p, parsed, secret, relay);
    passed := [];
    var ok := remote.WriteAll(relay);
    if !ok && |remote.wire| < 64 {
      return Served.Failed, [];
    }
    if ok {
      ok := CopyCrypto(client, remote, context.clientDecrypt, context.upstreamEncrypt, bufferSize);
    }
    passed := FrontIsSeen(p, draws(drawn), parsed.protocol, dc, left, ClientStream(p, parsed.prekeyIv, secret),
        remote.wire);
    served := if ok then Relayed(dc, parsed.protocol) else Served.Failed;
  }

  /** A relay handshake and the front of what was re-encrypted after it. */
  lemma FrontIsSeen(p: Primitives, r: Block, protocol: Protocol, dc: int, left: seq<byte>, down: Keystream,
      wire: seq<byte>)
    returns (passed: seq<byte>)
    requires IsI16(dc) && !Reserved(Sealed(r, RelayStream(p, r), protocol, dc))
    requires var relay := Sealed(r, RelayStream(p, r), protocol, dc);
      relay <= wire <= relay + Recrypt(left, down, 64, RelayStream(p, relay), 64)
    ensures passed <= Crypt(left, down, 64) && |wire| == 64 + |passed|
    ensures DataCentreSees(p, wire, protocol, dc, passed)
    ensures var relay := Sealed(r, RelayStream(p, r), protocol, dc);
      wire == relay + Recrypt(left, down, 64, RelayStream(p, relay), 64) ==>
        passed == Crypt(left, down, 64) && |passed| == |left|
  {
    hide Crypt, DataCentreSees, Sealed, Recrypt, RelayStream;
    var relay := Sealed(r, RelayStream(p, r), protocol, dc);
    var up := RelayStream(p, relay);
    var front := wire[64..];
    assert wire == relay + front;
    FrontOfRecrypted(left, down, 64, up, 64, front);
    passed := Crypt(left, down, 64)[..|front|];
    RelayIsSeen(p, r, protocol, dc, passed);
    WholeRecrypted(left, down, 64, up, 64);
  }

  lemma WholeRecrypted(sent: seq<byte>, from: Keystream, i: nat, target: Keystream, j: nat)
    ensures |Recrypt(sent, from, i, target, j)| == |Crypt(sent, from, i)| == |sent|
  {
  }

  /** What follows the handshake in the binary frames: packet by packet, or as it comes. */
  ghost predicate Carries(passed: seq<byte>, plain: seq<byte>, protocol: Protocol, packetized: bool, clean: bool) {
    if packetized then
      exists packets :: passed == Concat(packets) && packets <= Packets(plain, protocol).0
                        && (clean ==> packets == Packets(plain, protocol).0)
    else passed <= plain && (clean ==> passed == plain)
  }

  /** No more is on the wire than the front of one frame, and that carries a relay handshake for this client. */
  ghost predicate GreetingCut(p: Primitives, wire: seq<byte>, protocol: Protocol, dc: int) {
    exists relay: seq<byte>, m: Mask ::
      |relay| == 64 && DataCentreSees(p, relay, protocol, dc, []) && wire <= Encode(Frame(true, 2, Some(m), relay))
  }

  lemma RelayAloneIsSeen(p: Primitives, r: Block, protocol: Protocol, dc: int)
    requires IsI16(dc) && !Reserved(Sealed(r, RelayStream(p, r), protocol, dc))
    ensures DataCentreSees(p, Sealed(r, RelayStream(p, r), protocol, dc), protocol, dc, [])
  {
    var relay := Sealed(r, RelayStream(p, r), protocol, dc);
    RelayIsSeen(p, r, protocol, dc, []);
    assert relay + Crypt([], RelayStream(p, relay), 64) == relay;
  }

  /** The upload over a WebSocket: the relay handshake is the first binary frame, and the payloads of the frames,
      put together, are what the data centre deciphers. On a clean end they hold all packets of the client, or all
      it sent where packets are not kept apart; on any other the first of them. When the handshake itself could not
      be written, only the front of its frame went out. */
  method ServeWs(
    p: Primitives, secret: seq<byte>, forceTest: bool, client: Source, writer: Writer, draws: nat -> Block,
    ghost enough: nat, packetized: bool, bufferSize: nat) returns (served: Served, clean: bool, ghost passed: seq<byte>)
    requires client.Valid() && writer.Valid() && writer.Idle() && !writer.broken && writer.frames == []
    requires !Reserved(draws(enough)) && 0 < bufferSize <= MAX_MESSAGE
    modifies client`taken, writer, writer.wire
    ensures writer.Valid()
    ensures served.Unrecognised? <==> !Welcome(p, secret, forceTest, old(client.Left()))
    ensures served.Unrecognised? ==> writer.frames == []
    ensures served.Relayed? ==>
      var sent := old(client.Left());
      && |sent| >= 64
      && (exists c :: Greeted(p, secret, forceTest, sent, c, served.dc) && c.protocol == served.protocol)
      && Carries(passed, PlainOf(p, secret, sent), served.protocol, packetized, clean)
      && DataCentreSees(p, Concat(Binaries(writer.frames)), served.protocol, served.dc, passed)
      && |Binaries(writer.frames)| > 0 && |Binaries(writer.frames)[0]| == 64
      && writer.frames <= DecodeAll(writer.wire.wire).0
    ensures served.Failed? ==>
      var sent := old(client.Left());
      && writer.frames == [] && passed == [] && !clean
      && exists c, dc :: Greeted(p, secret, forceTest, sent, c, dc) && GreetingCut(p, writer.wire.wire, c.protocol, dc)
  {
    hide Crypt, DataCentreSees, ParseClientHandshake, Sealed, Carries, GreetingCut;
    clean, passed := false, [];
    var greeting := Greet(p, secret, forceTest, client);
    if greeting.None? {
      return Unrecognised, false, [];
    }
    served, clean, passed :=
      RelayWs(p, secret, greeting.value.0, greeting.value.1, client, writer, draws, enough, packetized, bufferSize);
  }

  lemma BinariesOfNone()
    ensures Binaries([]) == []
  {
  }

  /** The handshake in a frame of its own. */
  method SendRelay(writer: Writer, relay: Block) returns (ok: bool)
    requires writer.Valid() && writer.Idle() && !writer.broken && writer.frames == []
    modifies writer, writer.wire
    ensures writer.Valid() && ok == !writer.broken && (ok ==> writer.Idle() && Binaries(writer.frames) == [relay])
    ensures !ok ==> writer.frames == [] && exists m: Mask :: writer.wire.wire <= Encode(Frame(true, 2, Some(m), relay))
  {
    assert writer.wire.wire == [];
    hide EncodeAll, WireWith, Binaries, Encode;
    var frame := new byte[64](i requires 0 <= i < 64 => relay[i]);
    assert frame[..64] == relay;
    ok := writer.Binary(frame, 64);
    if ok {
      ghost var m: Mask :| writer.frames == [] + [Frame(true, 2, Some(m), relay)];
      BinariesAppend([], Frame(true, 2, Some(m), relay));
      BinariesOfNone();
    } else {
      ghost var m: Mask :| writer.wire.wire <= [] + Encode(Frame(true, 2, Some(m), relay));
      assert [] + Encode(Frame(true, 2, Some(m), relay)) == Encode(Frame(true, 2, Some(m), relay));
    }
  }

  method RelayWs(
    p: Primitives, secret: seq<byte>, parsed: ClientHandshake, dc: int, client: Source, writer: Writer,
    draws: nat -> Block, ghost enough: nat, packetized: bool, bufferSize: nat)
    returns (served: Served, clean: bool, ghost passed: seq<byte>)
    requires client.Valid() && writer.Valid() && writer.Idle() && !writer.broken && writer.frames == []
    requires !Reserved(draws(enough)) && 0 < bufferSize <= MAX_MESSAGE && IsI16(dc) && |parsed.prekeyIv| == 48
    modifies client`taken, writer, writer.wire
    ensures writer.Valid() && !served.Unrecognised?
    ensures served.Relayed? ==>
      && served.dc == dc && served.protocol == parsed.protocol
      && Carries(passed, Crypt(old(client.Left()), ClientStream(p, parsed.prekeyIv, secret), 64), parsed.protocol,
                 packetized, clean)
      && DataCentreSees(p, Concat(Binaries(writer.frames)), parsed.protocol, dc, passed)
      && |Binaries(writer.frames)| > 0 && |Binaries(writer.frames)[0]| == 64
      && writer.frames <= DecodeAll(writer.wire.wire).0
    ensures served.Failed? ==>
      writer.frames == [] && passed == [] && !clean && GreetingCut(p, writer.wire.wire, parsed.protocol, dc)
  {
    hide Crypt, DataCentreSees, Sealed, Binaries, Encode, EncodeAll, WireWith, DecodeAll, Packets, EncryptEach;
    clean, passed := false, [];
    ghost var plain := Crypt(client.Left(), ClientStream(p, parsed.prekeyIv, secret), 64);
    var relay, drawn := GenerateRelayHandshake(p, parsed.protocol, dc, draws, enough);
    var context := new CryptoContext(p, parsed, secret, relay);
    var ok := SendRelay(writer, relay);
    if !ok {
      RelayAloneIsSeen(p, draws(drawn), parsed.protocol, dc);
      return Served.Failed, false, [];
    }
    ghost var pieces;
    clean, pieces, passed :=
      Pump(client, writer, context.clientDecrypt, context.upstreamEncrypt, parsed.protocol, packetized, bufferSize);
    ConcatFirst(relay, pieces);
    RelayIsSeen(p, draws(drawn), parsed.protocol, dc, passed);
    return Relayed(dc, parsed.protocol), clean, passed;
  }

  /** Either of the two uploads: the frames, deciphered one after another, are what passed. */
  method Pump(client: Source, writer: Writer, decrypt: AesCtr, encrypt: AesCtr, protocol: Protocol, packetized: bool,
              bufferSize: nat) returns (clean: bool, ghost pieces: seq<seq<byte>>, ghost passed: seq<byte>)
    requires client.Valid() && writer.Valid() && writer.Idle() && !writer.broken && decrypt != encrypt
    requires 0 < bufferSize <= MAX_MESSAGE
    modifies client`taken, writer, writer.wire, decrypt`position, encrypt`position
    ensures writer.Valid() && Binaries(writer.frames) == old(Binaries(writer.frames)) + pieces
    ensures Concat(pieces) == Crypt(passed, encrypt.keystream, old(encrypt.position))
    ensures Carries(passed, Crypt(old(client.Left()), decrypt.keystream, old(decrypt.position)), protocol, packetized,
        clean)
    ensures writer.frames <= DecodeAll(writer.wire.wire).0
  {
    hide Crypt, Binaries, EncodeAll, WireWith, DecodeAll, Packets, EncryptEach, Recrypt;
    ghost var plain := Crypt(client.Left(), decrypt.keystream, decrypt.position);
    if packetized {
      var end;
      ghost var packets;
      end, packets := UploadPackets(client, writer, decrypt, encrypt, protocol, bufferSize);
      clean, passed := end.Ended?, Concat(packets);
      pieces := EncryptEach(packets, encrypt.keystream, old(encrypt.position));
      ConcatEncryptEach(packets, encrypt.keystream, old(encrypt.position));
    } else {
      clean, pieces := UploadStream(client, writer, decrypt, encrypt, bufferSize);
      writer.WireDecodes();
      passed := plain[..|Concat(pieces)|];
      FrontOfRecrypted(
        old(client.Left()), decrypt.keystream, old(decrypt.position), encrypt.keystream, old(encrypt.position),
        Concat(pieces));
    }
  }

  /** The front of a re-encrypted stream is the front of the plaintext encrypted. */
  lemma FrontOfRecrypted(sent: seq<byte>, from: Keystream, i: nat, target: Keystream, j: nat, front: seq<byte>)
    requires front <= Recrypt(sent, from, i, target, j)
    ensures |front| <= |sent| == |Crypt(sent, from, i)|
    ensures front == Crypt(Crypt(sent, from, i)[..|front|], target, j)
  {
  }

  // ---------------------------------------------------------------- the way down

  /** What a client makes of the bytes it receives. */
  ghost function ClientReads(p: Primitives, wire: seq<byte>, prekeyIv: seq<byte>, secret: seq<byte>): seq<byte>
    requires |prekeyIv| == 48
  {
    Crypt(wire, ClientStream(p, Reverse(prekeyIv), secret), 0)
  }

  /** The front of what was re-encrypted is read as the front of what was written. */
  lemma AnswerIsRead(plain: seq<byte>, from: Keystream, target: Keystream, wire: seq<byte>)
    requires wire <= Recrypt(Crypt(plain, from, 0), from, 0, target, 0)
    ensures Crypt(wire, target, 0) == plain[..|wire|] && |wire| <= |plain|
  {
    FrontOfRecrypted(Crypt(plain, from, 0), from, 0, target, 0, wire);
    CryptInvolutive(plain, from, 0);
    CryptInvolutive(plain[..|wire|], target, 0);
  }

  /** The direct bridge downwards. Whatever the data centre writes under the reversed keys of the handshake it was
      sent, the client reads under its own reversed: the front of it at any time, all of it on a clean end. */
  method AnswerTcp(
    p: Primitives, secret: seq<byte>, parsed: ClientHandshake, relay: Block, context: CryptoContext,
    remote: Source, client: Sink, bufferSize: nat, ghost received: seq<byte>, ghost plain: seq<byte>) returns (ok: bool)
    requires |parsed.prekeyIv| == 48 && context.Answers(p, parsed.prekeyIv, secret, relay) && bufferSize > 0
    requires relay <= received && remote.Valid() && remote.Left() == Crypt(plain, ReversedStream(p, received), 0)
    requires client.wire == []
    modifies remote`taken, client, context.upstreamDecrypt`position, context.clientEncrypt`position
    ensures ClientReads(p, client.wire, parsed.prekeyIv, secret) <= plain
    ensures ok ==> ClientReads(p, client.wire, parsed.prekeyIv, secret) == plain
  {
    hide Crypt, Recrypt;
    assert received[8..56] == relay[8..56];
    ok := CopyCrypto(remote, client, context.upstreamDecrypt, context.clientEncrypt, bufferSize);
    AnswerIsRead(plain, ReversedStream(p, relay), ClientStream(p, Reverse(parsed.prekeyIv), secret), client.wire);
    RecryptSize(plain, ReversedStream(p, relay), ClientStream(p, Reverse(parsed.prekeyIv), secret));
  }

  lemma RecryptSize(plain: seq<byte>, from: Keystream, target: Keystream)
    ensures |Recrypt(Crypt(plain, from, 0), from, 0, target, 0)| == |plain|
  {
  }

  /** The same over a WebSocket: what the origin's data frames carry, up to its close frame. */
  method AnswerWs(
    p: Primitives, secret: seq<byte>, parsed: ClientHandshake, relay: Block, context: CryptoContext,
    reader: Reader, writer: Writer, client: Sink, bufferSize: nat, ghost received: seq<byte>, ghost plain: seq<byte>)
    returns (end: Chunk)
    requires |parsed.prekeyIv| == 48 && context.Answers(p, parsed.prekeyIv, secret, relay) && bufferSize > 0
    requires reader.Valid() && writer.Valid() && writer.Idle() && !writer.broken && writer.wire != client
    requires relay <= received && reader.Ahead().data == Crypt(plain, ReversedStream(p, received), 0)
    requires client.wire == []
    modifies reader, reader.wire`taken, writer, writer.wire, client
    modifies context.upstreamDecrypt`position, context.clientEncrypt`position
    ensures ClientReads(p, client.wire, parsed.prekeyIv, secret) <= plain
    ensures end.Close? || end.Failed? ==> ClientReads(p, client.wire, parsed.prekeyIv, secret) == plain
  {
    hide Crypt, Recrypt, Deliver, EncodeAll, WireWith;
    assert received[8..56] == relay[8..56];
    end := DownloadWs(reader, writer, client, context.upstreamDecrypt, context.clientEncrypt, bufferSize);
    AnswerIsRead(plain, ReversedStream(p, relay), ClientStream(p, Reverse(parsed.prekeyIv), secret), client.wire);
    RecryptSize(plain, ReversedStream(p, relay), ClientStream(p, Reverse(parsed.prekeyIv), secret));
  }

  // ---------------------------------------------------------------- over HTTP/2

  /** The third route sends no handshake: what goes up are the request bodies in the client's plaintext, one after
      another, all of them up to the first that is not acceptable. */
  method ServeH2(
    p: Primitives, secret: seq<byte>, forceTest: bool, client: Source, draws: nat -> Block, ghost enough: nat)
    returns (greeting: Option<(ClientHandshake, int)>, bodies: seq<seq<byte>>, end: Read)
    requires client.Valid() && !Reserved(draws(enough))
    modifies client`taken
    ensures greeting.Some? <==> Welcome(p, secret, forceTest, old(client.Left()))
    ensures greeting.None? ==> bodies == []
    ensures greeting.Some? ==>
      var sent, (c, dc) := old(client.Left()), greeting.value;
      && Greeted(p, secret, forceTest, sent, c, dc) && !end.Got?
      && bodies <= Bodies(PlainOf(p, secret, sent), c.protocol)
      && (end.Unacceptable? ==> bodies == Bodies(PlainOf(p, secret, sent), c.protocol))
  {
    hide Crypt, ParseClientHandshake, Bodies;
    bodies, end := [], Unacceptable;
    greeting := Greet(p, secret, forceTest, client);
    if greeting.None? {
      return;
    }
    var (parsed, dc) := greeting.value;
    var relay, drawn := GenerateRelayHandshake(p, parsed.protocol, dc, draws, enough);
    var context := new CryptoContext(p, parsed, secret, relay);
    bodies, end := UploadBodies(client, context.clientDecrypt, parsed.protocol);
  }

  /** Replies, in whatever parts they came, are read by the client as one frame after another: the front of them at
      any time, all of them when none failed. */
  method AnswerH2(
    p: Primitives, secret: seq<byte>, parsed: ClientHandshake, relay: Block, context: CryptoContext, client: Sink,
    replies: seq<seq<seq<byte>>>, bodies: seq<seq<byte>>, paddings: seq<seq<byte>>, bufferSize: nat) returns (ok: bool)
    requires |parsed.prekeyIv| == 48 && context.Answers(p, parsed.prekeyIv, secret, relay) && client.wire == []
    requires |replies| == |bodies| == |paddings|
    requires forall i | 0 <= i < |replies| ::
        Concat(replies[i]) == bodies[i] && ValidPadding(paddings[i], parsed.protocol)
    modifies client, context.clientEncrypt`position
    ensures ClientReads(p, client.wire, parsed.prekeyIv, secret) <= FrameAll(bodies, paddings, parsed.protocol)
    ensures ok ==> ClientReads(p, client.wire, parsed.prekeyIv, secret) == FrameAll(bodies, paddings, parsed.protocol)
  {
    hide Crypt, FrameAll, ValidPadding;
    ok := DownloadReplies(client, context.clientEncrypt, replies, bodies, paddings, parsed.protocol, bufferSize);
    ghost var frames, ks := FrameAll(bodies, paddings, parsed.protocol),
        ClientStream(p, Reverse(parsed.prekeyIv), secret);
    assert [] + Crypt(frames, ks, 0) == Crypt(frames, ks, 0);
    FrontIsRead(frames, ks, client.wire);
  }

  lemma FrontIsRead(plain: seq<byte>, ks: Keystream, wire: seq<byte>)
    requires wire <= Crypt(plain, ks, 0)
    ensures Crypt(wire, ks, 0) == plain[..|wire|] && |wire| <= |plain| == |Crypt(plain, ks, 0)|
  {
    assert wire == Crypt(plain[..|wire|], ks, 0);
    CryptInvolutive(plain[..|wire|], ks, 0);
  }
}
