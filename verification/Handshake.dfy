/** The two obfuscation handshakes of a relayed connection and the four ciphers they fix. */
module Handshake {
  import opened Bytes
  import opened Framing
  import opened Options
  import opened Upload

  type Block = b: seq<byte> | |b| == 64 witness seq(64, i => 0)

  /** The two primitives, known only as functions: a cipher's keystream for a key and an initial counter,
      and a hash. */
  datatype Primitives = Primitives(aes: (seq<byte>, seq<byte>) -> Keystream, sha: seq<byte> -> seq<byte>)

  datatype ClientHandshake = ClientHandshake(dcIndex: int, protocol: Protocol, prekeyIv: seq<byte>)

  predicate IsI16(i: int) {
    -32768 <= i < 32768
  }

  function ToI16(b: seq<byte>): int {
    if FromLe(b) >= 32768 then FromLe(b) - 65536 else FromLe(b)
  }

  function FromI16(i: int): (b: seq<byte>)
    requires IsI16(i)
    ensures |b| == 2
  {
    ToLe(if i < 0 then i + 65536 else i, 2)
  }

  lemma I16RoundTrip(i: int)
    requires IsI16(i)
    ensures ToI16(FromI16(i)) == i
  {
    Powers();
    LeRoundTrip(if i < 0 then i + 65536 else i, 2);
  }

  lemma I16Inverse(b: seq<byte>)
    requires |b| == 2
    ensures IsI16(ToI16(b)) && FromI16(ToI16(b)) == b
  {
    Powers();
    LeInverse(b);
  }

  /** A handshake with its tag and data centre hidden under a cipher. */
  function Sealed(r: Block, ks: Keystream, protocol: Protocol, dc: int): Block
    requires IsI16(dc)
  {
    r[..56] + Crypt(Tag(protocol) + FromI16(dc) + r[62..], ks, 56)
  }

  /** Deciphering all of it uncovers them, and leaves the cipher at position 64. */
  lemma SealedOpens(r: Block, ks: Keystream, protocol: Protocol, dc: int, rest: seq<byte>)
    requires IsI16(dc)
    ensures var seen := Crypt(Sealed(r, ks, protocol, dc) + Crypt(rest, ks, 64), ks, 0);
      seen[56..60] == Tag(protocol) && ToI16(seen[60..62]) == dc && seen[62..64] == r[62..] && seen[64..] == rest
  {
    var inner := Tag(protocol) + FromI16(dc) + r[62..];
    CryptConcat(r[..56], Crypt(inner, ks, 56), ks, 0);
    CryptConcat(Sealed(r, ks, protocol, dc), Crypt(rest, ks, 64), ks, 0);
    CryptInvolutive(inner, ks, 56);
    CryptInvolutive(rest, ks, 64);
    I16RoundTrip(dc);
    SliceSealed(Crypt(r[..56], ks, 0), Tag(protocol), FromI16(dc), r[62..], rest);
  }

  lemma SliceSealed(a: seq<byte>, tag: seq<byte>, dc: seq<byte>, last: seq<byte>, rest: seq<byte>)
    requires |a| == 56 && |tag| == 4 && |dc| == 2 && |last| == 2
    ensures var seen := a + (tag + dc + last) + rest;
      seen[56..60] == tag && seen[60..62] == dc && seen[62..64] == last && seen[64..] == rest
  {
    assert a + (tag + dc + last) + rest == (a + tag + dc) + last + rest;
    assert ((a + tag + dc) + last + rest)[62..64] == last;
  }

  // ---------------------------------------------------------------- the client's handshake

  function SecretKey(p: Primitives, prekey: seq<byte>, secret: seq<byte>): seq<byte> {
    p.sha(prekey + secret)
  }

  /** The keystream a prekey and counter stand for, given the proxy's secret. */
  function ClientStream(p: Primitives, prekeyIv: seq<byte>, secret: seq<byte>): Keystream
    requires |prekeyIv| == 48
  {
    p.aes(SecretKey(p, prekeyIv[..32], secret), prekeyIv[32..])
  }

  function ParseClientHandshake(p: Primitives, handshake: Block, secret: seq<byte>): Option<ClientHandshake> {
    var prekeyIv := handshake[8..56];
    var plain := Crypt(handshake, ClientStream(p, prekeyIv, secret), 0);
    var dc := ToI16(plain[60..62]);
    if plain[56..60] == [0xef, 0xef, 0xef, 0xef] then Some(ClientHandshake(dc, Abridged, prekeyIv))
    else if plain[56..60] == [0xee, 0xee, 0xee, 0xee] then Some(ClientHandshake(dc, Intermediate, prekeyIv))
    else if plain[56..60] == [0xdd, 0xdd, 0xdd, 0xdd] then Some(ClientHandshake(dc, PaddedIntermediate, prekeyIv))
    else None
  }

  /** A client that knows the secret is understood. */
  lemma ClientIsUnderstood(p: Primitives, r: Block, secret: seq<byte>, protocol: Protocol, dc: int)
    requires IsI16(dc)
    ensures ParseClientHandshake(p, Sealed(r, ClientStream(p, r[8..56], secret), protocol, dc), secret)
         == Some(ClientHandshake(dc, protocol, r[8..56]))
  {
    var ks := ClientStream(p, r[8..56], secret);
    SealedOpens(r, ks, protocol, dc, []);
    var sealed := Sealed(r, ks, protocol, dc);
    assert sealed + Crypt([], ks, 64) == sealed;
    assert sealed[8..56] == r[8..56];
  }

  /** A handshake that is accepted was sealed with the secret, for the data centre that is read from it. */
  lemma AcceptedIsSealed(p: Primitives, handshake: Block, secret: seq<byte>)
    requires ParseClientHandshake(p, handshake, secret).Some?
    ensures var c := ParseClientHandshake(p, handshake, secret).value;
      && c.prekeyIv == handshake[8..56] && IsI16(c.dcIndex)
      && exists r: Block :: handshake == Sealed(r, ClientStream(p, c.prekeyIv, secret), c.protocol, c.dcIndex)
  {
    var c := ParseClientHandshake(p, handshake, secret).value;
    var ks := ClientStream(p, c.prekeyIv, secret);
    var plain := Crypt(handshake, ks, 0);
    I16Inverse(plain[60..62]);
    var r: Block := handshake[..56] + plain[56..];
    assert Tag(c.protocol) + FromI16(c.dcIndex) + r[62..] == plain[56..];
    CryptInvolutive(handshake, ks, 0);
    CryptTail(plain, ks, 0, 56);
    assert handshake == handshake[..56] + handshake[56..];
    assert handshake == Sealed(r, ks, c.protocol, c.dcIndex);
  }

  // ---------------------------------------------------------------- the relay's handshake

  /** Openings another protocol would take for its own. */
  predicate Reserved(h: seq<byte>)
    requires |h| >= 8
  {
    || h[0] == 0xef
    || h[..4] == [0x48, 0x45, 0x41, 0x44] || h[..4] == [0x50, 0x4f, 0x53, 0x54]
    || h[..4] == [0x47, 0x45, 0x54, 0x20] || h[..4] == [0x4f, 0x50, 0x54, 0x49]
    || h[..4] == [0xee, 0xee, 0xee, 0xee] || h[..4] == [0xdd, 0xdd, 0xdd, 0xdd]
    || h[..4] == [0x16, 0x03, 0x01, 0x02]
    || h[4..8] == [0, 0, 0, 0]
  }

  function Ascii(word: string): seq<byte>
    requires forall i | 0 <= i < |word| :: word[i] < 128 as char
  {
    seq(|word|, i requires 0 <= i < |word| => word[i] as int)
  }

  /** An opening that is not reserved begins like no obfuscated protocol, no HTTP request and no TLS record. */
  lemma NotMistaken(h: seq<byte>, protocol: Protocol)
    requires |h| >= 8 && !Reserved(h)
    ensures h[..4] != Tag(protocol) && h[0] != 0xef && h[..4] != [0x16, 0x03, 0x01, 0x02] && h[4..8] != [0, 0, 0, 0]
    ensures h[..4] != Ascii("GET ") && h[..4] != Ascii("POST") && h[..4] != Ascii("HEAD") && h[..4] != Ascii("OPTI")
  {
    assert Ascii("GET ") == [0x47, 0x45, 0x54, 0x20] && Ascii("POST") == [0x50, 0x4f, 0x53, 0x54];
    assert Ascii("HEAD") == [0x48, 0x45, 0x41, 0x44] && Ascii("OPTI") == [0x4f, 0x50, 0x54, 0x49];
    assert protocol.Abridged? ==> Tag(protocol)[0] == 0xef;
  }

  /** The keystream a relay handshake stands for. */
  function RelayStream(p: Primitives, h: seq<byte>): Keystream
    requires |h| >= 56
  {
    p.aes(h[8..40], h[40..56])
  }

  method Fill(target: array<byte>, data: seq<byte>, lo: nat)
    requires lo + |data| <= target.Length
    modifies target
    ensures target[..] == old(target[..lo]) + data + old(target[lo + |data|..])
  {
    var i := 0;
    while i < |data|
      invariant i <= |data|
      invariant forall k | 0 <= k < target.Length ::
        target[k] == if lo <= k < lo + i then data[k - lo] else old(target[k])
    {
      target[lo + i] := data[i];
      i := i + 1;
    }
  }

  /** Draws until an opening is not reserved, then seals the tag and the data centre into it. The draws are
      a parameter; `enough` is one that will do. */
  method GenerateRelayHandshake(p: Primitives, protocol: Protocol, dc: int, draws: nat -> Block, ghost enough: nat)
    returns (result: Block, drawn: nat)
    requires IsI16(dc) && !Reserved(draws(enough))
    ensures !Reserved(draws(drawn)) && forall i | 0 <= i < drawn :: Reserved(draws(i))
    ensures result == Sealed(draws(drawn), RelayStream(p, draws(drawn)), protocol, dc)
    ensures !Reserved(result) && RelayStream(p, result) == RelayStream(p, draws(drawn))
  {
    drawn := 0;
    while Reserved(draws(drawn))
      invariant forall i | 0 <= i < drawn :: Reserved(draws(i))
      decreases enough - drawn
    {
      drawn := drawn + 1;
    }
    var r := draws(drawn);
    result := Seal(r, RelayStream(p, r), protocol, dc);
    assert result[..4] == r[..4] && result[4..8] == r[4..8] && result[8..40] == r[8..40] && result[40..56] == r[40..56];
  }

  /** Enciphers a whole copy, and keeps what is hidden of it. */
  method Seal(r: Block, ks: Keystream, protocol: Protocol, dc: int) returns (result: Block)
    requires IsI16(dc)
    ensures result == Sealed(r, ks, protocol, dc) && result[..56] == r[..56] && result[0] == r[0]
  {
    var plaintext := new byte[64](i requires 0 <= i < 64 => r[i]);
    assert plaintext[..] == r;
    hide Tag, FromI16, Crypt;
    var tag := Tag(protocol);
    TagSize(protocol);
    Fill(plaintext, tag, 56);
    assert plaintext[..] == r[..56] + tag + r[60..];
    Fill(plaintext, FromI16(dc), 60);
    var cipher := new AesCtr(ks, 0);
    ghost var inner := plaintext[..];
    Patched(r, tag, FromI16(dc));
    cipher.ApplyKeystream(plaintext, 0, 64);
    assert plaintext[0..64] == plaintext[..] && inner[0..64] == inner;
    CryptTail(inner, cipher.keystream, 0, 56);
    assert plaintext[56..] == plaintext[..][56..];
    result := r[..56] + plaintext[56..];
  }

  lemma Patched(r: Block, tag: seq<byte>, dc: seq<byte>)
    requires |tag| == 4 && |dc| == 2
    ensures var first := r[..56] + tag + r[60..];
      var second := first[..60] + dc + first[62..];
      |second| == 64 && second[56..] == tag + dc + r[62..]
  {
  }

  lemma TagSize(protocol: Protocol)
    ensures |Tag(protocol)| == 4
  {
  }

  // ---------------------------------------------------------------- the four ciphers

  /** The keystream of the other direction: key and counter are taken from the handshake read backwards. */
  function ReversedStream(p: Primitives, h: seq<byte>): Keystream
    requires |h| >= 56
  {
    var reversed := Reverse(h[8..56]);
    p.aes(reversed[..32], reversed[32..])
  }

  class CryptoContext {
    const clientDecrypt: AesCtr
    const clientEncrypt: AesCtr
    const upstreamEncrypt: AesCtr
    const upstreamDecrypt: AesCtr

    /** The two ciphers of the way down are at their beginning. */
    ghost predicate Answers(p: Primitives, prekeyIv: seq<byte>, secret: seq<byte>, relay: seq<byte>)
      requires |prekeyIv| == 48 && |relay| >= 56
      reads clientEncrypt, upstreamDecrypt
    {
      && clientEncrypt != upstreamDecrypt && clientEncrypt.position == 0 && upstreamDecrypt.position == 0
      && clientEncrypt.keystream == ClientStream(p, Reverse(prekeyIv), secret)
      && upstreamDecrypt.keystream == ReversedStream(p, relay)
    }

    /** The two directions a handshake has already gone through stand at 64, the two answers at zero. */
    constructor (p: Primitives, client: ClientHandshake, secret: seq<byte>, relay: Block)
      requires |client.prekeyIv| == 48
      ensures fresh(clientDecrypt) && fresh(clientEncrypt) && fresh(upstreamEncrypt) && fresh(upstreamDecrypt)
      ensures clientDecrypt != clientEncrypt && clientDecrypt != upstreamEncrypt && clientDecrypt != upstreamDecrypt
      ensures clientEncrypt != upstreamEncrypt && clientEncrypt != upstreamDecrypt && upstreamEncrypt != upstreamDecrypt
      ensures clientDecrypt.keystream == ClientStream(p, client.prekeyIv, secret) && clientDecrypt.position == 64
      ensures upstreamEncrypt.keystream == RelayStream(p, relay) && upstreamEncrypt.position == 64
      ensures Answers(p, client.prekeyIv, secret, relay)
    {
      var down := new AesCtr(ClientStream(p, client.prekeyIv, secret), 0);
      clientEncrypt := new AesCtr(ClientStream(p, Reverse(client.prekeyIv), secret), 0);
      var up := new AesCtr(RelayStream(p, relay), 0);
      upstreamDecrypt := new AesCtr(ReversedStream(p, relay), 0);
      var zeroes := new byte[64];
      down.ApplyKeystream(zeroes, 0, 64);
      up.ApplyKeystream(zeroes, 0, 64);
      clientDecrypt, upstreamEncrypt := down, up;
    }
  }
}
