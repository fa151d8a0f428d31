/** The pumps that carry a client's traffic from one cipher to another. */
module Pumps {
  import opened Bytes
  import opened Streams
  import opened Upload
  import opened WsFrames
  import opened WsReader
  import opened WsWriter

  /** What a pump has sent is the front of what it is to send. */
  lemma FrontSent(data: seq<byte>, rest: seq<byte>, from: Keystream, fromPos: nat, target: Keystream, toPos: nat,
      n: nat)
    requires n <= |Recrypt(data, from, fromPos, target, toPos)|
    ensures Recrypt(data, from, fromPos, target, toPos)[..n] <= Recrypt(data + rest, from, fromPos, target, toPos)
    ensures Recrypt(data, from, fromPos, target, toPos) <= Recrypt(data + rest, from, fromPos, target, toPos)
  {
    RecryptConcat(data, rest, from, fromPos, target, toPos);
  }

  /** One chunk in, the same chunk re-encrypted out. */
  method WriteRecrypted(w: Sink, decrypt: AesCtr, encrypt: AesCtr, buffer: array<byte>, n: nat, ghost before: seq<byte>,
                        ghost sent: seq<byte>) returns (ok: bool)
    requires decrypt != encrypt && n <= buffer.Length && decrypt.position >= |sent| && encrypt.position >= |sent|
    requires w.wire == before + Recrypt(sent, decrypt.keystream, decrypt.position - |sent|,
                                        encrypt.keystream, encrypt.position - |sent|)
    modifies w, decrypt`position, encrypt`position, buffer
    ensures decrypt.position == old(decrypt.position) + n && encrypt.position == old(encrypt.position) + n
    ensures var all := Recrypt(sent + old(buffer[..n]), decrypt.keystream, old(decrypt.position) - |sent|,
                               encrypt.keystream, old(encrypt.position) - |sent|);
      && (ok ==> w.wire == before + all)
      && before <= w.wire <= before + all
  {
    hide Recrypt;
    RecryptConcat(sent, buffer[..n], decrypt.keystream, decrypt.position - |sent|,
                  encrypt.keystream, encrypt.position - |sent|);
    RecryptInPlace(decrypt, encrypt, buffer, n);
    ok := w.WriteAll(buffer[..n]);
  }

  lemma TakenFurther(left: seq<byte>, moved: nat, n: nat)
    requires moved + n <= |left|
    ensures left[..moved] + left[moved..][..n] == left[..moved + n] && left[moved..][n..] == left[moved + n..]
  {
  }

  /** The direct bridge: for every pattern of reads, what is written is the input re-encrypted, and on a
      clean end all of it. */
  method CopyCrypto(r: Source, w: Sink, decrypt: AesCtr, encrypt: AesCtr, bufferSize: nat) returns (ok: bool)
    requires r.Valid() && decrypt != encrypt && bufferSize > 0
    modifies r`taken, w, decrypt`position, encrypt`position
    ensures var all := Recrypt(old(r.Left()), decrypt.keystream, old(decrypt.position),
                               encrypt.keystream, old(encrypt.position));
      && old(w.wire) <= w.wire <= old(w.wire) + all
      && (ok ==> w.wire == old(w.wire) + all)
  {
    hide Recrypt;
    ghost var left, start, goal := r.Left(), decrypt.position, encrypt.position;
    ghost var moved: nat := 0;
    var buffer := new byte[bufferSize];
    RecryptFront(left, decrypt.keystream, start, encrypt.keystream, goal, 0);
    while true
      invariant r.Valid() && moved <= |left| && r.Left() == left[moved..]
      invariant decrypt.position == start + moved && encrypt.position == goal + moved
      invariant w.wire == old(w.wire) + Recrypt(left[..moved], decrypt.keystream, start, encrypt.keystream, goal)
      decreases |left| - moved
    {
      RecryptFront(left, decrypt.keystream, start, encrypt.keystream, goal, moved);
      var n := r.Read(buffer, 0, bufferSize);
      if n == 0 {
        return true;
      }
      TakenFurther(left, moved, n);
      assert buffer[..n] == buffer[0..0 + n];
      RecryptFront(left, decrypt.keystream, start, encrypt.keystream, goal, moved + n);
      ok := WriteRecrypted(w, decrypt, encrypt, buffer, n, old(w.wire), left[..moved]);
      if !ok {
        return;
      }
      moved := moved + n;
    }
  }

  /** One round of the download: a chunk is read and written on. */
  lemma DeliveredSoFar(whole: Delivery, got: seq<byte>, pings: seq<seq<byte>>, chunk: seq<byte>, more: seq<seq<byte>>,
      rest: Delivery)
    requires whole == After(got, pings, After(chunk, more, rest))
    ensures whole == After(got + chunk, pings + more, rest)
  {
    AfterAfter(got, pings, chunk, more, rest);
  }

  /** The download half of a WebSocket bridge: the client is sent the payload bytes of the origin's
      frames, re-encrypted, and nothing of the control frames between them. Only a close frame ends it well. */
  method DownloadWs(reader: Reader, writer: Writer, client: Sink, decrypt: AesCtr, encrypt: AesCtr, bufferSize: nat)
    returns (end: Chunk)
    requires reader.Valid() && writer.Valid() && writer.Idle() && !writer.broken
    requires writer.wire != client && decrypt != encrypt && bufferSize > 0
    modifies reader, reader.wire`taken, writer, writer.wire, client, decrypt`position, encrypt`position
    ensures writer.Valid() && !end.Data? && !end.EmptyBuffer?
    ensures var whole := old(reader.Ahead());
      var all := Recrypt(whole.data, decrypt.keystream, old(decrypt.position), encrypt.keystream,
          old(encrypt.position));
      && old(client.wire) <= client.wire <= old(client.wire) + all
      && (end.Close? ==> whole.ending == Closed && client.wire == old(client.wire) + all)
      && (end.Failed? ==> whole.ending == end.why && client.wire == old(client.wire) + all)
  {
    hide Recrypt, Deliver, EncodeAll, WireWith, Payloads;
    ghost var whole, start, goal := reader.Ahead(), decrypt.position, encrypt.position;
    ghost var got: seq<byte>, pings: seq<seq<byte>> := [], [];
    var buffer := new byte[bufferSize];
    AfterAfter([], [], [], [], whole);
    RecryptFront(whole.data, decrypt.keystream, start, encrypt.keystream, goal, 0);
    while true
      invariant reader.Valid() && writer.Valid() && writer.Idle() && !writer.broken
      invariant whole == After(got, pings, reader.Ahead())
      invariant decrypt.position == start + |got| && encrypt.position == goal + |got|
      invariant client.wire == old(client.wire) + Recrypt(got, decrypt.keystream, start, encrypt.keystream, goal)
      decreases |reader.wire.Left()|
    {
      ghost var ahead := reader.Ahead();
      ghost var more;
      end, more := reader.NextChunk(buffer, writer);
      FrontSent(got, ahead.data, decrypt.keystream, start, encrypt.keystream, goal, 0);
      if !end.Data? {
        assert got + [] == got;
        return;
      }
      ghost var chunk := buffer[..end.n];
      DeliveredSoFar(whole, got, pings, chunk, more, reader.Ahead());
      FrontSent(got + chunk, reader.Ahead().data, decrypt.keystream, start, encrypt.keystream, goal, 0);
      var ok := WriteRecrypted(client, decrypt, encrypt, buffer, end.n, old(client.wire), got);
      if !ok {
        return Chunk.WriteFailed;
      }
      got, pings := got + chunk, pings + more;
    }
  }
}
