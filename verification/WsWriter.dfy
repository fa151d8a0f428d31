/** The outgoing half of a WebSocket: frames are begun, then filled piece by piece. */
module WsWriter {
  import opened Bytes
  import opened Options
  import opened Streams
  import opened WsFrames

  /** What is on the wire of a frame that has been begun and not yet filled. */
  function Partial(opcode: nat, mask: Mask, length: nat, done: seq<byte>): seq<byte>
    requires opcode < 16 && length < LENGTH_BOUND
  {
    HeaderBytes(true, opcode, Some(mask), length) + Crypt(done, MaskStream(mask), 0)
  }

  /** Another masked piece continues the frame where the last one stopped. */
  lemma PartialGrows(opcode: nat, mask: Mask, length: nat, done: seq<byte>, piece: seq<byte>)
    requires opcode < 16 && length < LENGTH_BOUND
    ensures Partial(opcode, mask, length, done) + Crypt(piece, MaskStream(mask), |done|)
         == Partial(opcode, mask, length, done + piece)
  {
    CryptConcat(done, piece, MaskStream(mask), 0);
  }

  /** The wire with one frame under way: once filled, the frame is one of the frames. */
  function WireWith(frames: seq<Frame>, opcode: nat, mask: Mask, length: nat, done: seq<byte>): seq<byte>
    requires opcode < 16 && |done| <= length < LENGTH_BOUND
  {
    if |done| == length then EncodeAll(frames + [Frame(true, opcode, Some(mask), done)])
    else EncodeAll(frames) + Partial(opcode, mask, length, done)
  }

  lemma WireIsPartial(frames: seq<Frame>, opcode: nat, mask: Mask, length: nat, done: seq<byte>)
    requires opcode < 16 && |done| <= length < LENGTH_BOUND
    ensures WireWith(frames, opcode, mask, length, done) == EncodeAll(frames) + Partial(opcode, mask, length, done)
    ensures EncodeAll(frames) <= WireWith(frames, opcode, mask, length, done)
  {
    if |done| == length {
      EncodeAllAppend(frames, Frame(true, opcode, Some(mask), done));
    }
  }

  lemma WireBegins(frames: seq<Frame>, opcode: nat, mask: Mask, length: nat)
    requires opcode < 16 && length < LENGTH_BOUND
    ensures EncodeAll(frames) + HeaderBytes(true, opcode, Some(mask), length)
        == WireWith(frames, opcode, mask, length, [])
    ensures EncodeAll(frames) <= WireWith(frames, opcode, mask, length, [])
    ensures length == 0 ==>
        WireWith(frames, opcode, mask, length, []) == EncodeAll(frames + [Frame(true, opcode, Some(mask), [])])
  {
    WireIsPartial(frames, opcode, mask, length, []);
    assert Partial(opcode, mask, length, []) == HeaderBytes(true, opcode, Some(mask), length);
  }

  lemma WireGrows(frames: seq<Frame>, opcode: nat, mask: Mask, length: nat, done: seq<byte>, piece: seq<byte>)
    requires opcode < 16 && |done + piece| <= length < LENGTH_BOUND
    ensures WireWith(frames, opcode, mask, length, done) + Crypt(piece, MaskStream(mask), |done|)
         == WireWith(frames, opcode, mask, length, done + piece)
    ensures EncodeAll(frames) <= WireWith(frames, opcode, mask, length, done)
    ensures EncodeAll(frames) <= WireWith(frames, opcode, mask, length, done + piece)
    ensures |done + piece| == length ==>
      WireWith(frames, opcode, mask, length, done + piece)
        == EncodeAll(frames + [Frame(true, opcode, Some(mask), done + piece)])
  {
    WireIsPartial(frames, opcode, mask, length, done);
    WireIsPartial(frames, opcode, mask, length, done + piece);
    PartialGrows(opcode, mask, length, done, piece);
    Associate(EncodeAll(frames), Partial(opcode, mask, length, done), Crypt(piece, MaskStream(mask), |done|));
  }

  /** What a failed write leaves is the front of the frame, whether it failed in the header or after it. */
  lemma FrontOfFrame(before: seq<byte>, mask: Mask, payload: seq<byte>, wire: seq<byte>)
    requires |payload| <= MAX_MESSAGE
    requires var header := HeaderBytes(true, 2, Some(mask), |payload|);
      wire <= before + header || wire <= before + header + Crypt(payload, MaskStream(mask), 0)
    ensures wire <= before + Encode(Frame(true, 2, Some(mask), payload))
  {
    var header := HeaderBytes(true, 2, Some(mask), |payload|);
    Associate(before, header, Crypt(payload, MaskStream(mask), 0));
  }

  class Writer {
    const wire: Sink
    var remaining: nat
    var mask: Mask
    var offset: nat

    ghost var frames: seq<Frame>    // every frame completed so far
    ghost var opcode: nat           // of the frame being filled
    ghost var done: seq<byte>       // its payload so far, before masking
    ghost var broken: bool          // a write has failed; the connection is given up

    constructor (wire: Sink)
      requires wire.wire == []
      ensures Valid() && Idle() && this.wire == wire && frames == [] && !broken
    {
      this.wire := wire;
      remaining, mask, offset := 0, [0, 0, 0, 0], 0;
      frames, opcode, done, broken := [], 0, [], false;
    }

    ghost predicate Valid()
      reads this, wire
    {
      && opcode < 16 && remaining + |done| <= MAX_MESSAGE
      && (!broken ==> offset == |done|)
      && (!broken && remaining == 0 ==> wire.wire == EncodeAll(frames))
      && (!broken && remaining > 0 ==> wire.wire == WireWith(frames, opcode, mask, remaining + |done|, done))
      && EncodeAll(frames) <= wire.wire
      && (forall f | f in frames :: f.fin && f.mask.Some?)
    }

    /** Nothing is half written. */
    ghost predicate Idle()
      reads this
    {
      remaining == 0
    }

    /** Everything written so far reads back as whole frames, each final and masked; what a failed write
        or an unfinished frame left behind comes after them. */
    lemma WireDecodes()
      requires Valid()
      ensures frames <= DecodeAll(wire.wire).0 && forall f | f in frames :: f.fin && f.mask.Some?
      ensures Idle() && !broken ==> DecodeAll(wire.wire) == (frames, [])
    {
      var rest := wire.wire[|EncodeAll(frames)|..];
      var (after, left) := DecodeAll(rest);
      DecodeAllEncoded(frames, rest, after, left);
      assert wire.wire == EncodeAll(frames) + rest;
      if Idle() && !broken {
        assert rest == [] && Decode([]) == None;
        assert frames + [] == frames;
      }
    }

    method Begin(op: nat, length: nat) returns (ok: bool)
      requires Valid() && !broken && op < 16
      modifies this, wire
      ensures Valid()
      ensures old(remaining) != 0 || length > MAX_MESSAGE ==>
        && !ok && wire.wire == old(wire.wire) && remaining == old(remaining) && !broken
        && frames == old(frames) && done == old(done) && opcode == old(opcode) && mask == old(mask)
      ensures old(remaining) == 0 && length <= MAX_MESSAGE ==> ok || broken
      ensures broken ==> !ok && remaining == 0 && frames == old(frames)
      ensures broken ==>
        length <= MAX_MESSAGE && wire.wire <= old(wire.wire) + HeaderBytes(true, op, Some(mask), length)
      ensures ok ==> wire.wire == old(wire.wire) + HeaderBytes(true, op, Some(mask), length)
      ensures ok ==> remaining == length && done == [] && opcode == op && !broken
      ensures ok && length > 0 ==> frames == old(frames)
      ensures ok && length == 0 ==> frames == old(frames) + [Frame(true, op, Some(mask), [])]
    {
      hide EncodeAll, WireWith, HeaderBytes;
      if remaining != 0 || length > MAX_MESSAGE {
        return false;
      }
      var a: byte, b: byte, c: byte, d: byte := *, *, *, *;
      mask, offset, opcode, done := [a, b, c, d], 0, op, [];
      var header := HeaderBytes(true, op, Some(mask), length);
      ok := wire.WriteAll(header);
      if !ok {
        broken := true;
        return;
      }
      remaining := length;
      WireBegins(frames, op, mask, length);
      if length == 0 {
        frames := frames + [Frame(true, op, Some(mask), [])];
      }
    }

    method MaskInPlace(data: array<byte>, count: nat)
      requires count <= data.Length
      modifies data
      ensures data[..count] == Crypt(old(data[..count]), MaskStream(mask), offset)
    {
      var i := 0;
      while i < count
        invariant i <= count
        invariant forall k | 0 <= k < i :: data[k] == Xor(old(data[k]), MaskStream(mask)(offset + k))
        invariant forall k | i <= k < count :: data[k] == old(data[k])
      {
        data[i] := Xor(data[i], mask[(offset + i) % 4]);
        i := i + 1;
      }
    }

    /** Puts a masked piece on the wire and counts it as sent. */
    method Send(data: array<byte>, count: nat) returns (ok: bool)
      requires Valid() && count <= data.Length && !broken && 0 < count <= remaining
      modifies this`offset, this`remaining, this`broken, wire, data
      ensures ok == !broken
      ensures ok ==>
        && remaining == old(remaining) - count && offset == old(offset) + count
        && wire.wire == old(wire.wire) + Crypt(old(data[..count]), MaskStream(mask), old(offset))
      ensures !ok ==> remaining == old(remaining)
      ensures old(wire.wire) <= wire.wire <= old(wire.wire) + Crypt(old(data[..count]), MaskStream(mask), old(offset))
    {
      MaskInPlace(data, count);
      ok := wire.WriteAll(data[..count]);
      if !ok {
        broken := true;
        return;
      }
      offset := offset + count;
      remaining := remaining - count;
    }

    /** Masks a piece of the payload in the caller's buffer and sends it. */
    method Payload(data: array<byte>, count: nat) returns (ok: bool)
      requires Valid() && count <= data.Length && !broken
      modifies this, wire, data
      ensures Valid() && mask == old(mask) && opcode == old(opcode)
      ensures count > old(remaining) ==>
        !ok && !broken && wire.wire == old(wire.wire) && remaining == old(remaining) && frames == old(frames)
            && done == old(done)
      ensures count <= old(remaining) ==> ok == !broken
      ensures !ok ==> frames == old(frames)
      ensures broken ==> wire.wire <= old(wire.wire) + Crypt(old(data[..count]), MaskStream(mask), old(|done|))
      ensures ok ==> remaining == old(remaining) - count
      ensures ok && old(remaining) > 0 ==> done == old(done) + old(data[..count])
      ensures ok && !(old(remaining) > 0 && remaining == 0) ==> frames == old(frames)
      ensures ok && old(remaining) > 0 && remaining == 0 ==>
          frames == old(frames) + [Frame(true, opcode, Some(mask), done)]
      ensures count == 0 ==> ok
    {
      hide EncodeAll, WireWith, Crypt;
      if count > remaining {
        return false;
      }
      if count == 0 {
        assert old(data[..count]) == [];
        return true;
      }
      ghost var length, piece := remaining + |done|, data[..count];
      ok := Send(data, count);
      if ok {
        WireGrows(frames, opcode, mask, length, done, piece);
        done := done + piece;
        if remaining == 0 {
          frames := frames + [Frame(true, opcode, Some(mask), done)];
        }
      }
    }

    /** One control frame: it is written whole, or refused because a data frame is being filled. */
    method Control(op: nat, data: array<byte>, count: nat) returns (ok: bool)
      requires Valid() && 8 <= op < 16 && count <= data.Length && !broken
      modifies this, wire, data
      ensures Valid()
      ensures old(remaining) != 0 || count > 125 ==>
        !ok && !broken && wire.wire == old(wire.wire) && remaining == old(remaining) && frames == old(frames)
            && done == old(done)
      ensures ok ==> Idle() && !broken && exists m ::
          frames == old(frames) + [Frame(true, op, Some(m), old(data[..count]))]
      ensures !ok ==> frames == old(frames)
      ensures old(remaining) == 0 && count <= 125 ==> ok || broken
    {
      if count > 125 {
        return false;
      }
      ok := Begin(op, count);
      if !ok {
        return;
      }
      ok := Payload(data, count);
      assert [] + old(data[..count]) == old(data[..count]);
      assert ok ==> frames == old(frames) + [Frame(true, op, Some(mask), old(data[..count]))];
    }

    /** A whole binary frame at once. */
    method Binary(data: array<byte>, count: nat) returns (ok: bool)
      requires Valid() && !broken && Idle() && count <= data.Length && count <= MAX_MESSAGE
      modifies this, wire, data
      ensures Valid() && ok == !broken && (ok ==> Idle())
      ensures ok ==> exists m :: frames == old(frames) + [Frame(true, 2, Some(m), old(data[..count]))]
      ensures !ok ==> frames == old(frames)
      ensures !ok ==> exists m: Mask ::
        wire.wire <= old(wire.wire) + Encode(Frame(true, 2, Some(m), old(data[..count])))
    {
      ok := Begin(2, count);
      if !ok {
        FrontOfFrame(old(wire.wire), mask, data[..count], wire.wire);
        return;
      }
      ok := Payload(data, count);
      if !ok {
        FrontOfFrame(old(wire.wire), mask, old(data[..count]), wire.wire);
      }
      assert [] + old(data[..count]) == old(data[..count]);
      assert ok ==> frames == old(frames) + [Frame(true, 2, Some(mask), old(data[..count]))];
    }
  }
}
