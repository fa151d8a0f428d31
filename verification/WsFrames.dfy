/** The frame layout of section 5.2 of RFC 6455, and a decoder for it that knows nothing of how the
    writer or the reader work. */
module WsFrames {
  import opened Bytes
  import opened Options
  import opened Framing

  const MAX_MESSAGE := 16 * 1024 * 1024 + 4

  const LENGTH_BOUND := 0x1_0000_0000_0000_0000

  type Mask = m: seq<byte> | |m| == 4 witness [0, 0, 0, 0]

  datatype AnyFrame = Frame(fin: bool, opcode: nat, mask: Option<Mask>, payload: seq<byte>)

  type Frame = f: AnyFrame | f.opcode < 16 && |f.payload| < LENGTH_BOUND witness Frame(true, 0, None, [])

  /** The mask repeated for ever: masking is encryption with this keystream from position zero. */
  function MaskStream(mask: Mask): Keystream {
    (i: nat) => mask[i % 4]
  }

  function FirstByte(fin: bool, opcode: nat): byte
    requires opcode < 16
  {
    (if fin then 128 else 0) + opcode
  }

  /** How many bytes of extended length follow the second byte: the shortest form that fits. */
  function Width(length: nat): nat {
    if length < 126 then 0 else if length <= 65535 then 2 else 8
  }

  /** The second byte and the extended length. */
  function LengthBytes(masked: bool, length: nat): seq<byte>
    requires length < LENGTH_BOUND
  {
    var short := if length < 126 then length else if length <= 65535 then 126 else 127;
    [(if masked then 128 else 0) + short] + ToBe(length, Width(length))
  }

  function Masked(payload: seq<byte>, mask: Option<Mask>): (r: seq<byte>)
    ensures |r| == |payload|
  {
    if mask.None? then payload else Crypt(payload, MaskStream(mask.value), 0)
  }

  function HeaderBytes(fin: bool, opcode: nat, mask: Option<Mask>, length: nat): seq<byte>
    requires opcode < 16 && length < LENGTH_BOUND
  {
    [FirstByte(fin, opcode)] + LengthBytes(mask.Some?, length) + if mask.Some? then mask.value else []
  }

  function Encode(f: Frame): seq<byte> {
    HeaderBytes(f.fin, f.opcode, f.mask, |f.payload|) + Masked(f.payload, f.mask)
  }

  function EncodeAll(frames: seq<Frame>): seq<byte> {
    if |frames| == 0 then [] else Encode(frames[0]) + EncodeAll(frames[1..])
  }

  /** The payloads of the frames of one kind, in order. */
  function Payloads(frames: seq<Frame>, opcode: nat): seq<seq<byte>> {
    if |frames| == 0 then []
    else
      var last := frames[|frames| - 1];
      Payloads(frames[..|frames| - 1], opcode) + if last.opcode == opcode then [last.payload] else []
  }

  lemma PayloadsAppend(frames: seq<Frame>, f: Frame, opcode: nat)
    ensures Payloads(frames + [f], opcode) == Payloads(frames, opcode) + if f.opcode == opcode then [f.payload] else []
  {
    assert (frames + [f])[..|frames|] == frames;
  }

  // ---------------------------------------------------------------- decoding

  /** The payload length announced after the first byte and how many bytes announce it. Every length has
      one accepted form. */
  function ReadLength(b: seq<byte>): Option<(nat, nat)> {
    if |b| == 0 then None
    else
      var short := b[0] as int % 128;
      if short < 126 then Some((short, 1))
      else if short == 126 then
        if |b| < 3 || FromBe(b[1..3]) < 126 then None else Some((FromBe(b[1..3]), 3))
      else
        if |b| < 9 || FromBe(b[1..9]) < 65536 then None else Some((FromBe(b[1..9]), 9))
  }

  lemma LengthRoundTrip(masked: bool, length: nat, rest: seq<byte>)
    requires length < LENGTH_BOUND
    ensures var b := LengthBytes(masked, length);
      |b| > 0 && ReadLength(b + rest) == Some((length, |b|)) && (b[0] >= 128 <==> masked)
  {
    var b := LengthBytes(masked, length);
    Powers();
    if 126 <= length <= 65535 {
      BeRoundTrip(length, 2);
      assert (b + rest)[1..3] == ToBe(length, 2);
    } else if length > 65535 {
      BeRoundTrip(length, 8);
      assert (b + rest)[1..9] == ToBe(length, 8);
    }
  }

  /** A length that is accepted is in the form the encoder gives it. */
  lemma LengthUnique(b: seq<byte>)
    requires ReadLength(b).Some?
    ensures var (length, size) := ReadLength(b).value;
      length < LENGTH_BOUND && size <= |b| && b[..size] == LengthBytes(b[0] >= 128, length)
  {
    Powers();
    var (length, size) := ReadLength(b).value;
    if size == 3 {
      BeInverse(b[1..3]);
      assert b[..3] == [b[0]] + b[1..3];
    } else if size == 9 {
      BeInverse(b[1..9]);
      assert b[..9] == [b[0]] + b[1..9];
    }
  }

  /** One frame off the front, and how long it was. */
  function Decode(b: seq<byte>): Option<(Frame, nat)> {
    if |b| < 2 || (b[0] as int / 16) % 8 != 0 then None
    else match ReadLength(b[1..])
      case None => None
      case Some((length, size)) =>
        LengthUnique(b[1..]);
        var maskSize := if b[1] >= 128 then 4 else 0;
        var at := 1 + size + maskSize;
        if |b| < at + length then None
        else
          var mask := if b[1] >= 128 then Some(b[1 + size..at]) else None;
          Some((Frame(b[0] >= 128, b[0] as int % 16, mask, Masked(b[at..at + length], mask)), at + length))
  }

  function DecodeAll(b: seq<byte>): (seq<Frame>, seq<byte>)
    decreases |b|
  {
    match Decode(b)
    case None => ([], b)
    case Some((f, n)) => var (rest, left) := DecodeAll(b[n..]); ([f] + rest, left)
  }

  lemma MaskTwice(payload: seq<byte>, mask: Option<Mask>)
    ensures Masked(Masked(payload, mask), mask) == payload
  {
    if mask.Some? {
      CryptInvolutive(payload, MaskStream(mask.value), 0);
    }
  }

  lemma FirstByteParts(fin: bool, opcode: nat)
    requires opcode < 16
    ensures var a := FirstByte(fin, opcode) as int;
      (a >= 128 <==> fin) && a % 16 == opcode && (a / 16) % 8 == 0
  {
  }

  lemma EncodedParts(first: byte, lengthBytes: seq<byte>, mask: seq<byte>, body: seq<byte>, rest: seq<byte>)
    ensures var b := [first] + lengthBytes + mask + body + rest;
      var at := 1 + |lengthBytes| + |mask|;
      && b[0] == first && b[1..] == lengthBytes + (mask + body + rest)
      && b[1 + |lengthBytes|..at] == mask && b[at..at + |body|] == body
  {
    var b := [first] + lengthBytes + mask + body + rest;
    assert b[1..] == lengthBytes + (mask + body + rest);
  }

  lemma DecodeEncoded(f: Frame, rest: seq<byte>)
    ensures Decode(Encode(f) + rest) == Some((f, |Encode(f)|))
  {
    hide FirstByte, LengthBytes, Masked, ReadLength;
    var lengthBytes := LengthBytes(f.mask.Some?, |f.payload|);
    var mask := if f.mask.Some? then f.mask.value else [];
    var body := Masked(f.payload, f.mask);
    FirstByteParts(f.fin, f.opcode);
    var b := Encode(f) + rest;
    EncodedParts(FirstByte(f.fin, f.opcode), lengthBytes, mask, body, rest);
    LengthRoundTrip(f.mask.Some?, |f.payload|, mask + body + rest);
    assert b[1] == b[1..][0] == lengthBytes[0];
    MaskTwice(f.payload, f.mask);
  }

  lemma DecodeAllStep(f: Frame, tail: seq<byte>, frames: seq<Frame>, left: seq<byte>)
    requires DecodeAll(tail) == (frames, left)
    ensures DecodeAll(Encode(f) + tail) == ([f] + frames, left)
  {
    DecodeEncoded(f, tail);
    assert (Encode(f) + tail)[|Encode(f)|..] == tail;
  }

  lemma EncodeAllSplit(frames: seq<Frame>, rest: seq<byte>)
    requires |frames| > 0
    ensures EncodeAll(frames) + rest == Encode(frames[0]) + (EncodeAll(frames[1..]) + rest)
  {
  }

  /** Frames that were encoded one after another are read back as they were. */
  lemma {:induction false} DecodeAllEncoded(frames: seq<Frame>, rest: seq<byte>, after: seq<Frame>, left: seq<byte>)
    requires DecodeAll(rest) == (after, left)
    ensures DecodeAll(EncodeAll(frames) + rest) == (frames + after, left)
  {
    if |frames| == 0 {
      assert EncodeAll(frames) + rest == rest;
      assert frames + after == after;
    } else {
      DecodeAllEncoded(frames[1..], rest, after, left);
      DecodeAllStep(frames[0], EncodeAll(frames[1..]) + rest, frames[1..] + after, left);
      EncodeAllSplit(frames, rest);
      HeadAndTail(frames, after);
    }
  }

  lemma {:induction false} EncodeAllAppend(frames: seq<Frame>, last: Frame)
    ensures EncodeAll(frames + [last]) == EncodeAll(frames) + Encode(last)
  {
    if |frames| == 0 {
      assert frames + [last] == [last];
      assert EncodeAll([last]) == Encode(last) + EncodeAll([last][1..]);
      assert [last][1..] == [];
    } else {
      assert (frames + [last])[1..] == frames[1..] + [last];
      EncodeAllAppend(frames[1..], last);
    }
  }
}
