/** The incoming half of a WebSocket: data frames are handed out piece by piece, control frames between
    them are answered and disappear. */
module WsReader {
  import opened Bytes
  import opened Options
  import opened Streams
  import opened WsFrames
  import opened WsWriter

  // ---------------------------------------------------------------- one frame header

  datatype Head = Truncated | Refused | Head(fin: bool, opcode: nat, length: nat, size: nat)

  /** The header at the front of the stream. */
  function ReadHead(b: seq<byte>): (h: Head)
    ensures h.Head? ==> 2 <= h.size <= |b| && h.opcode < 16 && h.length <= MAX_MESSAGE
  {
    if |b| < 2 then Truncated
    else if (b[0] as int / 16) % 8 != 0 || b[1] >= 128 then Refused
    else
      var width := if b[1] < 126 then 0 else if b[1] == 126 then 2 else 8;
      if |b| < 2 + width then Truncated
      else
        var length := if width == 0 then b[1] as int else FromBe(b[2..2 + width]);
        if (width == 2 && length < 126) || (width == 8 && length < 65536) || length > MAX_MESSAGE then Refused
        else Head(b[0] >= 128, b[0] as int % 16, length, 2 + width)
  }

  datatype Verdict = Refuse | Control | Fragment(total: nat)

  /** What a header means after the frames before it: `total` is the length of the message so far. */
  function Judge(fragmented: bool, messageLen: nat, fin: bool, opcode: nat, length: nat): (v: Verdict)
    ensures v.Fragment? ==> length <= v.total <= MAX_MESSAGE
  {
    if opcode >= 8 then
      if !fin || length > 125 || opcode > 10 then Refuse else Control
    else
      var total := if opcode == 0 then messageLen + length else length;
      if !(opcode == 0 && fragmented) && !(opcode == 2 && !fragmented) then Refuse
      else if total > MAX_MESSAGE then Refuse
      else Fragment(total)
  }

  // ---------------------------------------------------------------- what a stream delivers

  datatype Ending = Eof | Closed | Bad

  /** All payload bytes a stream delivers, the pings met on the way, and how it ends. */
  datatype Delivery = Delivery(data: seq<byte>, pings: seq<seq<byte>>, ending: Ending)

  function After(data: seq<byte>, pings: seq<seq<byte>>, rest: Delivery): Delivery {
    Delivery(data + rest.data, pings + rest.pings, rest.ending)
  }

  function Deliver(remaining: nat, fragmented: bool, messageLen: nat, b: seq<byte>): Delivery
    decreases |b|
  {
    if remaining > 0 then
      if |b| == 0 then Delivery([], [], Eof)
      else
        var k := Min(remaining, |b|);
        After(b[..k], [], Deliver(remaining - k, fragmented, messageLen, b[k..]))
    else match ReadHead(b)
      case Truncated => Delivery([], [], Eof)
      case Refused => Delivery([], [], Bad)
      case Head(fin, opcode, length, size) =>
        match Judge(fragmented, messageLen, fin, opcode, length)
        case Refuse => Delivery([], [], Bad)
        case Fragment(total) => Deliver(length, !fin, total, b[size..])
        case Control =>
          if |b| < size + length then Delivery([], [], Eof)
          else if opcode == 8 then Delivery([], [], if length == 1 then Bad else Closed)
          else
            After([], if opcode == 9 then [b[size..size + length]] else [],
                  Deliver(0, fragmented, messageLen, b[size + length..]))
  }

  lemma JudgeControl(fragmented: bool, messageLen: nat, fin: bool, opcode: nat, length: nat)
    requires Judge(fragmented, messageLen, fin, opcode, length).Control?
    ensures fin && length <= 125 && 8 <= opcode <= 10
  {
  }

  /** However much of the payload one read takes, the rest is still to come. */
  lemma DeliverPeels(remaining: nat, fragmented: bool, messageLen: nat, b: seq<byte>, n: nat)
    requires 0 < n <= remaining && n <= |b|
    ensures Deliver(remaining, fragmented, messageLen, b)
         == After(b[..n], [], Deliver(remaining - n, fragmented, messageLen, b[n..]))
  {
    var k := Min(remaining, |b|);
    if n < k {
      assert b[n..][..k - n] == b[n..k] && b[n..][k - n..] == b[k..];
      assert b[..k] == b[..n] + b[n..k];
      AfterAfter(b[..n], [], b[n..k], [], Deliver(remaining - k, fragmented, messageLen, b[k..]));
    }
  }

  lemma AfterAfter(d: seq<byte>, p: seq<seq<byte>>, e: seq<byte>, q: seq<seq<byte>>, rest: Delivery)
    ensures After(d, p, After(e, q, rest)) == After(d + e, p + q, rest)
    ensures After([], [], rest) == rest
  {
  }

  lemma AfterPings(p: seq<seq<byte>>, q: seq<seq<byte>>, rest: Delivery)
    ensures After([], p, After([], q, rest)) == After([], p + q, rest)
  {
    assert [] + rest.data == rest.data;
  }

  lemma AfterEnd(d: seq<byte>, p: seq<seq<byte>>)
    ensures forall e: Ending :: After(d, p, Delivery([], [], e)) == Delivery(d, p, e)
  {
    assert d + [] == d && p + [] == p;
  }

  lemma DeliverNothing(remaining: nat, fragmented: bool, messageLen: nat)
    ensures Deliver(remaining, fragmented, messageLen, []) == Delivery([], [], Eof)
  {
  }

  // ---------------------------------------------------------------- the reader

  datatype Chunk = Data(n: nat) | Close | Failed(why: Ending) | WriteFailed | EmptyBuffer

  /** The upload side holds the lock for whole packets: it may have sent some before a pong gets it. */
  method OthersSend(writer: Writer) returns (ok: bool)
    requires writer.Valid() && writer.Idle() && !writer.broken
    modifies writer, writer.wire
    ensures writer.Valid() && ok == !writer.broken && (ok ==> writer.Idle())
    ensures Payloads(writer.frames, 10) == old(Payloads(writer.frames, 10))
  {
    hide EncodeAll, WireWith, Payloads;
    var packets: nat := *;
    ok := true;
    while packets > 0
      invariant writer.Valid() && writer.Idle() && !writer.broken && ok
      invariant Payloads(writer.frames, 10) == old(Payloads(writer.frames, 10))
    {
      var count: nat :| count <= MAX_MESSAGE;
      var data := new byte[count];
      ghost var before, payload := writer.frames, data[..count];
      ok := writer.Binary(data, count);
      if !ok {
        return;
      }
      ghost var m: Mask :| writer.frames == before + [Frame(true, 2, Some(m), payload)];
      PayloadsAppend(before, Frame(true, 2, Some(m), payload), 10);
      packets := packets - 1;
    }
  }

  /** Waits for the lock and answers a ping. */
  method SendPong(writer: Writer, data: array<byte>, count: nat) returns (ok: bool)
    requires writer.Valid() && writer.Idle() && !writer.broken && count <= data.Length && count <= 125
    modifies writer, writer.wire, data
    ensures writer.Valid() && ok == !writer.broken && (ok ==> writer.Idle())
    ensures ok ==> Payloads(writer.frames, 10) == old(Payloads(writer.frames, 10)) + [old(data[..count])]
  {
    hide EncodeAll, WireWith, Payloads;
    ok := OthersSend(writer);
    if !ok {
      return;
    }
    ghost var before, payload := writer.frames, data[..count];
    ok := writer.Control(10, data, count);
    if ok {
      ghost var m: Mask :| writer.frames == before + [Frame(true, 10, Some(m), payload)];
      PayloadsAppend(before, Frame(true, 10, Some(m), payload), 10);
    }
  }

  class Reader {
    const wire: Source
    var remaining: nat
    var fragmented: bool
    var messageLen: nat

    constructor (wire: Source)
      requires wire.Valid()
      ensures Valid() && this.wire == wire && Ahead() == Deliver(0, false, 0, wire.Left())
    {
      this.wire := wire;
      remaining, fragmented, messageLen := 0, false, 0;
    }

    ghost predicate Valid()
      reads this, wire
    {
      wire.Valid() && remaining <= messageLen <= MAX_MESSAGE
    }

    /** Everything the stream is still to deliver. */
    ghost function Ahead(): Delivery
      requires Valid()
      reads this, wire
    {
      Deliver(remaining, fragmented, messageLen, wire.Left())
    }

    /** Reads a frame header byte by byte, as far as it needs to. */
    method TakeHead() returns (h: Head)
      requires Valid()
      modifies wire`taken
      ensures Valid() && h == ReadHead(old(wire.Left()))
      ensures h.Head? ==> wire.Left() == old(wire.Left())[h.size..]
    {
      ghost var b := wire.Left();
      var head := new byte[10];
      var filled := wire.ReadExact(head, 0, 2);
      if !filled {
        return Truncated;
      }
      assert head[0] == head[0..2][0] == b[0] && head[1] == head[0..2][1] == b[1];
      if (head[0] as int / 16) % 8 != 0 || head[1] >= 128 {
        return Refused;
      }
      var width := if head[1] < 126 then 0 else if head[1] == 126 then 2 else 8;
      var first, second := head[0], head[1];
      filled := wire.ReadExact(head, 2, 2 + width);
      if !filled {
        return Truncated;
      }
      assert b[2..][..width] == b[2..2 + width] && b[2..][width..] == b[2 + width..];
      var length := if width == 0 then second as int else FromBe(head[2..2 + width]);
      if (width == 2 && length < 126) || (width == 8 && length < 65536) || length > MAX_MESSAGE {
        return Refused;
      }
      return Head(first >= 128, first as int % 16, length, 2 + width);
    }

    /** A control frame whose header was just read: a close ends the stream, and its status code is echoed if
        the lock is free; a ping is answered. */
    method TakeControl(writer: Writer, opcode: nat, length: nat)
        returns (stop: Option<Chunk>, ghost pings: seq<seq<byte>>)
      requires Valid() && 8 <= opcode <= 10 && length <= 125
      requires writer.Valid() && writer.Idle() && !writer.broken
      modifies wire`taken, writer, writer.wire
      ensures Valid() && writer.Valid()
      ensures var b := old(wire.Left());
        match stop
        case None =>
          && length <= |b| && opcode != 8 && pings == (if opcode == 9 then [b[..length]] else [])
          && wire.Left() == b[length..] && writer.Idle() && !writer.broken
          && Payloads(writer.frames, 10) == old(Payloads(writer.frames, 10)) + pings
        case Some(Failed(why)) => if |b| < length then why == Eof else opcode == 8 && length == 1 && why == Bad
        case Some(Close) =>
          && length <= |b| && opcode == 8 && length != 1
          && (Payloads(writer.frames, 8) == old(Payloads(writer.frames, 8))
              || Payloads(writer.frames, 8) == old(Payloads(writer.frames, 8)) + [b[..Min(length, 2)]])
        case Some(WriteFailed) => writer.broken
        case _ => false
    {
      hide EncodeAll, WireWith, Payloads;
      pings := [];
      var control := new byte[125];
      ghost var b := wire.Left();
      var filled := wire.ReadExact(control, 0, length);
      if !filled {
        return Some(Failed(Eof)), pings;
      }
      assert control[0..length] == control[..length];
      if opcode == 8 {
        if length == 1 {
          return Some(Failed(Bad)), pings;
        }
        var free: bool := *;
        if free {
          ghost var before, code := writer.frames, control[..Min(length, 2)];
          assert code == b[..Min(length, 2)];
          var ok := writer.Control(8, control, Min(length, 2));
          if ok {
            ghost var m: Mask :| writer.frames == before + [Frame(true, 8, Some(m), code)];
            PayloadsAppend(before, Frame(true, 8, Some(m), code), 8);
          }
        }
        return Some(Close), pings;
      }
      if opcode == 9 {
        var ok := SendPong(writer, control, length);
        if !ok {
          return Some(WriteFailed), pings;
        }
        pings := [b[..length]];
      } else {
        assert Payloads(writer.frames, 10) + [] == Payloads(writer.frames, 10);
      }
      stop := None;
    }

    /** Reads one frame header, and a control frame's payload with it. */
    method NextFrame(writer: Writer) returns (stop: Option<Chunk>, ghost pings: seq<seq<byte>>)
      requires Valid() && remaining == 0
      requires writer.Valid() && writer.Idle() && !writer.broken
      modifies this, wire`taken, writer, writer.wire
      ensures Valid() && writer.Valid()
      ensures match stop
        case None =>
          && old(Ahead()) == After([], pings, Ahead()) && |wire.Left()| < old(|wire.Left()|)
          && writer.Idle() && !writer.broken
          && Payloads(writer.frames, 10) == old(Payloads(writer.frames, 10)) + pings
        case Some(Failed(why)) => old(Ahead()) == Delivery([], [], why) && !why.Closed?
        case Some(Close) => old(Ahead()) == Delivery([], [], Closed)
        case Some(WriteFailed) => writer.broken
        case _ => false
    {
      hide EncodeAll, WireWith, Payloads, ReadHead, Judge;
      pings := [];
      ghost var b := wire.Left();
      assert Payloads(writer.frames, 10) + [] == Payloads(writer.frames, 10);
      var head := TakeHead();
      match head {
        case Truncated => return Some(Failed(Eof)), pings;
        case Refused => return Some(Failed(Bad)), pings;
        case Head(fin, opcode, length, size) =>
          var verdict := Judge(fragmented, messageLen, fin, opcode, length);
          match verdict {
            case Refuse => return Some(Failed(Bad)), pings;
            case Fragment(total) =>
              remaining, fragmented, messageLen := length, !fin, total;
              AfterAfter([], [], [], [], Ahead());
              return None, pings;
            case Control =>
              JudgeControl(fragmented, messageLen, fin, opcode, length);
              stop, pings := TakeControl(writer, opcode, length);
              if |b| >= size + length {
                assert b[size..][..length] == b[size..size + length];
                assert b[size..][length..] == b[size + length..];
              }
          }
      }
    }

    /** Reads frame headers until one announces payload bytes. */
    method SeekData(writer: Writer) returns (stop: Option<Chunk>, ghost pings: seq<seq<byte>>)
      requires Valid() && writer.Valid() && writer.Idle() && !writer.broken
      modifies this, wire`taken, writer, writer.wire
      ensures Valid() && writer.Valid()
      ensures match stop
        case None =>
          && old(Ahead()) == After([], pings, Ahead()) && |wire.Left()| <= old(|wire.Left()|) && remaining > 0
          && writer.Idle() && !writer.broken
          && Payloads(writer.frames, 10) == old(Payloads(writer.frames, 10)) + pings
        case Some(Failed(why)) => old(Ahead()) == Delivery([], pings, why) && !why.Closed?
        case Some(Close) => old(Ahead()) == Delivery([], pings, Closed)
        case Some(WriteFailed) => writer.broken
        case _ => false
    {
      hide EncodeAll, WireWith, Payloads, ReadHead, Judge, Deliver, After;
      pings := [];
      ghost var whole := Ahead();
      AfterAfter([], [], [], [], whole);
      assert Payloads(writer.frames, 10) + [] == Payloads(writer.frames, 10);
      while remaining == 0
        invariant Valid() && writer.Valid() && writer.Idle() && !writer.broken
        invariant whole == After([], pings, Ahead())
        invariant Payloads(writer.frames, 10) == old(Payloads(writer.frames, 10)) + pings
        invariant |wire.Left()| <= old(|wire.Left()|)
        decreases |wire.Left()|
      {
        ghost var more;
        stop, more := NextFrame(writer);
        if stop.Some? {
          AfterEnd([], pings);
          return stop, pings;
        }
        AfterPings(pings, more, Ahead());
        Associate(old(Payloads(writer.frames, 10)), pings, more);
        pings := pings + more;
      }
      stop := None;
    }

    /** Some payload bytes into the caller's buffer, or the reason why there are none. */
    method NextChunk(data: array<byte>, writer: Writer) returns (r: Chunk, ghost pings: seq<seq<byte>>)
      requires Valid() && writer.Valid() && writer.Idle() && !writer.broken
      modifies this, wire`taken, writer, writer.wire, data
      ensures Valid() && writer.Valid() && (r.EmptyBuffer? <==> data.Length == 0)
      ensures match r
        case Data(n) =>
          && 0 < n <= data.Length && old(Ahead()) == After(data[..n], pings, Ahead())
          && |wire.Left()| < old(|wire.Left()|) && writer.Idle() && !writer.broken
          && Payloads(writer.frames, 10) == old(Payloads(writer.frames, 10)) + pings
        case Failed(why) => old(Ahead()) == Delivery([], pings, why) && !why.Closed?
        case Close => old(Ahead()) == Delivery([], pings, Closed)
        case WriteFailed => writer.broken
        case EmptyBuffer => Ahead() == old(Ahead())
    {
      hide EncodeAll, WireWith, Payloads, ReadHead, Judge, Deliver, After;
      pings := [];
      if data.Length == 0 {
        return EmptyBuffer, pings;
      }
      var stop;
      stop, pings := SeekData(writer);
      if stop.Some? {
        return stop.value, pings;
      }
      ghost var b, before := wire.Left(), Ahead();
      var n := wire.Read(data, 0, Min(data.Length, remaining));
      if n == 0 {
        DeliverNothing(remaining, fragmented, messageLen);
        AfterEnd([], pings);
        return Failed(Eof), pings;
      }
      DeliverPeels(remaining, fragmented, messageLen, b, n);
      remaining := remaining - n;
      AfterAfter([], pings, b[..n], [], Ahead());
      assert pings + [] == pings && [] + b[..n] == b[..n];
      assert data[..n] == data[0..0 + n];
      r := Data(n);
    }
  }
}
