/** What the byte-wise reader delivers, told again over whole frames and whole messages. */
module WsMessages {
  import opened Bytes
  import opened Options
  import opened WsFrames
  import opened WsReader

  // ---------------------------------------------------------------- frame by frame

  /** What frames deliver, followed by bytes that are not a whole frame. */
  function DeliverFrames(fragmented: bool, messageLen: nat, frames: seq<Frame>, rest: seq<byte>): Delivery
    decreases |frames|
  {
    if |frames| == 0 then Deliver(0, fragmented, messageLen, rest)
    else
      var f := frames[0];
      var length := |f.payload|;
      if f.mask.Some? || length > MAX_MESSAGE then Delivery([], [], Bad)
      else match Judge(fragmented, messageLen, f.fin, f.opcode, length)
        case Refuse => Delivery([], [], Bad)
        case Fragment(total) => After(f.payload, [], DeliverFrames(!f.fin, total, frames[1..], rest))
        case Control =>
          if f.opcode == 8 then Delivery([], [], if length == 1 then Bad else Closed)
          else
            After([], if f.opcode == 9 then [f.payload] else [],
                  DeliverFrames(fragmented, messageLen, frames[1..], rest))
  }

  /** The reader's header and the frame a decoder finds agree. */
  lemma HeadOfFrame(b: seq<byte>)
    requires Decode(b).Some?
    ensures var (f, n) := Decode(b).value;
      if f.mask.Some? || |f.payload| > MAX_MESSAGE then ReadHead(b) == Refused
      else
        && ReadHead(b).Head? && ReadHead(b).fin == f.fin && ReadHead(b).opcode == f.opcode
        && ReadHead(b).length == |f.payload| && n == ReadHead(b).size + |f.payload| <= |b|
        && b[ReadHead(b).size..n] == f.payload
  {
    var (f, n) := Decode(b).value;
    LengthUnique(b[1..]);
    if b[1] % 128 == 126 {
      assert b[1..][1..3] == b[2..4];
    } else if b[1] % 128 == 127 {
      assert b[1..][1..9] == b[2..10];
    }
  }

  lemma DeliverPayload(fragmented: bool, messageLen: nat, payload: seq<byte>, b: seq<byte>, rest: seq<byte>)
    requires b == payload + rest
    ensures Deliver(|payload|, fragmented, messageLen, b)
        == After(payload, [], Deliver(0, fragmented, messageLen, rest))
  {
    if |payload| == 0 {
      assert b == rest;
      AfterAfter([], [], [], [], Deliver(0, fragmented, messageLen, rest));
    } else {
      DeliverPeels(|payload|, fragmented, messageLen, b, |payload|);
      assert b[..|payload|] == payload && b[|payload|..] == rest;
    }
  }

  /** What the reader makes of the frame at the front. */
  lemma DeliverFrame(fragmented: bool, messageLen: nat, b: seq<byte>)
    requires Decode(b).Some?
    ensures var (f, n) := Decode(b).value;
      Deliver(0, fragmented, messageLen, b) ==
        if f.mask.Some? || |f.payload| > MAX_MESSAGE then Delivery([], [], Bad)
        else match Judge(fragmented, messageLen, f.fin, f.opcode, |f.payload|)
          case Refuse => Delivery([], [], Bad)
          case Fragment(total) => After(f.payload, [], Deliver(0, !f.fin, total, b[n..]))
          case Control =>
            if f.opcode == 8 then Delivery([], [], if |f.payload| == 1 then Bad else Closed)
            else After([], if f.opcode == 9 then [f.payload] else [], Deliver(0, fragmented, messageLen, b[n..]))
  {
    hide Decode, ReadHead, Judge;
    HeadOfFrame(b);
    var (f, n) := Decode(b).value;
    if f.mask.None? && |f.payload| <= MAX_MESSAGE {
      var size := ReadHead(b).size;
      assert b[size..] == f.payload + b[n..];
      match Judge(fragmented, messageLen, f.fin, f.opcode, |f.payload|) {
        case Fragment(total) => DeliverPayload(!f.fin, total, f.payload, b[size..], b[n..]);
        case _ =>
      }
    }
  }

  /** For every stream, the bytes delivered are those of its frames. */
  lemma {:induction false} DeliverIsByFrames(fragmented: bool, messageLen: nat, b: seq<byte>)
    ensures Deliver(0, fragmented, messageLen, b)
         == DeliverFrames(fragmented, messageLen, DecodeAll(b).0, DecodeAll(b).1)
    decreases |b|
  {
    if Decode(b).Some? {
      var (f, n) := Decode(b).value;
      var (rest, left) := DecodeAll(b[n..]);
      assert DecodeAll(b) == ([f] + rest, left) && ([f] + rest)[1..] == rest;
      DeliverFrame(fragmented, messageLen, b);
      hide Decode, Deliver, DecodeAll, Judge;
      match Judge(fragmented, messageLen, f.fin, f.opcode, |f.payload|) {
        case Refuse =>
        case Fragment(total) => DeliverIsByFrames(!f.fin, total, b[n..]);
        case Control => DeliverIsByFrames(fragmented, messageLen, b[n..]);
      }
    }
  }

  // ---------------------------------------------------------------- message by message

  /** The messages of the frames: control frames are nothing, a final frame ends one. The last is the one
      still open. */
  function Messages(open: seq<byte>, frames: seq<Frame>): seq<seq<byte>>
    decreases |frames|
  {
    if |frames| == 0 then [open]
    else if frames[0].opcode >= 8 then Messages(open, frames[1..])
    else if frames[0].fin then [open + frames[0].payload] + Messages([], frames[1..])
    else Messages(open + frames[0].payload, frames[1..])
  }

  /** Sections 5.4 and 5.5 of RFC 6455 as this client reads them: only binary messages, unmasked frames,
      short unfragmented controls. */
  predicate Legal(f: Frame) {
    f.mask.None? && (f.opcode >= 8 ==> f.fin && |f.payload| <= 125 && 9 <= f.opcode <= 10)
  }

  predicate AllLegal(frames: seq<Frame>) {
    forall f | f in frames :: Legal(f)
  }

  lemma AllLegalFront(frames: seq<Frame>)
    requires |frames| > 0
    ensures AllLegal(frames) <==> Legal(frames[0]) && AllLegal(frames[1..])
  {
    assert frames == [frames[0]] + frames[1..];
  }

  predicate Sequenced(fragmented: bool, frames: seq<Frame>)
    decreases |frames|
  {
    if |frames| == 0 then true
    else if frames[0].opcode >= 8 then Sequenced(fragmented, frames[1..])
    else frames[0].opcode == (if fragmented then 0 else 2) && Sequenced(!frames[0].fin, frames[1..])
  }

  predicate WithinLimit(messages: seq<seq<byte>>) {
    forall m | m in messages :: |m| <= MAX_MESSAGE
  }

  /** Where the reader stands after frames it took without ending. */
  function Through(fragmented: bool, messageLen: nat, frames: seq<Frame>): Option<(bool, nat)>
    decreases |frames|
  {
    if |frames| == 0 then Some((fragmented, messageLen))
    else
      var f := frames[0];
      if f.mask.Some? || |f.payload| > MAX_MESSAGE then None
      else match Judge(fragmented, messageLen, f.fin, f.opcode, |f.payload|)
        case Refuse => None
        case Fragment(total) => Through(!f.fin, total, frames[1..])
        case Control => if f.opcode == 8 then None else Through(fragmented, messageLen, frames[1..])
  }

  /** A message that is too long somewhere in the middle is too long at its end. */
  lemma {:induction false} OpenStaysWithin(open: seq<byte>, frames: seq<Frame>)
    ensures WithinLimit(Messages(open, frames)) ==> |open| <= MAX_MESSAGE
    decreases |frames|
  {
    if |frames| == 0 {
      assert open in Messages(open, frames);
    } else if frames[0].opcode >= 8 {
      OpenStaysWithin(open, frames[1..]);
    } else if frames[0].fin {
      assert open + frames[0].payload in Messages(open, frames);
    } else {
      OpenStaysWithin(open + frames[0].payload, frames[1..]);
    }
  }

  lemma WithinLimitFront(first: seq<byte>, messages: seq<seq<byte>>)
    ensures WithinLimit([first] + messages) <==> |first| <= MAX_MESSAGE && WithinLimit(messages)
  {
    assert first in [first] + messages;
    forall m | m in messages ensures m in [first] + messages {
    }
  }

  /** The reader takes frames to the end exactly when each is legal, they are in sequence, and no message,
      not even the open one, is longer than the limit. */
  lemma {:induction false} AcceptsExactly(fragmented: bool, open: seq<byte>, frames: seq<Frame>)
    requires |open| <= MAX_MESSAGE && (!fragmented ==> open == [])
    ensures Through(fragmented, |open|, frames).Some? <==>
      AllLegal(frames) && Sequenced(fragmented, frames) && WithinLimit(Messages(open, frames))
    decreases |frames|
  {
    if |frames| > 0 {
      var f, rest := frames[0], frames[1..];
      AllLegalFront(frames);
      OpenStaysWithin(open, frames);
      if f.opcode >= 8 {
        AcceptsExactly(fragmented, open, rest);
      } else {
        var longer := open + f.payload;
        if |longer| <= MAX_MESSAGE {
          AcceptsExactly(!f.fin, if f.fin then [] else longer, rest);
        }
        if f.fin {
          LengthAfterFinal(|longer|, rest);
          WithinLimitFront(longer, Messages([], rest));
        } else {
          OpenStaysWithin(longer, rest);
        }
      }
    }
  }

  /** After a final frame the length of the message before it no longer matters. */
  lemma {:induction false} LengthAfterFinal(messageLen: nat, frames: seq<Frame>)
    ensures Through(false, messageLen, frames).Some? <==> Through(false, 0, frames).Some?
  {
    if |frames| > 0 && frames[0].opcode >= 8 {
      LengthAfterFinal(messageLen, frames[1..]);
    }
  }

  lemma PayloadsCons(frames: seq<Frame>, opcode: nat)
    requires |frames| > 0
    ensures Payloads(frames, opcode)
         == (if frames[0].opcode == opcode then [frames[0].payload] else []) + Payloads(frames[1..], opcode)
  {
    if |frames| == 1 {
      assert frames[..0] == [] && frames[1..] == [];
    } else {
      PayloadsCons(frames[..|frames| - 1], opcode);
      assert frames[..|frames| - 1][1..] == frames[1..][..|frames| - 2];
    }
  }

  lemma ConcatMessages(open: seq<byte>, more: seq<byte>, frames: seq<Frame>)
    ensures Concat(Messages(open + more, frames)) == open + Concat(Messages(more, frames))
    decreases |frames|
  {
    if |frames| == 0 {
      ConcatFirst(open + more, []);
      ConcatFirst(more, []);
      assert [open + more] + [] == [open + more] && [more] + [] == [more];
      Associate(open, more, Concat([]));
    } else if frames[0].opcode >= 8 {
      ConcatMessages(open, more, frames[1..]);
    } else {
      var payload := frames[0].payload;
      Associate(open, more, payload);
      if frames[0].fin {
        ConcatFirst(open + more + payload, Messages([], frames[1..]));
        ConcatFirst(more + payload, Messages([], frames[1..]));
        Associate(open, more + payload, Concat(Messages([], frames[1..])));
      } else {
        ConcatMessages(open, more + payload, frames[1..]);
      }
    }
  }

  lemma ConcatPayload(payload: seq<byte>, f: Frame, frames: seq<Frame>)
    requires f.opcode < 8 && payload == f.payload
    ensures Concat(Messages([], [f] + frames)) == payload + Concat(Messages([], frames))
  {
    assert ([f] + frames)[1..] == frames && [] + payload == payload && payload + [] == payload;
    if f.fin {
      ConcatFirst(payload, Messages([], frames));
    } else {
      ConcatMessages(payload, [], frames);
    }
  }

  /** What frames that are all taken deliver: their messages' bytes, and every ping. */
  lemma {:induction false} ThroughDelivers(fragmented: bool, messageLen: nat, frames: seq<Frame>, rest: seq<byte>)
    requires Through(fragmented, messageLen, frames).Some?
    ensures var (f, l) := Through(fragmented, messageLen, frames).value;
      DeliverFrames(fragmented, messageLen, frames, rest)
        == After(Concat(Messages([], frames)), Payloads(frames, 9), Deliver(0, f, l, rest))
    decreases |frames|
  {
    var (f, l) := Through(fragmented, messageLen, frames).value;
    if |frames| == 0 {
      AfterAfter([], [], [], [], Deliver(0, f, l, rest));
      assert Concat([[]]) == [] + Concat([]);
    } else {
      var x, others := frames[0], frames[1..];
      assert frames == [x] + others;
      PayloadsCons(frames, 9);
      match Judge(fragmented, messageLen, x.fin, x.opcode, |x.payload|) {
        case Fragment(total) =>
          ThroughDelivers(!x.fin, total, others, rest);
          ConcatPayload(x.payload, x, others);
          AfterAfter(x.payload, [], Concat(Messages([], others)), Payloads(others, 9), Deliver(0, f, l, rest));
        case Control =>
          ThroughDelivers(fragmented, messageLen, others, rest);
          AfterAfter([], if x.opcode == 9 then [x.payload] else [],
                     Concat(Messages([], others)), Payloads(others, 9), Deliver(0, f, l, rest));
      }
    }
  }

  /** A server that sends legal frames in sequence, with no message over the limit, has every message
      delivered, byte for byte and in order, and every ping seen; then the stream ends. */
  lemma ServerIsHeard(frames: seq<Frame>)
    requires AllLegal(frames) && Sequenced(false, frames) && WithinLimit(Messages([], frames))
    ensures Deliver(0, false, 0, EncodeAll(frames)) == Delivery(Concat(Messages([], frames)), Payloads(frames, 9), Eof)
  {
    AcceptsExactly(false, [], frames);
    hide *;
    DecodeNothing();
    DecodeAllEncoded(frames, [], [], []);
    assert EncodeAll(frames) + [] == EncodeAll(frames) && frames + [] == frames;
    DeliverIsByFrames(false, 0, EncodeAll(frames));
    ThroughDelivers(false, 0, frames, []);
    var (f, l) := Through(false, 0, frames).value;
    DeliverNothing(0, f, l);
    AfterEnd(Concat(Messages([], frames)), Payloads(frames, 9));
  }

  lemma DecodeNothing()
    ensures DecodeAll([]) == ([], [])
  {
  }
}
