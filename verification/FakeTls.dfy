/** Telegram's imitation of TLS: application data in records, read and written by polling. */
module FakeTls {
  import opened Bytes
  import opened Options
  import Framing

  const APP_DATA_MAX := 16384

  // ---------------------------------------------------------------- records

  function Header(kind: byte, length: nat): seq<byte>
    requires length < 65536
  {
    [kind, 3, 3] + ToBe(length, 2)
  }

  /** One application-data record. */
  function Record(chunk: seq<byte>): seq<byte>
    requires |chunk| < 65536
  {
    Header(0x17, |chunk|) + chunk
  }

  type Chunk = c: seq<byte> | |c| <= APP_DATA_MAX

  function Records(chunks: seq<Chunk>): seq<byte> {
    if |chunks| == 0 then [] else Records(chunks[..|chunks| - 1]) + Record(chunks[|chunks| - 1])
  }

  lemma RecordsAppend(chunks: seq<Chunk>, last: Chunk)
    ensures Records(chunks + [last]) == Records(chunks) + Record(last)
  {
    assert (chunks + [last])[..|chunks|] == chunks;
  }

  // ---------------------------------------------------------------- what a stream of records carries

  datatype Ending = Eof | Truncated | Invalid

  /** The application data of a stream, and how it ends. An alert ends it as well as a closed connection. */
  datatype Carried = Carried(data: seq<byte>, ending: Ending)

  function First(data: seq<byte>, rest: Carried): Carried {
    Carried(data + rest.data, rest.ending)
  }

  datatype Kind = Ccs | App(length: nat) | Alert | Unexpected

  /** What a complete record header announces. */
  function KindOf(h: seq<byte>): Kind
    requires |h| == 5
  {
    var length := FromBe(h[3..5]);
    if h[1..3] != [3, 3] then Unexpected
    else if h[0] == 0x14 && length == 1 then Ccs
    else if h[0] == 0x17 && length <= APP_DATA_MAX + 256 then App(length)
    else if h[0] == 0x15 then Alert
    else Unexpected
  }

  function Carry(b: seq<byte>): Carried
    decreases |b|, 0
  {
    if |b| == 0 then Carried([], Eof)
    else if |b| < 5 then Carried([], Truncated)
    else match KindOf(b[..5])
      case Unexpected => Carried([], Invalid)
      case Alert => Carried([], Eof)
      case Ccs => CarryCcs(b[5..])
      case App(length) => CarryBody(length, b[5..])
  }

  function CarryCcs(b: seq<byte>): Carried
    decreases |b|, 1
  {
    if |b| == 0 then Carried([], Truncated)
    else if b[0] != 1 then Carried([], Invalid)
    else Carry(b[1..])
  }

  /** The rest of a record's data, then the records after it. */
  function CarryBody(length: nat, b: seq<byte>): Carried
    decreases |b|, 1
  {
    if |b| < length then Carried(b, Truncated) else First(b[..length], Carry(b[length..]))
  }

  lemma CarryBodyPeels(length: nat, b: seq<byte>, n: nat)
    requires n <= length && n <= |b|
    ensures CarryBody(length, b) == First(b[..n], CarryBody(length - n, b[n..]))
  {
    if |b| < length {
      assert b[..n] + b[n..] == b;
    } else {
      assert b[n..][..length - n] == b[n..length] && b[n..][length - n..] == b[length..];
      assert b[..n] + b[n..length] == b[..length];
      Associate(b[..n], b[n..length], Carry(b[length..]).data);
    }
  }

  lemma AfterNothing(c: Carried)
    ensures First([], c) == c
  {
  }

  lemma CarryEnds(had: seq<byte>)
    requires |had| < 5
    ensures Carry(had) == Carried([], if |had| == 0 then Eof else Truncated)
  {
  }

  lemma CarryBodyEnds(length: nat)
    requires length > 0
    ensures CarryBody(length, []) == Carried([], Truncated)
  {
  }

  lemma CarryBodyDone(b: seq<byte>)
    ensures CarryBody(0, b) == Carry(b)
  {
    assert b[0..] == b;
    AfterNothing(Carry(b));
  }

  lemma CarryKind(h: seq<byte>, b: seq<byte>)
    requires |h| == 5
    ensures Carry(h + b) ==
      match KindOf(h)
      case Unexpected => Carried([], Invalid)
      case Alert => Carried([], Eof)
      case Ccs => CarryCcs(b)
      case App(length) => CarryBody(length, b)
    ensures CarryBody(0, b) == Carry(b)
  {
    assert (h + b)[..5] == h && (h + b)[5..] == b;
    CarryBodyDone(b);
  }

  // ---------------------------------------------------------------- the connection underneath

  datatype Poll = Ready(n: nat) | Pending | Error

  datatype ReadPoll = Filled(n: nat) | Pending | Failed(why: Ending) | IoError

  class Transport {
    const input: seq<byte>
    var taken: nat
    var wire: seq<byte>

    constructor (input: seq<byte>)
      ensures this.input == input && taken == 0 && wire == []
    {
      this.input := input;
      taken, wire := 0, [];
    }

    predicate Valid()
      reads this
    {
      taken <= |input|
    }

    function Left(): seq<byte>
      requires Valid()
      reads this
    {
      input[taken..]
    }

    /** Writes a prefix, or nothing yet, or fails. */
    method PollWrite(data: seq<byte>) returns (r: Poll)
      modifies this`wire
      ensures r.Ready? ==> r.n <= |data|
      ensures wire == old(wire) + if r.Ready? then data[..r.n] else []
    {
      r := *;
      if r.Ready? {
        var n: nat :| n <= |data|;
        wire := wire + data[..n];
        r := Ready(n);
      } else {
        assert wire + [] == wire;
      }
    }

    /** Fills a prefix of `buffer[lo..hi]`; nothing at all only at the end of the stream. */
    method PollRead(buffer: array<byte>, lo: nat, hi: nat) returns (r: Poll)
      requires Valid() && lo < hi <= buffer.Length
      modifies this`taken, buffer
      ensures Valid()
      ensures r.Ready? ==> r.n <= hi - lo && r.n <= |old(Left())| && (r.n == 0 <==> |old(Left())| == 0)
      ensures Left() == if r.Ready? then old(Left())[r.n..] else old(Left())
      ensures r.Ready? ==> buffer[..] == old(buffer[..lo]) + old(Left())[..r.n] + old(buffer[lo + r.n..])
      ensures !r.Ready? ==> buffer[..] == old(buffer[..])
    {
      r := *;
      if !r.Ready? {
        return;
      }
      var k: nat :| k <= hi - lo && k <= |input| - taken && (k == 0 <==> taken == |input|);
      var n: nat := 0;
      while n < k
        invariant n <= k && taken == old(taken)
        invariant forall i | lo <= i < lo + n :: buffer[i] == input[taken + (i - lo)]
        invariant forall i | 0 <= i < lo || lo + n <= i < buffer.Length :: buffer[i] == old(buffer[i])
      {
        buffer[lo + n] := input[taken + n];
        n := n + 1;
      }
      taken := taken + k;
      r := Ready(k);
    }
  }

  class FakeTlsStream {
    const inner: Transport
    const readHeader: array<byte>
    var readHeaderLen: nat
    var readRemaining: nat
    var readCcs: bool
    var readEof: bool
    var writeRecord: seq<byte>
    var writeOffset: nat

    ghost const before: seq<byte>          // on the wire before this stream was put over it
    ghost var accepted: seq<Chunk>         // every chunk a write has taken

    constructor (inner: Transport)
      requires inner.Valid()
      ensures Valid() && this.inner == inner && accepted == [] && before == inner.wire && fresh(readHeader)
      ensures Ahead() == Carry(inner.Left())
    {
      this.inner := inner;
      readHeader := new byte[5];
      readHeaderLen, readRemaining, readCcs, readEof := 0, 0, false, false;
      writeRecord, writeOffset := [], 0;
      accepted, before := [], inner.wire;
      new;
      assert readHeader[..0] + inner.Left() == inner.Left();
    }

    ghost predicate Valid()
      reads this, inner, readHeader
    {
      && inner.Valid() && readHeader.Length == 5 && readHeaderLen < 5
      && (readRemaining > 0 ==> readHeaderLen == 0)
      && (readCcs ==> readRemaining == 1)
      && WriteValid()
    }

    /** What is on the wire and what of the current record is not yet there make up the records of exactly
        the chunks that were accepted. */
    ghost predicate WriteValid()
      reads this, inner
    {
      && writeOffset <= |writeRecord|
      && inner.wire + writeRecord[writeOffset..] == before + Records(accepted)
    }

    /** The data still to be read. */
    ghost function Ahead(): Carried
      requires Valid()
      reads this, inner, readHeader
    {
      if readEof then Carried([], Eof)
      else if readRemaining == 0 then Carry(readHeader[..readHeaderLen] + inner.Left())
      else if readCcs then CarryCcs(inner.Left())
      else CarryBody(readRemaining, inner.Left())
    }

    // -------------------------------------------------------------- writing

    /** Pushes out what is left of the current record, giving way after 64 writes. */
    method PollDrainRecord() returns (r: Poll)
      requires Valid()
      modifies this`writeRecord, this`writeOffset, inner`wire
      ensures Valid()
      ensures r.Ready? ==> writeRecord == [] && inner.wire == before + Records(accepted)
    {
      hide Records;
      for i := 0 to 64
        invariant Valid()
      {
        if writeOffset == |writeRecord| {
          assert writeRecord[writeOffset..] == [];
          writeRecord, writeOffset := [], 0;
          return Ready(0);
        }
        r := inner.PollWrite(writeRecord[writeOffset..]);
        if !r.Ready? {
          assert old(inner.wire) + [] == old(inner.wire);
          return;
        }
        if r.n == 0 {
          return Error;
        }
        assert writeRecord[writeOffset..][..r.n] + writeRecord[writeOffset + r.n..] == writeRecord[writeOffset..];
        writeOffset := writeOffset + r.n;
      }
      return Poll.Pending;
    }

    /** A write that is not ready has taken nothing; one that is ready has taken a chunk, whether or not it
        is on the wire yet. */
    method PollWrite(data: seq<byte>) returns (r: Poll)
      requires Valid()
      modifies this`writeRecord, this`writeOffset, this`accepted, inner`wire
      ensures Valid()
      ensures r.Pending? ==> accepted == old(accepted)
      ensures r.Ready? ==>
        && r.n == Min(|data|, APP_DATA_MAX)
        && accepted == old(accepted) + if r.n > 0 then [data[..r.n]] else []
      ensures r.Error? ==>
        || accepted == old(accepted)
        || (|data| > 0 && accepted == old(accepted) + [data[..Min(|data|, APP_DATA_MAX)]])
    {
      hide Records;
      r := PollDrainRecord();
      if !r.Ready? {
        return;
      }
      if |data| == 0 {
        return Ready(0);
      }
      var n := Min(|data|, APP_DATA_MAX);
      writeRecord := writeRecord + Header(0x17, n) + data[..n];
      RecordsAppend(accepted, data[..n]);
      assert writeRecord[writeOffset..] == Record(data[..n]);
      accepted := accepted + [data[..n]];
      r := PollDrainRecord();
      if r.Error? {
        return;
      }
      return Ready(n);
    }

    method PollFlush() returns (r: Poll)
      requires Valid()
      modifies this`writeRecord, this`writeOffset, inner`wire
      ensures Valid()
      ensures r.Ready? ==> inner.wire == before + Records(accepted)
    {
      r := PollDrainRecord();
      if r.Ready? {
        r := *;
      }
    }

    // -------------------------------------------------------------- reading

    /** The one byte of a change-cipher-spec record. */
    method ReadCcs() returns (stop: Option<ReadPoll>)
      requires Valid() && !readEof && readRemaining > 0 && readCcs
      modifies this`readRemaining, this`readCcs, inner`taken
      ensures Valid() && Continues(stop, old(Ahead()))
    {
      hide Carry, CarryBody;
      ghost var left := inner.Left();
      var ccs := new byte[1];
      var r := inner.PollRead(ccs, 0, 1);
      if !r.Ready? {
        return Some(if r.Pending? then ReadPoll.Pending else IoError);
      }
      if r.n == 0 {
        return Some(Failed(Truncated));
      }
      assert ccs[..] == left[..1];
      assert ccs[0] == left[0];
      if ccs[0] != 1 {
        return Some(Failed(Invalid));
      }
      readRemaining, readCcs := 0, false;
      assert readHeader[..0] + inner.Left() == inner.Left();
      return None;
    }

    /** A complete header is acted on. */
    method ActOnHeader() returns (stop: Option<ReadPoll>)
      requires Valid() && !readEof && readRemaining == 0 && readHeaderLen == 0
      modifies this`readRemaining, this`readCcs, this`readEof
      ensures Valid() && Continues(stop, old(Carry(readHeader[..] + inner.Left())))
    {
      hide Carry, CarryBody, CarryCcs, FromBe;
      ghost var header := readHeader[..];
      CarryKind(header, inner.Left());
      assert header[1..3] == readHeader[1..3] && header[3..5] == readHeader[3..5];
      assert readHeader[..0] + inner.Left() == inner.Left();
      if readHeader[1..3] != [3, 3] {
        return Some(Failed(Invalid));
      }
      var length := FromBe(readHeader[3..5]);
      if readHeader[0] == 0x14 && length == 1 {
        readCcs := true;
      } else if readHeader[0] == 0x17 && length <= APP_DATA_MAX + 256 {
      } else if readHeader[0] == 0x15 {
        readEof := true;
        return Some(Filled(0));
      } else {
        return Some(Failed(Invalid));
      }
      readRemaining := length;
      return None;
    }

    /** As much of a record header as one read brings. */
    method ReadHeaderPart() returns (stop: Option<ReadPoll>)
      requires Valid() && !readEof && readRemaining == 0
      modifies this`readHeaderLen, this`readRemaining, this`readCcs, this`readEof, inner`taken, readHeader
      ensures Valid() && Continues(stop, old(Ahead()))
    {
      hide Carry, CarryBody, CarryCcs;
      ghost var left, had := inner.Left(), readHeader[..readHeaderLen];
      var r := inner.PollRead(readHeader, readHeaderLen, 5);
      if !r.Ready? {
        assert readHeader[..readHeaderLen] == had;
        return Some(if r.Pending? then ReadPoll.Pending else IoError);
      }
      if r.n == 0 {
        CarryEnds(had);
        assert had + left == had;
        if readHeaderLen != 0 {
          return Some(Failed(Truncated));
        }
        readEof := true;
        return Some(Filled(0));
      }
      readHeaderLen := readHeaderLen + r.n;
      assert readHeader[..readHeaderLen] == had + left[..r.n];
      assert had + left[..r.n] + left[r.n..] == had + left;
      if readHeaderLen != 5 {
        return None;
      }
      assert readHeader[..5] == readHeader[..];
      readHeaderLen := 0;
      stop := ActOnHeader();
    }

    /** Where a step of a read leaves the data that was ahead of it: going on, or giving way, keeps all of
        it; an end or a failure is reported only when there was none. */
    ghost predicate Continues(stop: Option<ReadPoll>, was: Carried)
      requires Valid()
      reads this, inner, readHeader
    {
      match stop
      case None => Ahead() == was && !readEof
      case Some(Pending) => Ahead() == was && !readEof
      case Some(Filled(n)) => n == 0 && was == Carried([], Eof) && readEof
      case Some(Failed(why)) => was == Carried([], why) && !why.Eof?
      case Some(IoError) => true
    }

    /** Bytes of the current record, straight into the caller's buffer. */
    method ReadBody(output: array<byte>, lo: nat, hi: nat) returns (r: ReadPoll)
      requires Valid() && !readEof && readRemaining > 0 && !readCcs && lo < hi <= output.Length && output != readHeader
      modifies this`readRemaining, inner`taken, output
      ensures Valid()
      ensures match r
        case Filled(n) =>
          && 0 < n <= hi - lo && output[..] == old(output[..lo]) + output[lo..lo + n] + old(output[lo + n..])
          && old(Ahead()) == First(output[lo..lo + n], Ahead())
        case Pending => Ahead() == old(Ahead()) && output[..] == old(output[..])
        case Failed(why) => old(Ahead()) == Carried([], why) && !why.Eof?
        case IoError => true
    {
      hide Carry, CarryCcs, CarryBody;
      ghost var left := inner.Left();
      var n := Min(hi - lo, readRemaining);
      var got := inner.PollRead(output, lo, lo + n);
      if !got.Ready? {
        return if got.Pending? then ReadPoll.Pending else IoError;
      }
      if got.n == 0 {
        CarryBodyEnds(readRemaining);
        return Failed(Truncated);
      }
      CarryBodyPeels(readRemaining, left, got.n);
      CarryBodyDone(inner.Left());
      readRemaining := readRemaining - got.n;
      assert readHeader[..0] + inner.Left() == inner.Left();
      assert output[lo..lo + got.n] == left[..got.n];
      return Filled(got.n);
    }

    /** One poll of a read into `output[lo..hi]`: at most 32 steps, then it gives way. */
    method PollRead(output: array<byte>, lo: nat, hi: nat) returns (r: ReadPoll)
      requires Valid() && lo <= hi <= output.Length && output != readHeader
      modifies this`readHeaderLen, this`readRemaining, this`readCcs, this`readEof, inner`taken, readHeader, output
      ensures Valid()
      ensures match r
        case Filled(n) =>
          && n <= hi - lo && (n == 0 ==> lo == hi || old(Ahead()) == Carried([], Eof))
          && output[..] == old(output[..lo]) + output[lo..lo + n] + old(output[lo + n..])
          && old(Ahead()) == First(output[lo..lo + n], Ahead())
        case Pending => Ahead() == old(Ahead()) && output[..] == old(output[..])
        case Failed(why) => old(Ahead()) == Carried([], why) && !why.Eof?
        case IoError => true
    {
      hide Carry, CarryCcs, CarryBody;
      AfterNothing(Ahead());
      if hi == lo || readEof {
        return Filled(0);
      }
      for i := 0 to 32
        invariant Valid() && !readEof && Ahead() == old(Ahead())
        invariant output[..] == old(output[..])
      {
        var stop;
        if readRemaining != 0 && readCcs {
          stop := ReadCcs();
          if stop.Some? {
            return stop.value;
          }
        } else if readRemaining != 0 {
          r := ReadBody(output, lo, hi);
          return;
        } else {
          stop := ReadHeaderPart();
          if stop.Some? {
            return stop.value;
          }
        }
      }
      return ReadPoll.Pending;
    }

    // -------------------------------------------------------------- many polls

    /** Any number of polls with any buffers: what was read is the front of what was ahead, and giving way
        in between loses nothing. */
    method ReadPolls(polls: nat) returns (got: seq<byte>, end: ReadPoll)
      requires Valid()
      modifies this`readHeaderLen, this`readRemaining, this`readCcs, this`readEof, inner`taken, readHeader
      ensures Valid()
      ensures end.Pending? || end.Filled? ==> old(Ahead()) == First(got, Ahead())
      ensures end.Filled? ==> end.n == 0 && old(Ahead()) == Carried(got, Eof)
      ensures end.Failed? ==> old(Ahead()) == Carried(got, end.why)
    {
      hide Carry, CarryCcs, CarryBody;
      ghost var whole := Ahead();
      got := [];
      AfterNothing(whole);
      for i := 0 to polls
        invariant Valid() && whole == First(got, Ahead())
      {
        var size: nat :| size > 0;
        var buffer := new byte[size];
        ghost var ahead := Ahead();
        end := PollRead(buffer, 0, size);
        if end.IoError? || end.Failed? || (end.Filled? && end.n == 0) {
          AfterLast(got);
          AfterNothing(Ahead());
          return;
        }
        if end.Filled? {
          FirstTwice(got, buffer[0..end.n], Ahead());
          got := got + buffer[0..end.n];
        }
      }
      end := ReadPoll.Pending;
    }

    /** A caller that keeps offering what has not been taken of its data. */
    method WritePolls(data: seq<byte>, polls: nat) returns (at: nat, ok: bool)
      requires Valid()
      modifies this`writeRecord, this`writeOffset, this`accepted, inner`wire
      ensures Valid() && at <= |data|
      ensures ok ==> Concat(accepted) == Concat(old(accepted)) + data[..at]
      ensures inner.wire <= before + Records(accepted)
    {
      hide Records, Concat;
      at := 0;
      for i := 0 to polls
        invariant Valid() && at <= |data| && Concat(accepted) == Concat(old(accepted)) + data[..at]
      {
        ghost var was := accepted;
        var r := PollWrite(data[at..]);
        if r.Error? {
          return at, false;
        }
        if r.Ready? && r.n > 0 {
          ConcatAppend(was, data[at..][..r.n]);
          assert data[..at] + data[at..][..r.n] == data[..at + r.n];
          at := at + r.n;
        } else {
          assert was + [] == was;
        }
      }
      ok := true;
    }
  }

  lemma FirstTwice(d: seq<byte>, e: seq<byte>, rest: Carried)
    ensures First(d, First(e, rest)) == First(d + e, rest)
  {
  }

  lemma AfterLast(d: seq<byte>)
    ensures forall e: Ending :: First(d, Carried([], e)) == Carried(d, e)
  {
    assert d + [] == d;
  }

  // ---------------------------------------------------------------- reading what was written

  /** What a peer may send: data records, empty ones among them, and change-cipher-spec records. */
  type Body = c: seq<byte> | |c| <= APP_DATA_MAX + 256

  datatype Item = Data(chunk: Body) | ChangeCipherSpec

  function ItemBytes(item: Item): seq<byte> {
    if item.Data? then Record(item.chunk) else Header(0x14, 1) + [1]
  }

  function Sent(items: seq<Item>): seq<byte> {
    if |items| == 0 then [] else ItemBytes(items[0]) + Sent(items[1..])
  }

  function Payload(items: seq<Item>): seq<byte> {
    if |items| == 0 then [] else (if items[0].Data? then items[0].chunk else []) + Payload(items[1..])
  }

  lemma HeaderKind(kind: byte, length: nat)
    requires length < 65536
    ensures KindOf(Header(kind, length)) ==
      if kind == 0x14 && length == 1 then Ccs
      else if kind == 0x17 && length <= APP_DATA_MAX + 256 then App(length)
      else if kind == 0x15 then Alert
      else Unexpected
  {
    Framing.Powers();
    BeRoundTrip(length, 2);
    assert Header(kind, length)[3..5] == ToBe(length, 2);
  }

  lemma CarryItem(item: Item, rest: seq<byte>)
    ensures Carry(ItemBytes(item) + rest) == First(if item.Data? then item.chunk else [], Carry(rest))
  {
    hide Carry;
    if item.Data? {
      HeaderKind(0x17, |item.chunk|);
      Associate(Header(0x17, |item.chunk|), item.chunk, rest);
      CarryKind(Header(0x17, |item.chunk|), item.chunk + rest);
      CarryBodyPeels(|item.chunk|, item.chunk + rest, |item.chunk|);
      assert (item.chunk + rest)[|item.chunk|..] == rest && (item.chunk + rest)[..|item.chunk|] == item.chunk;
      CarryBodyDone(rest);
    } else {
      HeaderKind(0x14, 1);
      Associate(Header(0x14, 1), [1], rest);
      CarryKind(Header(0x14, 1), [1] + rest);
      assert ([1] + rest)[1..] == rest;
      AfterNothing(Carry(rest));
    }
  }

  /** A stream of records carries the concatenated data; empty and change-cipher-spec records add nothing. */
  lemma {:induction false} CarriesPayload(items: seq<Item>)
    ensures Carry(Sent(items)) == Carried(Payload(items), Eof)
  {
    if |items| > 0 {
      hide Carry;
      CarriesPayload(items[1..]);
      CarryItem(items[0], Sent(items[1..]));
    }
  }

  /** Whatever a writer has accepted, the reader at the other end finds. */
  lemma {:induction false} RecordsCarry(chunks: seq<Chunk>, rest: seq<byte>)
    ensures Carry(Records(chunks) + rest) == First(Concat(chunks), Carry(rest))
  {
    if |chunks| == 0 {
      assert Records(chunks) + rest == rest;
      AfterNothing(Carry(rest));
    } else {
      hide Carry, Record;
      var front, last := chunks[..|chunks| - 1], chunks[|chunks| - 1];
      assert chunks == front + [last];
      ConcatAppend(front, last);
      Associate(Records(front), Record(last), rest);
      RecordsCarry(front, Record(last) + rest);
      CarryItem(Data(last), rest);
      FirstTwice(Concat(front), last, Carry(rest));
    }
  }

  /** A stream that was cut short carries the front of the data: no reader is misled by records that are
      only partly on the wire. */
  lemma {:induction false} CutShort(b: seq<byte>, more: seq<byte>)
    ensures Carry(b).data <= Carry(b + more).data
    decreases |b|
  {
    if |b| >= 5 {
      assert b + more == b[..5] + (b[5..] + more);
      CarryKind(b[..5], b[5..] + more);
      match KindOf(b[..5]) {
        case Ccs =>
          if |b| > 5 {
            assert (b[5..] + more)[1..] == b[6..] + more && b[5..][1..] == b[6..];
            CutShort(b[6..], more);
          }
        case App(length) =>
          var body := b[5..];
          if |body| >= length {
            assert (body + more)[..length] == body[..length] && (body + more)[length..] == body[length..] + more;
            CutShort(body[length..], more);
          } else {
            CarryBodyPeels(length, body + more, |body|);
            assert (body + more)[..|body|] == body;
          }
        case _ =>
      }
    }
  }

  /** Between a writer and a reader: at any moment, after any polls, what the peer can read is the front of
      what was accepted, and all of it once nothing is left unsent. */
  lemma PeerReads(chunks: seq<Chunk>, wire: seq<byte>, unsent: seq<byte>)
    requires wire + unsent == Records(chunks)
    ensures Carry(wire).data <= Concat(chunks)
    ensures unsent == [] ==> Carry(wire) == Carried(Concat(chunks), Eof)
  {
    hide Records;
    assert Records(chunks) + [] == Records(chunks);
    RecordsCarry(chunks, []);
    CarryEnds([]);
    AfterLast(Concat(chunks));
    CutShort(wire, unsent);
    assert unsent == [] ==> wire == Records(chunks);
  }
}
