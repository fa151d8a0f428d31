/** Receiving one response body under a memory charge. */
module Post {
  import opened Bytes
  import opened Limits
  import opened Options
  import opened Budgets

  const MAX_RESPONSE_CHUNKS := 1024

  datatype Failure = ChannelFailure | RouteFailure

  datatype Outcome =
    | Reply(parts: seq<seq<byte>>, length: nat, charge: nat)
    | NoReply
    | TransportError(code: int)
    | Failed(failure: Failure)

  /** The bytes of the data frames received; `None` is a stream error. */
  function Flatten(frames: seq<Option<seq<byte>>>): seq<byte> {
    if |frames| == 0 then []
    else
      var last := frames[|frames| - 1];
      Flatten(frames[..|frames| - 1]) + if last.Some? then last.value else []
  }

  /** The four bytes read as a signed little-endian number. */
  function SignedCode(b: seq<byte>): int
    requires |b| == 4
  {
    var u := FromLe(b);
    if u >= 0x8000_0000 then u - 0x1_0000_0000 else u
  }

  class ReplyLane {
    const process: Budget
    var replyBytes: nat

    constructor (process: Budget)
      ensures this.process == process && replyBytes == 0
    {
      this.process := process;
      replyBytes := 0;
    }

    /** Both counters carry this charge on top of what they carried before. */
    twostate predicate Carries(new charge: Option<nat>)
      reads this, process
    {
      && replyBytes == old(replyBytes) + (if charge.Some? then charge.value else 0)
      && process.State() == old(process.State()).Plus(if charge.Some? then BudgetState(1, charge.value)
           else BudgetState(0, 0))
    }

    method ChargeReply(bytes: nat) returns (granted: bool)
      modifies this, process
      ensures Carries(if granted then Some(bytes) else None)
    {
      granted := process.TryAcquire(bytes);
      if granted && replyBytes + bytes > MAX_LANE_REPLY_BYTES {
        process.Release(bytes);
        granted := false;
      }
      if granted {
        replyBytes := replyBytes + bytes;
      }
    }

    method TryExtend(permit: BudgetPermit, more: nat) returns (extended: bool)
      requires permit.budget == process
      modifies this, process, permit
      ensures process.requests == old(process.requests)
      ensures var step := if extended then more else 0;
        && permit.bytes == old(permit.bytes) + step
        && replyBytes == old(replyBytes) + step && process.bytes == old(process.bytes) + step
    {
      extended := permit.TryExtendBytes(more);
      if extended && replyBytes + more > MAX_LANE_REPLY_BYTES {
        permit.ShrinkBytes(more);
        extended := false;
      }
      if extended {
        replyBytes := replyBytes + more;
      }
    }

    /** The lane's share goes first, then the process permit. */
    method DropCharge(bytes: nat)
      modifies this, process
      ensures replyBytes == SaturatingSub(old(replyBytes), bytes)
      ensures process.State() == old(process.State()).Minus(BudgetState(1, bytes))
    {
      replyBytes := if replyBytes < bytes then 0 else replyBytes - bytes;
      process.Release(bytes);
    }

    /** Grows the charge of a body of unknown length by one data frame, taking it out with the first. */
    method Grow(charge: Option<nat>, more: nat) returns (grown: Option<nat>)
      modifies this, process
      ensures grown.Some? ==>
        && grown.value == (if charge.Some? then charge.value else 0) + more
        && replyBytes == old(replyBytes) + more
        && process.State() == old(process.State()).Plus(BudgetState(if charge.Some? then 0 else 1, more))
      ensures grown.None? ==> replyBytes == old(replyBytes) && process.State() == old(process.State())
    {
      if charge.Some? {
        var permit := new BudgetPermit(process, charge.value);
        var extended := TryExtend(permit, more);
        return if extended then Some(permit.bytes) else None;
      }
      var granted := ChargeReply(more);
      return if granted then Some(more) else None;
    }

    /** A body whose length was declared: charged beforehand, gathered in one piece. */
    method ReadDeclared(declared: nat, frames: seq<Option<seq<byte>>>) returns (body: seq<byte>, failed: bool)
      requires declared <= MAX_PACKET
      ensures !failed ==> body == Flatten(frames) && |body| == declared && None !in frames
    {
      body, failed := [], true;
      var i := 0;
      while i < |frames|
        invariant i <= |frames| && body == Flatten(frames[..i]) && |body| <= declared && None !in frames[..i]
      {
        assert frames[..i + 1][..i] == frames[..i];
        if frames[i].None? || |body| + |frames[i].value| > MAX_PACKET || |body| + |frames[i].value| > declared {
          return;
        }
        body := body + frames[i].value;
        i := i + 1;
      }
      assert frames[..i] == frames;
      failed := |body| != declared;
    }

    /** A body of unknown length: kept in the pieces it came in, the charge growing with each. */
    method ReadChunks(frames: seq<Option<seq<byte>>>)
      returns (chunks: seq<seq<byte>>, received: nat, charge: Option<nat>, failure: Option<Failure>)
      modifies this, process
      ensures Carries(charge)
      ensures (if charge.Some? then charge.value else 0) <= received
      ensures failure.None? ==>
        && received == |Flatten(frames)| <= MAX_PACKET && Concat(chunks) == Flatten(frames) && None !in frames
        && |chunks| <= MAX_RESPONSE_CHUNKS && [] !in chunks
        && charge == if received == 0 then None else Some(received)
    {
      chunks, received, charge, failure := [], 0, None, None;
      var i := 0;
      while i < |frames|
        invariant i <= |frames| && received == |Flatten(frames[..i])| <= MAX_PACKET
        invariant Concat(chunks) == Flatten(frames[..i]) && None !in frames[..i] && [] !in chunks
        invariant |chunks| <= MAX_RESPONSE_CHUNKS
        invariant charge == if received == 0 then None else Some(received)
        invariant Carries(charge)
      {
        assert frames[..i + 1][..i] == frames[..i];
        if frames[i].None? || received + |frames[i].value| > MAX_PACKET {
          return chunks, received, charge, Some(RouteFailure);
        }
        var chunk := frames[i].value;
        if |chunk| > 0 {
          if |chunks| >= MAX_RESPONSE_CHUNKS {
            return chunks, received, charge, Some(RouteFailure);
          }
          var grown := Grow(charge, |chunk|);
          if grown.None? {
            return chunks, received, charge, Some(ChannelFailure);
          }
          charge := grown;
          ConcatAppend(chunks, chunk);
          chunks := chunks + [chunk];
        }
        received := received + |chunk|;
        i := i + 1;
      }
      assert frames[..i] == frames;
    }

    /** The checks after the body, and what becomes of the charge. */
    method Conclude(parts: seq<seq<byte>>, received: nat, charge: Option<nat>) returns (r: Outcome)
      requires |Concat(parts)| == received && (received > 0 ==> charge == Some(received))
      modifies this, process
      ensures r == Verdict(parts, charge)
      ensures r.Reply? ==> replyBytes == old(replyBytes) && process.State() == old(process.State())
      ensures !r.Reply? && charge.Some? ==>
        && replyBytes == SaturatingSub(old(replyBytes), charge.value)
        && process.State() == old(process.State()).Minus(BudgetState(1, charge.value))
      ensures !r.Reply? && charge.None? ==> replyBytes == old(replyBytes) && process.State() == old(process.State())
    {
      r := Verdict(parts, charge);
      if !r.Reply? && charge.Some? {
        DropCharge(charge.value);
      }
    }

    /** From the first data frame to the buffered reply. */
    method ReceiveBody(declared: Option<nat>, frames: seq<Option<seq<byte>>>) returns (r: Outcome)
      modifies this, process
      ensures r.Reply? ==>
        && r.charge == r.length == |Concat(r.parts)| && Concat(r.parts) == Flatten(frames) && None !in frames
        && 0 < r.length <= MAX_PACKET && r.length % 4 == 0
        && (declared.Some? ==> r.length == declared.value && |r.parts| == 1)
        && |r.parts| <= MAX_RESPONSE_CHUNKS
        && !(r.length == 4 && SignedCode(Flatten(frames)) < 0)
      ensures Carries(if r.Reply? then Some(r.charge) else None)
      ensures r.NoReply? ==> Flatten(frames) == []
      ensures r.TransportError? ==> |Flatten(frames)| == 4 && r.code == SignedCode(Flatten(frames)) < 0
    {
      if declared.Some? {
        if declared.value > MAX_PACKET {
          return Failed(RouteFailure);
        }
        var granted := ChargeReply(declared.value);
        if !granted {
          return Failed(ChannelFailure);
        }
        var body, failed := ReadDeclared(declared.value, frames);
        if failed {
          DropCharge(declared.value);
          return Failed(RouteFailure);
        }
        assert Concat([body]) == body + Concat([body][1..]) == body;
        r := Conclude([body], |body|, Some(|body|));
      } else {
        var chunks, received, charge, failure := ReadChunks(frames);
        if failure.Some? {
          if charge.Some? {
            DropCharge(charge.value);
          }
          return Failed(failure.value);
        }
        r := Conclude(chunks, received, charge);
      }
    }
  }

  function Verdict(parts: seq<seq<byte>>, charge: Option<nat>): Outcome {
    var body := Concat(parts);
    if |body| % 4 != 0 then Failed(RouteFailure)
    else if |body| == 4 && SignedCode(body) < 0 then TransportError(SignedCode(body))
    else if |body| == 0 then NoReply
    else Reply(parts, |body|, if charge.Some? then charge.value else 0)
  }

  // ---------------------------------------------------------------- telling replies apart

  const REPLY_ID_BYTES := 24

  datatype ReplyId = ReplyId(bytes: seq<byte>, length: nat)

  /** The first bytes of a reply, or all of it when it is shorter. */
  function PrefixOf(reply: seq<byte>): seq<byte> {
    reply[..Min(REPLY_ID_BYTES, |reply|)]
  }

  /** A block that holds the first bytes of the reply and zeros after them, and how many they are. */
  predicate Identifies(id: ReplyId, reply: seq<byte>) {
    && |id.bytes| == REPLY_ID_BYTES && id.length == |PrefixOf(reply)|
    && id.bytes[..id.length] == PrefixOf(reply)
    && forall k | id.length <= k < REPLY_ID_BYTES :: id.bytes[k] == 0
  }

  lemma PrefixOfConcat(parts: seq<seq<byte>>, i: nat)
    requires i <= |parts|
    ensures Concat(parts[..i]) <= Concat(parts)
  {
    if i > 0 {
      PrefixOfConcat(parts[1..], i - 1);
      assert parts[..i][1..] == parts[1..][..i - 1];
    }
  }

  lemma EmptyPrefix(parts: seq<seq<byte>>)
    ensures PrefixOf(Concat(parts[..0])) == []
  {
  }

  /** The next part adds as much of itself as there is room for. */
  lemma PrefixGrows(parts: seq<seq<byte>>, i: nat)
    requires i < |parts|
    ensures var (was, now) := (PrefixOf(Concat(parts[..i])), PrefixOf(Concat(parts[..i + 1])));
      |was| <= REPLY_ID_BYTES && now == was + parts[i][..Min(|parts[i]|, REPLY_ID_BYTES - |was|)]
  {
    ConcatAppend(parts[..i], parts[i]);
    assert parts[..i + 1] == parts[..i] + [parts[i]];
  }

  /** Once the block is full the parts left do not matter. */
  lemma FullPrefix(parts: seq<seq<byte>>, i: nat)
    requires i <= |parts| && |PrefixOf(Concat(parts[..i]))| == REPLY_ID_BYTES
    ensures PrefixOf(Concat(parts)) == PrefixOf(Concat(parts[..i]))
  {
    PrefixOfConcat(parts, i);
  }

  /** Gathers the id part by part, however the reply is divided. */
  method GatherReplyId(parts: seq<seq<byte>>) returns (id: ReplyId)
    ensures Identifies(id, Concat(parts))
  {
    hide Concat, PrefixOf;
    var bytes := new byte[REPLY_ID_BYTES](_ => 0);
    EmptyPrefix(parts);
    var i, length: nat := 0, 0;
    while i < |parts|
      invariant i <= |parts| && length == |PrefixOf(Concat(parts[..i]))| <= bytes.Length
      invariant bytes[..length] == PrefixOf(Concat(parts[..i]))
      invariant forall k | length <= k < REPLY_ID_BYTES :: bytes[k] == 0
    {
      var count := Min(|parts[i]|, bytes.Length - length);
      ghost var filled := bytes[..length];
      forall k | length <= k < length + count {
        bytes[k] := parts[i][k - length];
      }
      PrefixGrows(parts, i);
      assert bytes[..length + count] == filled + parts[i][..count];
      length := length + count;
      i := i + 1;
      if length == bytes.Length {
        FullPrefix(parts, i);
        return ReplyId(bytes[..], length);
      }
    }
    assert parts[..i] == parts;
    return ReplyId(bytes[..], length);
  }

  /** Ids are equal exactly when the replies begin with the same bytes, however each was divided. */
  lemma IdsTellPrefixes(a: ReplyId, b: ReplyId, one: seq<byte>, other: seq<byte>)
    requires Identifies(a, one) && Identifies(b, other)
    ensures a == b <==> PrefixOf(one) == PrefixOf(other)
  {
    if PrefixOf(one) == PrefixOf(other) {
      forall k | 0 <= k < REPLY_ID_BYTES ensures a.bytes[k] == b.bytes[k] {
        if k < a.length {
          assert a.bytes[k] == a.bytes[..a.length][k] == b.bytes[..b.length][k];
        }
      }
    }
  }
}
