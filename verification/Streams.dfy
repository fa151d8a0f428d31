/** Byte streams as the asynchronous code meets them: a read or a write moves as much as it likes. */
module Streams {
  import opened Bytes

  /** A buffer that holds the start of a stream from `lo` on, and then more of it. */
  lemma FilledFurther(was: seq<byte>, buffer: seq<byte>, lo: nat, at: nat, next: nat, hi: nat, stream: seq<byte>)
    requires lo <= at <= next <= hi <= |was| == |buffer| && next - lo <= |stream|
    requires was[lo..at] == stream[..at - lo] && buffer[at..next] == stream[at - lo..][..next - at]
    requires buffer[..at] == was[..at] && buffer[next..] == was[next..]
    ensures buffer[lo..next] == stream[..next - lo] && stream[at - lo..][next - at..] == stream[next - lo..]
    ensures buffer[..lo] == was[..lo] && buffer[hi..] == was[hi..]
  {
    assert buffer[lo..at] == buffer[..at][lo..] == was[lo..at];
    assert buffer[lo..next] == buffer[lo..at] + buffer[at..next];
    assert buffer[..lo] == buffer[..at][..lo] && was[..lo] == was[..at][..lo];
    assert buffer[hi..] == buffer[next..][hi - next..] && was[hi..] == was[next..][hi - next..];
  }

  class Source {
    const input: seq<byte>
    var taken: nat

    constructor (input: seq<byte>)
      ensures Valid() && this.input == input && Left() == input
    {
      this.input := input;
      taken := 0;
    }

    predicate Valid()
      reads this
    {
      taken <= |input|
    }

    /** What has not been read yet. */
    function Left(): seq<byte>
      requires Valid()
      reads this
    {
      input[taken..]
    }

    /** Reads some bytes into `buffer[lo..hi]`; zero only at the end or for an empty range. */
    method Read(buffer: array<byte>, lo: nat, hi: nat) returns (n: nat)
      requires Valid() && lo <= hi <= buffer.Length
      modifies this`taken, buffer
      ensures Valid() && n <= hi - lo && n <= |old(Left())|
      ensures n == 0 <==> lo == hi || |old(Left())| == 0
      ensures Left() == old(Left())[n..]
      ensures buffer[lo..lo + n] == old(Left())[..n]
      ensures buffer[..lo] == old(buffer[..lo]) && buffer[lo + n..] == old(buffer[lo + n..])
    {
      if lo == hi || taken == |input| {
        return 0;
      }
      var k: nat :| 1 <= k <= hi - lo && k <= |input| - taken;
      n := 0;
      while n < k
        invariant n <= k && taken == old(taken)
        invariant forall i | lo <= i < lo + n :: buffer[i] == input[taken + (i - lo)]
        invariant forall i | 0 <= i < lo || lo + n <= i < buffer.Length :: buffer[i] == old(buffer[i])
      {
        buffer[lo + n] := input[taken + n];
        n := n + 1;
      }
      assert buffer[lo..lo + n] == old(Left())[..n];
      assert buffer[..lo] == old(buffer[..lo]) && buffer[lo + n..] == old(buffer[lo + n..]);
      taken := taken + k;
      assert Left() == old(Left())[n..];
    }

    /** Fills `buffer[lo..hi]`, or meets the end of the stream first. */
    method ReadExact(buffer: array<byte>, lo: nat, hi: nat) returns (filled: bool)
      requires Valid() && lo <= hi <= buffer.Length
      modifies this`taken, buffer
      ensures Valid()
      ensures filled <==> |old(Left())| >= hi - lo
      ensures buffer[..lo] == old(buffer[..lo]) && buffer[hi..] == old(buffer[hi..])
      ensures filled ==> buffer[lo..hi] == old(Left())[..hi - lo] && Left() == old(Left())[hi - lo..]
    {
      ghost var stream, start := Left(), buffer[..];
      var at := lo;
      while at < hi
        invariant Valid() && lo <= at <= hi && at - lo <= |stream|
        invariant Left() == stream[at - lo..]
        invariant buffer[lo..at] == stream[..at - lo]
        invariant buffer[..lo] == start[..lo] && buffer[hi..] == start[hi..]
        decreases hi - at
      {
        ghost var was := buffer[..];
        var n := Read(buffer, at, hi);
        if n == 0 {
          return false;
        }
        FilledFurther(was, buffer[..], lo, at, at + n, hi, stream);
        at := at + n;
      }
      return true;
    }
  }

  class Sink {
    var wire: seq<byte>

    constructor ()
      ensures wire == []
    {
      wire := [];
    }

    /** Writes some prefix of the data, perhaps none of it. */
    method Write(data: seq<byte>) returns (n: nat)
      modifies this
      ensures n <= |data| && wire == old(wire) + data[..n]
    {
      n :| n <= |data|;
      wire := wire + data[..n];
    }

    /** Writes everything piece by piece; a write that makes no progress is an error. */
    method WriteAll(data: seq<byte>) returns (ok: bool)
      modifies this
      ensures ok ==> wire == old(wire) + data
      ensures exists n: nat :: n <= |data| && wire == old(wire) + data[..n]
    {
      var at: nat := 0;
      while at < |data|
        invariant at <= |data| && wire == old(wire) + data[..at]
      {
        var n := Write(data[at..]);
        assert data[..at] + data[at..][..n] == data[..at + n];
        if n == 0 {
          return false;
        }
        at := at + n;
      }
      return true;
    }
  }
}
