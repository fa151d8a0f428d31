/** Bytes, exclusive-or, and keystreams that remember only a position. */
module Bytes {

  type byte = x: int | 0 <= x < 256

  /** A stream cipher seen from outside: which byte the key yields at each position. */
  type Keystream = nat -> byte

  function XorBits(n: nat, a: nat, b: nat): nat {
    if n == 0 then 0 else (a + b) % 2 + 2 * XorBits(n - 1, a / 2, b / 2)
  }

  lemma XorBitsBelow(n: nat, a: nat, b: nat)
    ensures XorBits(n, a, b) < Pow2(n)
  {
    if n > 0 {
      XorBitsBelow(n - 1, a / 2, b / 2);
    }
  }

  lemma Parity(x: nat, a: nat, b: nat)
    requires x % 2 == (a + b) % 2
    ensures (x + b) % 2 == a % 2
  {
  }

  lemma XorBitsStep(n: nat, a: nat, b: nat)
    requires n > 0
    ensures XorBits(n, a, b) / 2 == XorBits(n - 1, a / 2, b / 2) && XorBits(n, a, b) % 2 == (a + b) % 2
  {
  }

  lemma {:induction false} XorBitsTwice(n: nat, a: nat, b: nat)
    requires a < Pow2(n)
    ensures XorBits(n, XorBits(n, a, b), b) == a
  {
    if n > 0 {
      var x := XorBits(n, a, b);
      XorBitsStep(n, a, b);
      XorBitsTwice(n - 1, a / 2, b / 2);
      Parity(x, a, b);
      assert XorBits(n, x, b) == (x + b) % 2 + 2 * XorBits(n - 1, x / 2, b / 2);
    }
  }

  function Pow2(n: nat): nat {
    if n == 0 then 1 else 2 * Pow2(n - 1)
  }

  function Xor(a: byte, b: byte): byte {
    XorBitsBelow(8, a, b);
    assert Pow2(8) == 256 by { assert Pow2(4) == 16; }
    XorBits(8, a, b)
  }

  lemma XorInvolutive(a: byte, b: byte)
    ensures Xor(Xor(a, b), b) == a
  {
    assert Pow2(8) == 256 by { assert Pow2(4) == 16; }
    XorBitsTwice(8, a, b);
  }

  /** `data` combined with the keystream from position `pos` on. */
  function Crypt(data: seq<byte>, ks: Keystream, pos: nat): (r: seq<byte>)
    ensures |r| == |data|
  {
    seq(|data|, i requires 0 <= i < |data| => Xor(data[i], ks(pos + i)))
  }

  lemma CryptConcat(a: seq<byte>, b: seq<byte>, ks: Keystream, pos: nat)
    ensures Crypt(a + b, ks, pos) == Crypt(a, ks, pos) + Crypt(b, ks, pos + |a|)
  {
  }

  lemma CryptInvolutive(data: seq<byte>, ks: Keystream, pos: nat)
    ensures Crypt(Crypt(data, ks, pos), ks, pos) == data
  {
    forall i | 0 <= i < |data| ensures Crypt(Crypt(data, ks, pos), ks, pos)[i] == data[i] {
      XorInvolutive(data[i], ks(pos + i));
    }
  }

  /** Decrypting under one stream and encrypting under another, each at its own position. */
  function Recrypt(data: seq<byte>, from: Keystream, fromPos: nat, to: Keystream, toPos: nat): (r: seq<byte>)
    ensures |r| == |data|
  {
    Crypt(Crypt(data, from, fromPos), to, toPos)
  }

  lemma RecryptConcat(a: seq<byte>, b: seq<byte>, from: Keystream, fromPos: nat, to: Keystream, toPos: nat)
    ensures Recrypt(a + b, from, fromPos, to, toPos)
         == Recrypt(a, from, fromPos, to, toPos) + Recrypt(b, from, fromPos + |a|, to, toPos + |a|)
  {
    CryptConcat(a, b, from, fromPos);
    CryptConcat(Crypt(a, from, fromPos), Crypt(b, from, fromPos + |a|), to, toPos);
  }

  function Concat(parts: seq<seq<byte>>): seq<byte> {
    if |parts| == 0 then [] else parts[0] + Concat(parts[1..])
  }

  lemma ConcatFirst(first: seq<byte>, rest: seq<seq<byte>>)
    ensures Concat([first] + rest) == first + Concat(rest)
  {
    assert ([first] + rest)[1..] == rest;
  }

  lemma ConcatAppend(parts: seq<seq<byte>>, last: seq<byte>)
    ensures Concat(parts + [last]) == Concat(parts) + last
  {
    if |parts| == 0 {
      assert parts + [last] == [last];
      assert [last][1..] == [];
    } else {
      ConcatAppend(parts[1..], last);
      assert (parts + [last])[1..] == parts[1..] + [last];
    }
  }

  lemma {:induction false} ConcatSplit(parts: seq<seq<byte>>, i: nat)
    requires i <= |parts|
    ensures Concat(parts) == Concat(parts[..i]) + Concat(parts[i..])
  {
    if i == 0 {
      assert parts[i..] == parts;
    } else {
      ConcatSplit(parts[1..], i - 1);
      assert parts[1..][..i - 1] == parts[..i][1..] && parts[1..][i - 1..] == parts[i..];
    }
  }

  function FromLe(b: seq<byte>): nat {
    if |b| == 0 then 0 else (b[0] as int) + 256 * FromLe(b[1..])
  }

  /** The `k` lowest bytes of `n`, lowest first. */
  function ToLe(n: nat, k: nat): (b: seq<byte>)
    ensures |b| == k
  {
    if k == 0 then [] else [n % 256] + ToLe(n / 256, k - 1)
  }

  function Reverse(b: seq<byte>): (r: seq<byte>)
    ensures |r| == |b|
  {
    seq(|b|, i requires 0 <= i < |b| => b[|b| - 1 - i])
  }

  function ToBe(n: nat, k: nat): (b: seq<byte>)
    ensures |b| == k
  {
    Reverse(ToLe(n, k))
  }

  function FromBe(b: seq<byte>): nat {
    FromLe(Reverse(b))
  }

  function Pow256(k: nat): (p: nat)
    ensures p > 0
  {
    if k == 0 then 1 else 256 * Pow256(k - 1)
  }

  lemma {:induction false} LeRoundTrip(n: nat, k: nat)
    requires n < Pow256(k)
    ensures FromLe(ToLe(n, k)) == n
  {
    if k > 0 {
      assert n / 256 < Pow256(k - 1);
      LeRoundTrip(n / 256, k - 1);
      assert ToLe(n, k)[1..] == ToLe(n / 256, k - 1);
    }
  }

  lemma {:induction false} LeInverse(b: seq<byte>)
    ensures FromLe(b) < Pow256(|b|) && ToLe(FromLe(b), |b|) == b
  {
    if |b| > 0 {
      LeInverse(b[1..]);
      assert FromLe(b) / 256 == FromLe(b[1..]) && FromLe(b) % 256 == b[0];
    }
  }

  lemma ReverseTwice(b: seq<byte>)
    ensures Reverse(Reverse(b)) == b
  {
  }

  lemma BeRoundTrip(n: nat, k: nat)
    requires n < Pow256(k)
    ensures FromBe(ToBe(n, k)) == n
  {
    LeRoundTrip(n, k);
    ReverseTwice(ToLe(n, k));
  }

  lemma BeInverse(b: seq<byte>)
    ensures FromBe(b) < Pow256(|b|) && ToBe(FromBe(b), |b|) == b
  {
    LeInverse(Reverse(b));
    ReverseTwice(b);
  }

  function Min(a: int, b: int): int { if a < b then a else b }

  lemma Associate<T>(a: seq<T>, b: seq<T>, c: seq<T>)
    ensures a + b + c == a + (b + c)
  {
  }

  lemma HeadAndTail<T>(s: seq<T>, rest: seq<T>)
    requires |s| > 0
    ensures s + rest == [s[0]] + (s[1..] + rest)
  {
  }

  /** The cipher state a direction of a connection keeps. */
  class AesCtr {
    const keystream: Keystream
    var position: nat

    constructor (keystream: Keystream, position: nat)
      ensures this.keystream == keystream && this.position == position
    {
      this.keystream := keystream;
      this.position := position;
    }

    /** Transforms `buffer[lo..hi]` in place and moves on by as many positions. */
    method ApplyKeystream(buffer: array<byte>, lo: nat, hi: nat)
      requires lo <= hi <= buffer.Length
      modifies this`position, buffer
      ensures position == old(position) + (hi - lo)
      ensures buffer[..lo] == old(buffer[..lo]) && buffer[hi..] == old(buffer[hi..])
      ensures buffer[lo..hi] == Crypt(old(buffer[lo..hi]), keystream, old(position))
    {
      var i := lo;
      while i < hi
        invariant lo <= i <= hi
        invariant position == old(position) + (i - lo)
        invariant forall k :: 0 <= k < lo || i <= k < buffer.Length ==> buffer[k] == old(buffer[k])
        invariant forall k :: lo <= k < i ==> buffer[k] == Xor(old(buffer[k]), keystream(old(position) + (k - lo)))
      {
        buffer[i] := Xor(buffer[i], keystream(position));
        position := position + 1;
        i := i + 1;
      }
    }
  }
}
