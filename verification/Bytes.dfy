/** Bytes, and numbers written most significant byte first. */
module Bytes {
  type byte = n: int | 0 <= n < 256

  function Pow2(bits: nat): (p: nat)
    ensures p > 0
  {
    if bits == 0 then 1 else 2 * Pow2(bits - 1)
  }

  /** Exclusive or of the low bits of two numbers. */
  function XorBits(a: nat, b: nat, bits: nat): (r: nat)
    ensures r < Pow2(bits)
  {
    if bits == 0 then 0
    else 2 * XorBits(a / 2, b / 2, bits - 1) + if a % 2 == b % 2 then 0 else 1
  }

  lemma {:induction false} XorBitsTwice(a: nat, b: nat, bits: nat)
    requires a < Pow2(bits)
    ensures XorBits(XorBits(a, b, bits), b, bits) == a
  {
    if bits > 0 {
      XorBitsTwice(a / 2, b / 2, bits - 1);
    }
  }

  lemma EightBits()
    ensures Pow2(8) == 256
  {
    assert Pow2(4) == 16;
  }

  function Xor(a: byte, b: byte): byte {
    EightBits();
    XorBits(a, b, 8)
  }

  lemma XorTwice(a: byte, b: byte)
    ensures Xor(Xor(a, b), b) == a
  {
    EightBits();
    XorBitsTwice(a, b, 8);
  }

  function BigEndian(s: seq<byte>): nat {
    if s == [] then 0 else BigEndian(s[..|s| - 1]) * 256 + s[|s| - 1]
  }

  /** The low `count` bytes of a number. */
  function ToBigEndian(n: nat, count: nat): (s: seq<byte>)
    ensures |s| == count
  {
    if count == 0 then [] else ToBigEndian(n / 256, count - 1) + [n % 256]
  }

  function Pow256(count: nat): nat {
    if count == 0 then 1 else 256 * Pow256(count - 1)
  }

  lemma {:induction false} BigEndianBack(n: nat, count: nat)
    requires n < Pow256(count)
    ensures BigEndian(ToBigEndian(n, count)) == n
  {
    if count > 0 {
      BigEndianBack(n / 256, count - 1);
      var high := ToBigEndian(n / 256, count - 1);
      assert (high + [n % 256])[..count - 1] == high;
    }
  }

  /** A right shift by whole bytes. */
  function ShiftBytes(n: nat, count: nat): nat {
    if count == 0 then n else ShiftBytes(n / 256, count - 1)
  }

  lemma {:induction false} ToBigEndianAt(n: nat, count: nat, i: nat)
    requires i < count
    ensures ToBigEndian(n, count)[count - 1 - i] == ShiftBytes(n, i) % 256
  {
    if i > 0 {
      ToBigEndianAt(n / 256, count - 1, i - 1);
    }
  }
}
