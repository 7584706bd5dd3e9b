/**
 Exclusive-or on machine words, as the magazine exchange (tcpsplit/magazine.c) and the choice of a CPU
 for a flow (tcpsplit/qp.c) use it, and the packing of two words into one pointer (tcpsplit/qp.c).
 */
module Words {
  function Xor64(a: bv64, b: bv64): bv64 { a ^ b }

  function Xor32(a: bv32, b: bv32): bv32 { a ^ b }

  /** The three-XOR exchange is a swap, on every pair of 64-bit addresses ... */
  lemma XorExchange64(a: bv64, b: bv64)
    ensures Xor64(b, Xor64(a, b)) == a && Xor64(Xor64(a, b), a) == b
  {
  }

  /** ... and on every pair of 32-bit counts. */
  lemma XorExchange32(a: bv32, b: bv32)
    ensures Xor32(b, Xor32(a, b)) == a && Xor32(Xor32(a, b), a) == b
  {
  }

  lemma XorIs(a: bv32, b: bv32)
    ensures Xor32(a, b) == a ^ b
  {
  }

  lemma XorBoth(a: bv32, b: bv32, c: bv32, ab: bv32, ac: bv32)
    requires ab == a ^ b && ac == a ^ c
    ensures ab ^ c == ac ^ b
  {
  }

  lemma XorSwapLast32(a: bv32, b: bv32, c: bv32)
    ensures Xor32(Xor32(a, b), c) == Xor32(Xor32(a, c), b)
  {
    XorIs(a, b);
    XorIs(a, c);
    XorIs(Xor32(a, b), c);
    XorIs(Xor32(a, c), b);
    XorBoth(a, b, c, Xor32(a, b), Xor32(a, c));
  }

  lemma XorRegroup(a: bv32, b: bv32, c: bv32, d: bv32)
    ensures Xor32(Xor32(a, b), Xor32(c, d)) == Xor32(Xor32(a, c), Xor32(b, d))
  {
    XorIs(a, b);
    XorIs(c, d);
    XorIs(a, c);
    XorIs(b, d);
    XorIs(a ^ b, c ^ d);
    XorIs(a ^ c, b ^ d);
    assert (a ^ b) ^ (c ^ d) == (a ^ c) ^ (b ^ d);
  }

  function Uint2Void(a: bv32, b: bv32): bv64 { ((a as bv64) << 32) | (b as bv64) }

  function Void2Uint(p: bv64): (bv32, bv32) { (HighWord(p), LowWord(p)) }

  function HighWord(p: bv64): bv32 { (p >> 32) as bv32 }

  function LowWord(p: bv64): bv32 { ((p << 32) >> 32) as bv32 }

  /** Packing and unpacking are inverse to each other, so a pair of words and a pointer carry the same. */
  lemma VoidRoundTrip(a: bv32, b: bv32, p: bv64)
    ensures Void2Uint(Uint2Void(a, b)) == (a, b)
    ensures Uint2Void(Void2Uint(p).0, Void2Uint(p).1) == p
  {
    HighBack(a, b);
    LowBack(a, b);
    BothBack(p);
  }

  /** The first word is the high half of the pointer, the second the low half. */
  lemma VoidHalves(a: bv32, b: bv32)
    ensures Uint2Void(a, b) == (a as bv64) * 0x1_0000_0000 + b as bv64
  {
    assert ((a as bv64) << 32) | (b as bv64) == (a as bv64) * 0x1_0000_0000 + b as bv64;
  }

  lemma HighBack(a: bv32, b: bv32)
    ensures HighWord(Uint2Void(a, b)) == a
  {
    assert ((((a as bv64) << 32) | (b as bv64)) >> 32) as bv32 == a;
  }

  lemma LowBack(a: bv32, b: bv32)
    ensures LowWord(Uint2Void(a, b)) == b
  {
    assert (((((a as bv64) << 32) | (b as bv64)) << 32) >> 32) as bv32 == b;
  }

  lemma BothBack(p: bv64)
    ensures Uint2Void(HighWord(p), LowWord(p)) == p
  {
    assert ((((p >> 32) as bv32) as bv64) << 32) | ((((p << 32) >> 32) as bv32) as bv64) == p;
  }
}
