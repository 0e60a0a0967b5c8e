/**
 The 64-bit FNV-1a hash that both `protocol.ContentKey` and `clip.hashContent` feed
 (section 2 of draft-eastlake-fnv), and the facts about it on which loop protection rests.
 Words are integers below 2^64, so the wrap-around of every multiplication is explicit.
 */
module Fnv {
  import opened Prelude

  type Word = x: int | 0 <= x < 0x1_0000_0000_0000_0000

  const WORDS: nat := 0x1_0000_0000_0000_0000
  const PRIME: nat := 1099511628211
  const INVERSE: nat := 0xce965057aff6957b
  const OFFSET_BASIS: Word := 14695981039346656037

  /** Bitwise exclusive or of the lowest n bits. */
  function Xor(a: nat, b: nat, n: nat): nat
    decreases n, a, b, 0
  {
    if n == 0 then 0 else XorFirst(a, b, n)
  }

  function XorFirst(a: nat, b: nat, n: nat): nat
    requires n > 0
    decreases n - 1, a, b, 1
  {
    (if a % 2 == b % 2 then 0 else 1) + 2 * Xor(a / 2, b / 2, n - 1)
  }

  function Pow2(n: nat): nat {
    if n == 0 then 1 else 2 * Pow2(n - 1)
  }

  lemma {:induction false} XorUndone(a: nat, b: nat, n: nat)
    requires a < Pow2(n) && b < Pow2(n)
    ensures Xor(a, b, n) < Pow2(n)
    ensures Xor(Xor(a, b, n), b, n) == a
    ensures Xor(a, Xor(a, b, n), n) == b
  {
    if n != 0 {
      XorUndone(a / 2, b / 2, n - 1);
      assert Xor(a, b, n) / 2 == Xor(a / 2, b / 2, n - 1);
    }
  }

  lemma Pow2Is256()
    ensures Pow2(8) == 256
  {
    assert Pow2(4) == 16;
  }

  /** The lowest n bits of a number, which is what an n-bit register keeps of it. */
  function Low(x: nat, n: nat): nat
    decreases n, x, 0
  {
    if n == 0 then 0 else LowFirst(x, n)
  }

  function LowFirst(x: nat, n: nat): nat
    requires n > 0
    decreases n - 1, x, 1
  {
    x % 2 + 2 * Low(x / 2, n - 1)
  }

  lemma {:induction false} LowBits(x: nat, n: nat) returns (high: nat)
    ensures x == high * Pow2(n) + Low(x, n) && Low(x, n) < Pow2(n)
  {
    if n == 0 {
      high := x;
    } else {
      high := LowBits(x / 2, n - 1);
      assert high * Pow2(n) == 2 * (high * Pow2(n - 1));
    }
  }

  lemma Wraps(x: Word, k: int)
    ensures (x + k * WORDS) % WORDS == x
  {
  }

  lemma {:induction false} Pow2Sum(m: nat, n: nat)
    ensures Pow2(m + n) == Pow2(m) * Pow2(n)
  {
    if m > 0 {
      Pow2Sum(m - 1, n);
      calc {
        Pow2(m + n);
        2 * Pow2(m - 1 + n);
        2 * (Pow2(m - 1) * Pow2(n));
        Pow2(m) * Pow2(n);
      }
    }
  }

  lemma Pow2Is2To64()
    ensures Pow2(64) == WORDS
  {
    Pow2Is256();
    Pow2Sum(8, 8);
    Pow2Sum(16, 16);
    Pow2Sum(32, 32);
  }

  lemma Remainder(x: nat, high: nat, low: nat)
    requires x == high * Pow2(64) + low && low < Pow2(64)
    ensures low == x % WORDS
  {
    Pow2Is2To64();
    Wraps(low, high);
  }

  /** A 64-bit register wraps around modulo 2^64. */
  lemma LowIsMod(x: nat)
    ensures Low(x, 64) == x % WORDS
  {
    var high := LowBits(x, 64);
    Remainder(x, high, Low(x, 64));
  }

  /** `h ^ b` */
  function XorByte(h: Word, b: Byte): Word {
    Pow2Is2To64();
    XorUndone(h, b, 64);
    Xor(h, b, 64)
  }

  /** One round: xor the byte in, then multiply by the FNV prime in a 64-bit register. */
  function Mix(h: Word, b: Byte): Word {
    LowIsMod(XorByte(h, b) * PRIME);
    Low(XorByte(h, b) * PRIME, 64)
  }

  lemma MixWraps(h: Word, b: Byte)
    ensures Mix(h, b) == XorByte(h, b) * PRIME % WORDS
  {
    LowIsMod(XorByte(h, b) * PRIME);
  }

  function Sum(h: Word, data: Bytes): Word
    decreases |data|
  {
    if data == [] then h else Mix(Sum(h, data[..|data| - 1]), data[|data| - 1])
  }

  /** The running hasher: `Write` absorbs bytes one at a time. */
  class Hasher {
    var sum: Word

    constructor ()
      ensures sum == OFFSET_BASIS
    {
      sum := OFFSET_BASIS;
    }

    method Write(data: Bytes)
      modifies this
      ensures sum == Sum(old(sum), data)
    {
      assert data[..0] == [];
      for i := 0 to |data|
        invariant sum == Sum(old(sum), data[..i])
      {
        assert data[..i + 1] == data[..i] + [data[i]];
        sum := Mix(sum, data[i]);
      }
      assert data[..|data|] == data;
    }
  }

  /** The prime is odd, so multiplying by it modulo 2^64 is undone by multiplying by its inverse. */
  lemma MulUndone(x: Word)
    ensures (((x * PRIME) % WORDS) * INVERSE) % WORDS == x
  {
    var k, j := x * PRIME / WORDS, PRIME * INVERSE / WORDS;
    assert PRIME * INVERSE == 1 + j * WORDS;
    calc {
      ((x * PRIME) % WORDS) * INVERSE;
      (x * PRIME - k * WORDS) * INVERSE;
      x * (PRIME * INVERSE) - k * WORDS * INVERSE;
      x + (x * j - k * INVERSE) * WORDS;
    }
    Wraps(x, x * j - k * INVERSE);
  }

  /** One round loses nothing: it separates states, and it separates bytes. */
  lemma MixInjective(g: Word, h: Word, a: Byte, b: Byte)
    requires Mix(g, a) == Mix(h, b)
    ensures g == h <==> a == b
  {
    MixWraps(g, a);
    MixWraps(h, b);
    MulUndone(XorByte(g, a));
    MulUndone(XorByte(h, b));
    Pow2Is2To64();
    XorUndone(g, a, 64);
    XorUndone(h, b, 64);
  }

  lemma {:induction false} SumConcat(h: Word, s: Bytes, t: Bytes)
    ensures Sum(h, s + t) == Sum(Sum(h, s), t)
    decreases |t|
  {
    if t == [] {
      assert s + t == s;
    } else {
      var init := t[..|t| - 1];
      assert (s + t)[..|s + t| - 1] == s + init;
      SumConcat(h, s, init);
    }
  }

  /** Absorbing the same bytes keeps states apart exactly when they were apart. */
  lemma {:induction false} SumSeparates(g: Word, h: Word, s: Bytes)
    ensures Sum(g, s) == Sum(h, s) <==> g == h
    decreases |s|
  {
    if s != [] {
      var init, last := s[..|s| - 1], s[|s| - 1];
      SumSeparates(g, h, init);
      if Sum(g, s) == Sum(h, s) {
        MixInjective(Sum(g, init), Sum(h, init), last, last);
      }
    }
  }

  /** Inputs that agree except perhaps in one byte hash alike only if they agree there too. */
  lemma OneByteApart(h: Word, pre: Bytes, a: Byte, b: Byte, post: Bytes)
    ensures Sum(h, pre + [a] + post) == Sum(h, pre + [b] + post) <==> a == b
  {
    SumConcat(h, pre + [a], post);
    SumConcat(h, pre + [b], post);
    SumConcat(h, pre, [a]);
    SumConcat(h, pre, [b]);
    var g := Sum(h, pre);
    SumSeparates(Mix(g, a), Mix(g, b), post);
    assert Sum(g, [a]) == Mix(g, a) && Sum(g, [b]) == Mix(g, b);
    if Mix(g, a) == Mix(g, b) {
      MixInjective(g, g, a, b);
    }
  }
}
