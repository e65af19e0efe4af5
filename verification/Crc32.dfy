/**
 * CRC-32 of user/vpipe-common.c: a table filled by `vpipe_crc32_init` and a byte loop in
 * `vpipe_crc32`. The reference is the reflected bit-at-a-time division by 0xedb88320 of
 * section 8 of RFC 1952; the kernel's `~crc32_le(~0, ...)` is taken to be that definition.
 *
 * A 32-bit word is written as its 32 bits, least significant first.
 */
module Crc32 {
  import opened Base

  type Bits = seq<bool>
  type Word = w: Bits | |w| == 32 witness seq(32, _ => false)

  // ---- C's operations on words ----

  function Zeros(n: nat): (r: Bits)
    ensures |r| == n && forall i :: 0 <= i < n ==> !r[i]
  {
    seq(n, _ => false)
  }

  /** `a ^ b` */
  function Xor(a: Bits, b: Bits): (r: Bits)
    requires |a| == |b|
    ensures |r| == |a| && forall i :: 0 <= i < |a| ==> r[i] == (a[i] != b[i])
  {
    seq(|a|, i requires 0 <= i < |a| => a[i] != b[i])
  }

  /** `~a` */
  function Not(a: Bits): (r: Bits)
    ensures |r| == |a| && forall i :: 0 <= i < |a| ==> r[i] == !a[i]
  {
    seq(|a|, i requires 0 <= i < |a| => !a[i])
  }

  /** `a >> k` */
  function Shr(a: Word, k: nat): Word
    requires k <= 32
  {
    a[k..] + Zeros(k)
  }

  /** The `n` low bits of a number. */
  function NatBits(b: nat, n: nat): (bits: Bits)
    ensures |bits| == n
  {
    if n == 0 then [] else [b % 2 == 1] + NatBits(b / 2, n - 1)
  }

  /** The number written by `bits`. */
  function NatOf(bits: Bits): nat {
    if bits == [] then 0 else (if bits[0] then 1 else 0) + 2 * NatOf(bits[1..])
  }

  function Pow2(n: nat): nat { if n == 0 then 1 else 2 * Pow2(n - 1) }

  /** Zero extension of up to 32 bits to a word. */
  function Pad(bits: Bits): Word
    requires |bits| <= 32
  {
    bits + Zeros(32 - |bits|)
  }

  function ByteWord(b: u8): Word { Pad(NatBits(b, 8)) }

  function Nibble(d: nat): (r: Bits)
    requires d < 16
    ensures |r| == 4
  {
    NatBits(d, 4)
  }

  /** 0xedb88320, low hexadecimal digit first. */
  const POLY: Word :=
    Nibble(0x0) + Nibble(0x2) + Nibble(0x3) + Nibble(0x8) + Nibble(0x8) + Nibble(0xb) + Nibble(0xd) + Nibble(0xe)

  const ONES: Word := Not(Zeros(32))

  // ---- reference definition: one message bit at a time, low bit of each byte first ----

  /** One step of the division register. */
  function Shift(c: Word): Word {
    if c[0] then Xor(POLY, Shr(c, 1)) else Shr(c, 1)
  }

  function FeedBits(s: Word, bits: Bits): Word
    decreases |bits|
  {
    if bits == [] then s else FeedBits(Shift(s[0 := s[0] != bits[0]]), bits[1..])
  }

  function MessageBits(data: seq<u8>): (bits: Bits)
    ensures |bits| == 8 * |data|
  {
    if data == [] then [] else NatBits(data[0], 8) + MessageBits(data[1..])
  }

  /** CRC-32 as RFC 1952 defines it: complement, divide bit by bit, complement. */
  function BitwiseCrc(data: seq<u8>): Word {
    Not(FeedBits(ONES, MessageBits(data)))
  }

  // ---- numbers and bits are in bijection ----

  lemma {:induction false} NatOfBits(b: nat, n: nat)
    requires b < Pow2(n)
    ensures NatOf(NatBits(b, n)) == b
  {
    if n > 0 {
      NatOfBits(b / 2, n - 1);
      assert NatBits(b, n)[1..] == NatBits(b / 2, n - 1);
    }
  }

  lemma {:induction false} BitsOfNat(bits: Bits)
    ensures NatOf(bits) < Pow2(|bits|) && NatBits(NatOf(bits), |bits|) == bits
  {
    if bits != [] {
      BitsOfNat(bits[1..]);
      assert bits == [bits[0]] + bits[1..];
    }
  }

  lemma Pow8()
    ensures Pow2(8) == 256
  {
    assert Pow2(4) == 16;
    assert Pow2(6) == 64;
  }

  /** The top coefficient of the divisor is set. */
  lemma PolyTop()
    ensures POLY[31]
  {
    assert POLY[31] == Nibble(0xe)[3];
    assert Nibble(0xe) == [false] + NatBits(7, 3);
    assert NatBits(7, 3) == [true] + NatBits(3, 2);
  }

  // ---- linearity and invertibility of the register ----

  lemma ShiftXor(a: Word, b: Word)
    ensures Shift(Xor(a, b)) == Xor(Shift(a), Shift(b))
  {
    assert Shr(Xor(a, b), 1) == Xor(Shr(a, 1), Shr(b, 1));
    assert Shift(Xor(a, b)) == Xor(Shift(a), Shift(b));
  }

  lemma ShiftInjective(a: Word, b: Word)
    requires Shift(a) == Shift(b)
    ensures a == b
  {
    PolyTop();
    assert Shift(a)[31] == a[0] && Shift(b)[31] == b[0];
    forall i | 1 <= i < 32
      ensures a[i] == b[i]
    {
      assert Shift(a)[i - 1] == (a[i] != (a[0] && POLY[i - 1]));
      assert Shift(b)[i - 1] == (b[i] != (b[0] && POLY[i - 1]));
    }
  }

  function ShiftN(c: Word, n: nat): Word
    decreases n
  {
    if n == 0 then c else ShiftN(Shift(c), n - 1)
  }

  lemma {:induction false} ShiftNXor(a: Word, b: Word, n: nat)
    ensures ShiftN(Xor(a, b), n) == Xor(ShiftN(a, n), ShiftN(b, n))
    decreases n
  {
    if n > 0 {
      ShiftXor(a, b);
      ShiftNXor(Shift(a), Shift(b), n - 1);
    }
  }

  lemma {:induction false} ShiftNInjective(a: Word, b: Word, n: nat)
    requires ShiftN(a, n) == ShiftN(b, n)
    ensures a == b
    decreases n
  {
    if n > 0 {
      ShiftNInjective(Shift(a), Shift(b), n - 1);
      ShiftInjective(a, b);
    }
  }

  /** Feeding up to 32 bits is one xor followed by that many register steps. */
  lemma {:induction false} FeedIsXorShift(s: Word, bits: Bits)
    requires |bits| <= 32
    ensures FeedBits(s, bits) == ShiftN(Xor(s, Pad(bits)), |bits|)
    decreases |bits|
  {
    if bits == [] {
      assert Xor(s, Pad(bits)) == s;
    } else {
      var s' := s[0 := s[0] != bits[0]];
      var rest := Pad(bits[1..]);
      var shifted: Word := [false] + rest[..31];
      FeedIsXorShift(Shift(s'), bits[1..]);
      assert Xor(s, Pad(bits)) == Xor(s', shifted);
      ShiftXor(s', shifted);
      assert Shift(shifted) == rest;
    }
  }

  // ---- burst detection ----

  /** From one register value, different messages of at most 32 bits lead to different registers. */
  lemma WindowInjective(s: Word, a: Bits, b: Bits)
    requires |a| == |b| <= 32 && FeedBits(s, a) == FeedBits(s, b)
    ensures a == b
  {
    FeedIsXorShift(s, a);
    FeedIsXorShift(s, b);
    ShiftNInjective(Xor(s, Pad(a)), Xor(s, Pad(b)), |a|);
    forall i | 0 <= i < |a|
      ensures a[i] == b[i]
    {
      assert Xor(s, Pad(a))[i] == (s[i] != a[i]) && Xor(s, Pad(b))[i] == (s[i] != b[i]);
    }
  }

  /** Different registers stay different under any common continuation. */
  lemma {:induction false} SuffixInjective(s: Word, t: Word, bits: Bits)
    requires FeedBits(s, bits) == FeedBits(t, bits)
    ensures s == t
    decreases |bits|
  {
    if bits != [] {
      var s', t' := s[0 := s[0] != bits[0]], t[0 := t[0] != bits[0]];
      SuffixInjective(Shift(s'), Shift(t'), bits[1..]);
      ShiftInjective(s', t');
      forall i | 0 <= i < 32
        ensures s[i] == t[i]
      {
        assert s'[i] == t'[i];
      }
    }
  }

  lemma {:induction false} FeedConcat(s: Word, a: Bits, b: Bits)
    ensures FeedBits(s, a + b) == FeedBits(FeedBits(s, a), b)
    decreases |a|
  {
    if a == [] {
      assert a + b == b;
    } else {
      assert (a + b)[1..] == a[1..] + b;
      FeedConcat(Shift(s[0 := s[0] != a[0]]), a[1..], b);
    }
  }

  lemma {:induction false} MessageConcat(a: seq<u8>, b: seq<u8>)
    ensures MessageBits(a + b) == MessageBits(a) + MessageBits(b)
  {
    if a == [] {
      assert a + b == b;
    } else {
      assert (a + b)[1..] == a[1..] + b;
      MessageConcat(a[1..], b);
    }
  }

  lemma {:induction false} MessageInjective(a: seq<u8>, b: seq<u8>)
    requires |a| == |b| && MessageBits(a) == MessageBits(b)
    ensures a == b
  {
    if a != [] {
      var x, y := MessageBits(a), MessageBits(b);
      assert x[..8] == NatBits(a[0], 8) && y[..8] == NatBits(b[0], 8);
      assert x[8..] == MessageBits(a[1..]) && y[8..] == MessageBits(b[1..]);
      MessageInjective(a[1..], b[1..]);
      Pow8();
      NatOfBits(a[0], 8);
      NatOfBits(b[0], 8);
      assert a == [a[0]] + a[1..] && b == [b[0]] + b[1..];
    }
  }

  lemma FeedThreeParts(s: Word, x: Bits, i: nat, n: nat)
    requires i + n <= |x|
    ensures FeedBits(s, x) == FeedBits(FeedBits(FeedBits(s, x[..i]), x[i..i + n]), x[i + n..])
  {
    assert x == x[..i + n] + x[i + n..] && x[..i + n] == x[..i] + x[i..i + n];
    FeedConcat(s, x[..i + n], x[i + n..]);
    FeedConcat(s, x[..i], x[i..i + n]);
  }

  /**
   * Burst detection, at bit granularity: two different messages of one length that agree
   * outside some 32 consecutive bits (not necessarily byte aligned) have different CRCs.
   */
  lemma BurstDetected(a: seq<u8>, b: seq<u8>, i: nat, n: nat)
    requires |a| == |b| && a != b
    requires n <= 32 && i + n <= 8 * |a|
    requires MessageBits(a)[..i] == MessageBits(b)[..i] && MessageBits(a)[i + n..] == MessageBits(b)[i + n..]
    ensures BitwiseCrc(a) != BitwiseCrc(b)
  {
    var x, y := MessageBits(a), MessageBits(b);
    if BitwiseCrc(a) == BitwiseCrc(b) {
      NotInjective(FeedBits(ONES, x), FeedBits(ONES, y));
      FeedThreeParts(ONES, x, i, n);
      FeedThreeParts(ONES, y, i, n);
      var s := FeedBits(ONES, x[..i]);
      SuffixInjective(FeedBits(s, x[i..i + n]), FeedBits(s, y[i..i + n]), x[i + n..]);
      WindowInjective(s, x[i..i + n], y[i..i + n]);
      SameParts(x, y, i, n);
      MessageInjective(a, b);
      assert false;
    }
  }

  lemma SameParts(x: Bits, y: Bits, i: nat, n: nat)
    requires |x| == |y| && i + n <= |x| && x[..i] == y[..i] && x[i..i + n] == y[i..i + n] && x[i + n..] == y[i + n..]
    ensures x == y
  {
    assert x == x[..i] + x[i..i + n] + x[i + n..] && y == y[..i] + y[i..i + n] + y[i + n..];
  }

  lemma NotInjective(x: Word, y: Word)
    requires Not(x) == Not(y)
    ensures x == y
  {
    assert forall i :: 0 <= i < 32 ==> x[i] == !Not(x)[i] && y[i] == !Not(y)[i];
  }

  lemma MessageParts(m: seq<u8>, i: nat, j: nat)
    requires i <= j <= |m|
    ensures MessageBits(m)[..8 * i] == MessageBits(m[..i]) && MessageBits(m)[8 * j..] == MessageBits(m[j..])
  {
    assert m == m[..i] + m[i..] && m == m[..j] + m[j..];
    MessageConcat(m[..i], m[i..]);
    MessageConcat(m[..j], m[j..]);
  }

  /** The byte-aligned case: any change confined to four consecutive bytes is detected. */
  lemma FourByteBurstDetected(a: seq<u8>, b: seq<u8>, i: nat, n: nat)
    requires |a| == |b| && a != b
    requires n <= 4 && i + n <= |a|
    requires a[..i] == b[..i] && a[i + n..] == b[i + n..]
    ensures BitwiseCrc(a) != BitwiseCrc(b)
  {
    MessageParts(a, i, i + n);
    MessageParts(b, i, i + n);
    BurstDetected(a, b, 8 * i, 8 * n);
  }

  // ---- affinity ----

  function Xor3(a: Bits, b: Bits, c: Bits): Bits
    requires |a| == |b| == |c|
  {
    Xor(Xor(a, b), c)
  }

  lemma {:induction false} FeedXor3(r: Word, s: Word, t: Word, a: Bits, b: Bits, c: Bits)
    requires |a| == |b| == |c|
    ensures FeedBits(Xor3(r, s, t), Xor3(a, b, c)) == Xor3(FeedBits(r, a), FeedBits(s, b), FeedBits(t, c))
    decreases |a|
  {
    if a != [] {
      var r', s', t' := r[0 := r[0] != a[0]], s[0 := s[0] != b[0]], t[0 := t[0] != c[0]];
      var q := Xor3(a, b, c);
      assert q[1..] == Xor3(a[1..], b[1..], c[1..]);
      assert Xor3(r, s, t)[0 := Xor3(r, s, t)[0] != q[0]] == Xor3(r', s', t');
      ShiftXor(Xor(r', s'), t');
      ShiftXor(r', s');
      FeedXor3(Shift(r'), Shift(s'), Shift(t'), a[1..], b[1..], c[1..]);
    }
  }

  /** C's `a ^ b ^ c` on bytes, position by position. */
  function XorBytes(a: seq<u8>, b: seq<u8>, c: seq<u8>): (d: seq<u8>)
    requires |a| == |b| == |c|
    ensures |d| == |a| && MessageBits(d) == Xor3(MessageBits(a), MessageBits(b), MessageBits(c))
  {
    if a == [] then [] else
      var bits := Xor3(NatBits(a[0], 8), NatBits(b[0], 8), NatBits(c[0], 8));
      assert NatOf(bits) < 256 by { BitsOfNat(bits); Pow8(); }
      var d := [NatOf(bits)] + XorBytes(a[1..], b[1..], c[1..]);
      assert MessageBits(d) == Xor3(MessageBits(a), MessageBits(b), MessageBits(c)) by {
        BitsOfNat(bits);
        assert d[1..] == XorBytes(a[1..], b[1..], c[1..]);
      }
      d
  }

  /** The CRC is affine: on messages of one length it commutes with the xor of three of them. */
  lemma CrcAffine(a: seq<u8>, b: seq<u8>, c: seq<u8>)
    requires |a| == |b| == |c|
    ensures BitwiseCrc(XorBytes(a, b, c)) == Xor3(BitwiseCrc(a), BitwiseCrc(b), BitwiseCrc(c))
  {
    assert ONES == Xor3(ONES, ONES, ONES);
    FeedXor3(ONES, ONES, ONES, MessageBits(a), MessageBits(b), MessageBits(c));
    var x, y, z := FeedBits(ONES, MessageBits(a)), FeedBits(ONES, MessageBits(b)), FeedBits(ONES, MessageBits(c));
    assert Not(Xor3(x, y, z)) == Xor3(Not(x), Not(y), Not(z));
  }

  // ---- the table-driven form ----

  /** The table's slot for index `i`: eight register steps on `i`. */
  function TableEntry(i: u8): Word { ShiftN(ByteWord(i), 8) }

  lemma {:induction false} ClearLow(x: Word, n: nat)
    requires n <= 32 && forall i :: 0 <= i < n ==> !x[i]
    ensures ShiftN(x, n) == Shr(x, n)
    decreases n
  {
    if n == 0 {
      assert Shr(x, 0) == x;
    } else {
      ClearLow(Shift(x), n - 1);
      assert Shr(Shr(x, 1), n - 1) == Shr(x, n);
    }
  }

  /** Eight register steps look only at the low byte and shift the rest down. */
  lemma EightShifts(x: Word)
    ensures ShiftN(x, 8) == Xor(ShiftN(Pad(x[..8]), 8), Shr(x, 8))
  {
    var lo, hi: Word := Pad(x[..8]), Zeros(8) + x[8..];
    assert x == Xor(lo, hi);
    ShiftNXor(lo, hi, 8);
    ClearLow(hi, 8);
    assert Shr(hi, 8) == Shr(x, 8);
  }

  /** One table step equals feeding the byte's eight bits to the reference register. */
  lemma TableStep(crc: Word, b: u8)
    ensures var x: Word := Xor(crc, ByteWord(b));
      NatOf(x[..8]) < 256 && Xor(TableEntry(NatOf(x[..8])), Shr(crc, 8)) == FeedBits(crc, NatBits(b, 8))
  {
    var x: Word := Xor(crc, ByteWord(b));
    Pow8();
    BitsOfNat(x[..8]);
    FeedIsXorShift(crc, NatBits(b, 8));
    EightShifts(x);
    assert Shr(x, 8) == Shr(crc, 8);
    assert TableEntry(NatOf(x[..8])) == ShiftN(Pad(x[..8]), 8);
  }

  /** `vpipe_crc32_init` and `vpipe_crc32` with their static table. */
  class Crc32Table {
    var ready: bool
    const table: array<Word>

    ghost predicate Valid()
      reads this, table
    {
      table.Length == 256 && (ready ==> forall i: u8 :: table[i] == TableEntry(i))
    }

    constructor ()
      ensures Valid() && !ready && fresh(table)
    {
      table := new Word[256](_ => Zeros(32));
      ready := false;
    }

    method Init()
      requires Valid()
      modifies this, table
      ensures Valid() && ready
    {
      if ready { return; }
      for i := 0 to 256
        invariant !ready
        invariant forall k: u8 :: k < i ==> table[k] == TableEntry(k)
      {
        var c := ByteWord(i);
        for bit := 0 to 8
          invariant ShiftN(c, 8 - bit) == TableEntry(i)
        {
          if c[0] {
            c := Xor(POLY, Shr(c, 1));
          } else {
            c := Shr(c, 1);
          }
        }
        table[i] := c;
      }
      ready := true;
    }

    /** The table-driven loop computes the RFC 1952 checksum of every byte sequence. */
    method Checksum(p: seq<u8>) returns (r: Word)
      requires Valid()
      modifies this, table
      ensures Valid() && ready
      ensures r == BitwiseCrc(p)
    {
      var crc := ONES;
      Init();
      for i := 0 to |p|
        invariant Valid() && ready
        invariant crc == FeedBits(ONES, MessageBits(p[..i]))
      {
        TableStep(crc, p[i]);
        FeedByte(p, i);
        crc := Xor(table[NatOf(Xor(crc, ByteWord(p[i]))[..8])], Shr(crc, 8));
      }
      assert p[..|p|] == p;
      r := Not(crc);
    }
  }

  lemma FeedByte(p: seq<u8>, i: nat)
    requires i < |p|
    ensures FeedBits(ONES, MessageBits(p[..i + 1])) == FeedBits(FeedBits(ONES, MessageBits(p[..i])), NatBits(p[i], 8))
  {
    assert p[..i + 1] == p[..i] + [p[i]];
    MessageConcat(p[..i], [p[i]]);
    assert MessageBits([p[i]]) == NatBits(p[i], 8);
    FeedConcat(ONES, MessageBits(p[..i]), NatBits(p[i], 8));
  }
}
