/** The check value of CRC-32, computed on machine words. */
module CrcCheck {
  import opened Base
  import opened Crc32
  import opened CrcDivision

  function Mask(i: nat): bv32
    requires i < 32
  {
    1 << i
  }

  predicate Bit(w: bv32, mask: bv32) { w & mask != 0 }

  /** The bits of a machine word, low bit first. */
  function WordOf(w: bv32): Word { seq(32, i requires 0 <= i < 32 => Bit(w, Mask(i))) }

  lemma OneBit(i: nat)
    requires i < 32
    ensures Mask(i) & (Mask(i) - 1) == 0
  {
  }

  lemma BitXor(a: bv32, b: bv32, mask: bv32)
    requires mask & (mask - 1) == 0
    ensures Bit(a ^ b, mask) == (Bit(a, mask) != Bit(b, mask))
  {
  }

  lemma XorOf(a: bv32, b: bv32)
    ensures Xor(WordOf(a), WordOf(b)) == WordOf(a ^ b)
  {
    forall i | 0 <= i < 32
      ensures WordOf(a ^ b)[i] == (WordOf(a)[i] != WordOf(b)[i])
    {
      OneBit(i);
      BitXor(a, b, Mask(i));
    }
  }

  lemma HalfBit(w: bv32, i: nat)
    requires i < 31
    ensures Bit(w >> 1, Mask(i)) == Bit(w, Mask(i + 1))
  {
  }

  lemma TopBit(w: bv32)
    ensures !Bit(w >> 1, Mask(31))
  {
    assert Mask(31) == 0x80000000;
  }

  lemma HalfOf(w: bv32)
    ensures Shr(WordOf(w), 1) == WordOf(w >> 1)
  {
    TopBit(w);
    forall i | 0 <= i < 32
      ensures Shr(WordOf(w), 1)[i] == WordOf(w >> 1)[i]
    {
      if i < 31 { HalfBit(w, i); }
    }
  }

  lemma DigitSlice(w: bv32, k: nat, d: nat)
    requires k < 29 && d < 16
    requires Bit(w, Mask(k)) == (d % 2 == 1) && Bit(w, Mask(k + 1)) == (d / 2 % 2 == 1)
    requires Bit(w, Mask(k + 2)) == (d / 4 % 2 == 1) && Bit(w, Mask(k + 3)) == (d / 8 % 2 == 1)
    ensures WordOf(w)[k..k + 4] == Nibble(d)
  {
    NibbleBits(d);
  }

  lemma PolyLow()
    ensures WordOf(0xedb88320)[0..16] == Nibble(0x0) + Nibble(0x2) + Nibble(0x3) + Nibble(0x8)
  {
    var w := WordOf(0xedb88320);
    DigitSlice(0xedb88320, 0, 0x0);
    DigitSlice(0xedb88320, 4, 0x2);
    DigitSlice(0xedb88320, 8, 0x3);
    DigitSlice(0xedb88320, 12, 0x8);
    assert w[0..16] == w[0..4] + w[4..8] + w[8..12] + w[12..16];
  }

  lemma PolyHigh()
    ensures WordOf(0xedb88320)[16..32] == Nibble(0x8) + Nibble(0xb) + Nibble(0xd) + Nibble(0xe)
  {
    var w := WordOf(0xedb88320);
    DigitSlice(0xedb88320, 16, 0x8);
    DigitSlice(0xedb88320, 20, 0xb);
    DigitSlice(0xedb88320, 24, 0xd);
    DigitSlice(0xedb88320, 28, 0xe);
    assert w[16..32] == w[16..20] + w[20..24] + w[24..28] + w[28..32];
  }

  lemma PolyWord()
    ensures POLY == WordOf(0xedb88320)
  {
    PolyLow();
    PolyHigh();
    var w := WordOf(0xedb88320);
    assert w == w[0..16] + w[16..32];
    Regroup(w[0..16], Nibble(0x8), Nibble(0xb), Nibble(0xd), Nibble(0xe));
  }

  lemma Regroup(x: Bits, a: Bits, b: Bits, c: Bits, d: Bits)
    ensures x + (a + b + c + d) == x + a + b + c + d
  {
  }

  lemma LowOnly(i: nat)
    requires 0 < i < 32
    ensures !Bit(1, Mask(i))
  {
  }

  lemma OneWord()
    ensures WordOf(1) == [true] + Zeros(31)
  {
    assert Mask(0) == 1;
    forall i | 0 < i < 32
      ensures !WordOf(1)[i]
    {
      LowOnly(i);
    }
  }

  /** `crc ^ bit` flips the low bit. */
  lemma FlipLow(w: bv32)
    ensures WordOf(w)[0 := !WordOf(w)[0]] == WordOf(w ^ 1)
  {
    OneWord();
    XorOf(w, 1);
    XorOne(WordOf(w));
  }

  lemma XorOne(s: Word)
    ensures Xor(s, [true] + Zeros(31)) == s[0 := !s[0]]
  {
  }

  /** The inner loop body of `vpipe_crc32_init` on a machine word. */
  function Shifted(w: bv32): bv32 { if w & 1 != 0 then 0xedb88320 ^ (w >> 1) else w >> 1 }

  lemma LowBit(w: bv32)
    ensures WordOf(w)[0] == (w & 1 != 0)
  {
    assert Mask(0) == 1;
  }

  lemma ShiftOf(w: bv32)
    ensures Shift(WordOf(w)) == WordOf(Shifted(w))
  {
    PolyWord();
    LowBit(w);
    HalfOf(w);
    XorOf(0xedb88320, w >> 1);
  }

  /** The register after one more message bit. */
  function Next(w: bv32, bit: bool): bv32 { Shifted(if bit then w ^ 1 else w) }

  lemma BitFed(w: bv32, bit: bool)
    ensures Shift(WordOf(w)[0 := WordOf(w)[0] != bit]) == WordOf(Next(w, bit))
  {
    var s := WordOf(w);
    if bit { FlipLow(w); } else { assert s[0 := s[0]] == s; }
    ShiftOf(if bit then w ^ 1 else w);
  }

  /** Eight message bits, first bit first. */
  datatype Octet = Octet(a: bool, b: bool, c: bool, d: bool, e: bool, f: bool, g: bool, h: bool)

  function BitsOf(o: Octet): Bits {
    ([o.a] + [o.b] + [o.c] + [o.d]) + ([o.e] + [o.f] + [o.g] + [o.h])
  }

  /** Feeding `bits` takes the register from `w` to `v`. */
  ghost predicate Leads(w: bv32, bits: Bits, v: bv32) { FeedBits(WordOf(w), bits) == WordOf(v) }

  lemma OneLeads(w: bv32, bit: bool)
    ensures Leads(w, [bit], Next(w, bit))
  {
    BitFed(w, bit);
  }

  lemma ThenLeads(w: bv32, a: Bits, v: bv32, b: Bits, u: bv32)
    requires Leads(w, a, v) && Leads(v, b, u)
    ensures Leads(w, a + b, u)
  {
    FeedConcat(WordOf(w), a, b);
  }

  function FourNext(w: bv32, a: bool, b: bool, c: bool, d: bool): bv32 { Next(Next(Next(Next(w, a), b), c), d) }

  lemma FourLeads(w: bv32, a: bool, b: bool, c: bool, d: bool)
    ensures Leads(w, [a] + [b] + [c] + [d], FourNext(w, a, b, c, d))
  {
    var w1 := Next(w, a);
    var w2 := Next(w1, b);
    var w3 := Next(w2, c);
    OneLeads(w, a);
    OneLeads(w1, b);
    OneLeads(w2, c);
    OneLeads(w3, d);
    ThenLeads(w, [a], w1, [b], w2);
    ThenLeads(w, [a] + [b], w2, [c], w3);
    ThenLeads(w, [a] + [b] + [c], w3, [d], Next(w3, d));
  }

  lemma OctetFed(w: bv32, v: bv32, u: bv32, o: Octet)
    requires FourNext(w, o.a, o.b, o.c, o.d) == v && FourNext(v, o.e, o.f, o.g, o.h) == u
    ensures Leads(w, BitsOf(o), u)
  {
    FourLeads(w, o.a, o.b, o.c, o.d);
    FourLeads(v, o.e, o.f, o.g, o.h);
    ThenLeads(w, [o.a] + [o.b] + [o.c] + [o.d], v, [o.e] + [o.f] + [o.g] + [o.h], u);
  }

  /** The bytes of the text 123456789. */
  const DIGITS: seq<u8> := [0x31, 0x32, 0x33, 0x34, 0x35, 0x36, 0x37, 0x38, 0x39]

  /** The bits of each digit, the register before each digit and after the last, and halfway through each. */
  const OCTETS: seq<Octet> :=
    [Octet(true, false, false, false, true, true, false, false),
     Octet(false, true, false, false, true, true, false, false),
     Octet(true, true, false, false, true, true, false, false),
     Octet(false, false, true, false, true, true, false, false),
     Octet(true, false, true, false, true, true, false, false),
     Octet(false, true, true, false, true, true, false, false),
     Octet(true, true, true, false, true, true, false, false),
     Octet(false, false, false, true, true, true, false, false),
     Octet(true, false, false, true, true, true, false, false)]

  const REGISTERS: seq<bv32> :=
    [0xffffffff, 0x7c231048, 0xb0acbb32, 0x77b79c2d, 0x641c1f5c,
     0x340ac5e3, 0xf68d2c9e, 0xaffc9660, 0x651f2550, 0x340bc6d9]

  const HALFWAY: seq<bv32> :=
    [0xaff51d87, 0xd11492ec, 0x16bddbd7, 0xf774ea86, 0xf64e52b1,
     0x682bfdaa, 0xff67418d, 0xe7474a46, 0xf65e6111]

  function BitValue(bit: bool): nat { if bit then 1 else 0 }

  function OctetValue(o: Octet): nat {
    BitValue(o.a) + 2 * BitValue(o.b) + 4 * BitValue(o.c) + 8 * BitValue(o.d)
    + 16 * BitValue(o.e) + 32 * BitValue(o.f) + 64 * BitValue(o.g) + 128 * BitValue(o.h)
  }

  lemma FirstBit(bit: bool, rest: Bits)
    ensures NatOf([bit] + rest) == BitValue(bit) + 2 * NatOf(rest)
  {
    assert ([bit] + rest)[1..] == rest;
  }

  lemma FourBits(a: bool, b: bool, c: bool, d: bool, rest: Bits)
    ensures NatOf(([a] + [b] + [c] + [d]) + rest)
         == BitValue(a) + 2 * BitValue(b) + 4 * BitValue(c) + 8 * BitValue(d) + 16 * NatOf(rest)
  {
    FirstBit(d, rest);
    FirstBit(c, [d] + rest);
    FirstBit(b, [c] + ([d] + rest));
    FirstBit(a, [b] + ([c] + ([d] + rest)));
    assert ([a] + [b] + [c] + [d]) + rest == [a] + ([b] + ([c] + ([d] + rest)));
  }

  lemma OctetNumber(o: Octet)
    ensures NatOf(BitsOf(o)) == OctetValue(o)
  {
    var high := [o.e] + [o.f] + [o.g] + [o.h];
    FourBits(o.a, o.b, o.c, o.d, high);
    FourBits(o.e, o.f, o.g, o.h, []);
    assert high + [] == high;
  }

  lemma OctetBits(o: Octet)
    ensures NatBits(OctetValue(o), 8) == BitsOf(o)
  {
    OctetNumber(o);
    BitsOfNat(BitsOf(o));
  }

  lemma Octets(i: nat)
    requires i < 9
    ensures DIGITS[i] == OctetValue(OCTETS[i])
  {
  }

  lemma Registers(i: nat)
    requires i < 9
    ensures var o := OCTETS[i]; FourNext(REGISTERS[i], o.a, o.b, o.c, o.d) == HALFWAY[i]
    ensures var o := OCTETS[i]; FourNext(HALFWAY[i], o.e, o.f, o.g, o.h) == REGISTERS[i + 1]
  {
    if i == 0 {
      assert FourNext(0xffffffff, true, false, false, false) == 0xaff51d87;
      assert FourNext(0xaff51d87, true, true, false, false) == 0x7c231048;
    } else if i == 1 {
      assert FourNext(0x7c231048, false, true, false, false) == 0xd11492ec;
      assert FourNext(0xd11492ec, true, true, false, false) == 0xb0acbb32;
    } else if i == 2 {
      assert FourNext(0xb0acbb32, true, true, false, false) == 0x16bddbd7;
      assert FourNext(0x16bddbd7, true, true, false, false) == 0x77b79c2d;
    } else if i == 3 {
      assert FourNext(0x77b79c2d, false, false, true, false) == 0xf774ea86;
      assert FourNext(0xf774ea86, true, true, false, false) == 0x641c1f5c;
    } else if i == 4 {
      assert FourNext(0x641c1f5c, true, false, true, false) == 0xf64e52b1;
      assert FourNext(0xf64e52b1, true, true, false, false) == 0x340ac5e3;
    } else if i == 5 {
      assert FourNext(0x340ac5e3, false, true, true, false) == 0x682bfdaa;
      assert FourNext(0x682bfdaa, true, true, false, false) == 0xf68d2c9e;
    } else if i == 6 {
      assert FourNext(0xf68d2c9e, true, true, true, false) == 0xff67418d;
      assert FourNext(0xff67418d, true, true, false, false) == 0xaffc9660;
    } else if i == 7 {
      assert FourNext(0xaffc9660, false, false, false, true) == 0xe7474a46;
      assert FourNext(0xe7474a46, true, true, false, false) == 0x651f2550;
    } else if i == 8 {
      assert FourNext(0x651f2550, true, false, false, true) == 0xf65e6111;
      assert FourNext(0xf65e6111, true, true, false, false) == 0x340bc6d9;
    }
  }

  lemma DigitFed(i: nat)
    requires i < 9
    ensures FeedBits(WordOf(REGISTERS[i]), NatBits(DIGITS[i], 8)) == WordOf(REGISTERS[i + 1])
  {
    Octets(i);
    OctetBits(OCTETS[i]);
    Registers(i);
    OctetFed(REGISTERS[i], HALFWAY[i], REGISTERS[i + 1], OCTETS[i]);
  }

  lemma {:induction false} DigitsFed(i: nat)
    requires i <= 9
    ensures FeedBits(ONES, MessageBits(DIGITS[..i])) == WordOf(REGISTERS[i])
  {
    if i == 0 {
      AllOnes();
    } else {
      DigitsFed(i - 1);
      FeedByte(DIGITS, i - 1);
      DigitFed(i - 1);
    }
  }

  lemma AllOnes()
    ensures ONES == WordOf(0xffffffff)
  {
    forall i | 0 <= i < 32
      ensures WordOf(0xffffffff)[i]
    {
      assert Mask(i) != 0;
    }
  }

  lemma Complement(w: bv32)
    ensures Not(WordOf(w)) == WordOf(w ^ 0xffffffff)
  {
    AllOnes();
    XorOf(w, 0xffffffff);
  }

  /** The check value of CRC-32: the text 123456789 has the checksum 0xcbf43926. */
  lemma CheckValue()
    ensures BitwiseCrc(DIGITS) == WordOf(0xcbf43926)
  {
    DigitsFed(9);
    assert DIGITS[..9] == DIGITS;
    Complement(0x340bc6d9);
  }
}
