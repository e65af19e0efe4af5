/**
 * What the checksum register holds: the remainder of a division of polynomials over the field of
 * two elements, as section 8 of RFC 1952 and ISO 3309 define it.
 *
 * A polynomial is written as its coefficients, highest power first. Read that way the reflected
 * register needs no reversal: its bit i is the coefficient of x^(31 - i).
 */
module CrcDivision {
  import opened Base
  import opened Crc32

  /** The exponents below 32 of the CRC-32 polynomial. */
  const EXPONENTS: set<nat> := {0, 1, 2, 4, 5, 7, 8, 10, 11, 12, 16, 22, 23, 26}

  /** x^32 plus the powers in EXPONENTS. */
  function Divisor(): (g: Bits)
    ensures |g| == 33
  {
    [true] + seq(32, i requires 0 <= i < 32 => 31 - i in EXPONENTS)
  }

  /** The constant 0xedb88320 is the divisor without its leading power. */
  lemma PolyIsDivisor()
    ensures Divisor() == [true] + POLY
  {
    LowDigits();
    HighDigits();
    forall i | 0 <= i < 32
      ensures POLY[i] == (31 - i in EXPONENTS)
    {
      assert POLY[i] == if i < 16 then POLY[..16][i] else POLY[16..][i - 16];
    }
  }

  lemma LowDigits()
    ensures POLY[..16] == [false, false, false, false, false, true, false, false,
                           true, true, false, false, false, false, false, true]
  {
    NibbleBits(0x0);
    NibbleBits(0x2);
    NibbleBits(0x3);
    NibbleBits(0x8);
  }

  lemma HighDigits()
    ensures POLY[16..] == [false, false, false, true, true, true, false, true,
                           true, false, true, true, false, true, true, true]
  {
    NibbleBits(0x8);
    NibbleBits(0xb);
    NibbleBits(0xd);
    NibbleBits(0xe);
  }

  lemma NibbleBits(d: nat)
    requires d < 16
    ensures Nibble(d) == [d % 2 == 1, d / 2 % 2 == 1, d / 4 % 2 == 1, d / 8 % 2 == 1]
  {
    assert NatBits(d, 4) == [d % 2 == 1] + NatBits(d / 2, 3);
    assert NatBits(d / 2, 3) == [d / 2 % 2 == 1] + NatBits(d / 2 / 2, 2);
    assert NatBits(d / 2 / 2, 2) == [d / 2 / 2 % 2 == 1] + NatBits(d / 2 / 2 / 2, 1);
    assert NatBits(d / 2 / 2 / 2, 1) == [d / 2 / 2 / 2 % 2 == 1] + NatBits(d / 2 / 2 / 2 / 2, 0);
  }

  // ---- polynomials ----

  /** The product of two polynomials: one shifted copy of `g` for each power in `q`. */
  function Times(q: Bits, g: Bits): (r: Bits)
    requires g != []
    ensures |r| == |q| + |g| - 1
    decreases |q|
  {
    if q == [] then Zeros(|g| - 1)
    else Xor(if q[0] then g + Zeros(|q| - 1) else Zeros(|q| + |g| - 1), [false] + Times(q[1..], g))
  }

  /** The divisor times x^n, or nothing. */
  function Copy(take: bool, n: nat): (r: Bits)
    ensures |r| == n + 33
  {
    if take then Divisor() + Zeros(n) else Zeros(n + 33)
  }

  lemma TimesStep(q: Bits)
    requires q != []
    ensures Times(q, Divisor()) == Xor(Copy(q[0], |q| - 1), [false] + Times(q[1..], Divisor()))
  {
  }

  /** `a` is `q` times the divisor plus `r`, and `r` has a lower degree than the divisor. */
  ghost predicate Divides(a: Bits, q: Bits, r: Word) {
    |a| == |q| + 32 && a == Xor(Times(q, Divisor()), Zeros(|q|) + r)
  }

  /** The dividend: the message times x^32, with `s` added to its 32 leading coefficients. */
  function Dividend(s: Word, bits: Bits): (a: Bits)
    ensures |a| == |bits| + 32
  {
    Xor(bits + Zeros(32), s + Zeros(|bits|))
  }

  /** The quotient the register shifts out. */
  function Quotient(s: Word, bits: Bits): (q: Bits)
    ensures |q| == |bits|
    decreases |bits|
  {
    if bits == [] then [] else
      [s[0] != bits[0]] + Quotient(Shift(s[0 := s[0] != bits[0]]), bits[1..])
  }

  /** Subtracting the divisor from the leading coefficients, if they call for it, is one register step. */
  lemma DividendStep(s: Word, bits: Bits)
    requires bits != []
    ensures var s' := s[0 := s[0] != bits[0]];
      Dividend(s, bits) == Xor(Copy(s'[0], |bits| - 1), [false] + Dividend(Shift(s'), bits[1..]))
  {
    PolyIsDivisor();
    var s' := s[0 := s[0] != bits[0]];
    var a, next := Dividend(s, bits), Dividend(Shift(s'), bits[1..]);
    var g := Copy(s'[0], |bits| - 1);
    forall i | 0 <= i < |a|
      ensures a[i] == Xor(g, [false] + next)[i]
    {
      if i > 0 { StepCoefficient(s, bits, i); }
    }
  }

  lemma StepCoefficient(s: Word, bits: Bits, i: nat)
    requires bits != [] && 0 < i < |bits| + 32
    ensures var s' := s[0 := s[0] != bits[0]];
      Dividend(s, bits)[i] == ((s'[0] && i <= 32 && POLY[i - 1]) != Dividend(Shift(s'), bits[1..])[i - 1])
  {
    var s' := s[0 := s[0] != bits[0]];
    assert (bits[1..] + Zeros(32))[i - 1] == (bits + Zeros(32))[i];
    if i < 32 {
      assert Shift(s')[i - 1] == (s[i] != (s'[0] && POLY[i - 1]));
    } else if i == 32 {
      assert Shift(s')[31] == (s'[0] && POLY[31]);
    }
  }

  /**
   * The division law. Whatever the register starts with and whatever bits are fed, it ends as the
   * remainder of the message times x^32, plus the initial register times x^(length), modulo the
   * CRC-32 polynomial.
   */
  lemma {:induction false} DivisionLaw(s: Word, bits: Bits)
    ensures Divides(Dividend(s, bits), Quotient(s, bits), FeedBits(s, bits))
    decreases |bits|
  {
    if bits == [] {
      JustRemainder(s);
      assert Dividend(s, bits) == s;
    } else {
      var s' := s[0 := s[0] != bits[0]];
      DivisionLaw(Shift(s'), bits[1..]);
      DividendStep(s, bits);
      var q, r := Quotient(Shift(s'), bits[1..]), FeedBits(s, bits);
      assert Quotient(s, bits)[1..] == q;
      TimesStep(Quotient(s, bits));
      Reassociate(Copy(s'[0], |q|), Times(q, Divisor()), Zeros(|q|) + r);
      OneMoreZero(|q|, r);
    }
  }

  lemma OneMoreZero(n: nat, r: Word)
    ensures [false] + (Zeros(n) + r) == Zeros(n + 1) + r
  {
  }

  lemma Reassociate(g: Bits, t: Bits, r: Bits)
    requires |g| == |t| + 1 && |t| == |r|
    ensures Xor(g, [false] + Xor(t, r)) == Xor(Xor(g, [false] + t), [false] + r)
  {
  }

  // ---- the remainder is unique ----

  /** There is one quotient and one remainder: the divisor's leading coefficient is set. */
  lemma {:induction false} RemainderUnique(q: Bits, r: Word, q': Bits, r': Word)
    requires |q| == |q'| && Xor(Times(q, Divisor()), Zeros(|q|) + r) == Xor(Times(q', Divisor()), Zeros(|q|) + r')
    ensures q == q' && r == r'
    decreases |q|
  {
    if q == [] {
      JustRemainder(r);
      JustRemainder(r');
    } else {
      Leading(q, r);
      Leading(q', r');
      Tail(q, r);
      Tail(q', r');
      RemainderUnique(q[1..], r, q'[1..], r');
      assert q == [q[0]] + q[1..] && q' == [q'[0]] + q'[1..];
    }
  }

  lemma JustRemainder(r: Word)
    ensures Xor(Times([], Divisor()), Zeros(0) + r) == r
  {
  }

  lemma Leading(q: Bits, r: Word)
    requires q != []
    ensures Xor(Times(q, Divisor()), Zeros(|q|) + r)[0] == q[0]
  {
    TimesStep(q);
  }

  /** Taking the first shifted copy away leaves the sum for the rest of the quotient. */
  lemma Tail(q: Bits, r: Word)
    requires q != []
    ensures Xor(Times(q[1..], Divisor()), Zeros(|q| - 1) + r)
         == Xor(Copy(q[0], |q| - 1), Xor(Times(q, Divisor()), Zeros(|q|) + r))[1..]
  {
    TimesStep(q);
    OneMoreZero(|q| - 1, r);
    Cancel(Copy(q[0], |q| - 1), Times(q[1..], Divisor()), Zeros(|q| - 1) + r);
  }

  lemma Cancel(c: Bits, t: Bits, z: Bits)
    requires |c| == |t| + 1 && |t| == |z|
    ensures Xor(c, Xor(Xor(c, [false] + t), [false] + z))[1..] == Xor(t, z)
  {
  }

  /**
   * The checksum of every byte sequence, without its register: the complement of the one word that
   * is the remainder of the message, low bit of each byte first, times x^32, with 32 ones added to
   * its leading coefficients, modulo the CRC-32 polynomial.
   */
  lemma ChecksumIsRemainder(data: seq<u8>, q: Bits, r: Word)
    ensures exists q' :: Divides(Dividend(ONES, MessageBits(data)), q', Not(BitwiseCrc(data)))
    ensures Divides(Dividend(ONES, MessageBits(data)), q, r) ==> BitwiseCrc(data) == Not(r)
  {
    var bits := MessageBits(data);
    DivisionLaw(ONES, bits);
    assert Not(BitwiseCrc(data)) == FeedBits(ONES, bits);
    if Divides(Dividend(ONES, bits), q, r) {
      RemainderUnique(q, r, Quotient(ONES, bits), FeedBits(ONES, bits));
    }
  }
}
