/**
 * The PGM codec of user/vpipe-common.c (Netpbm raw P5, 8 bits). A file is its bytes; what is
 * left to read is a suffix of them. `fscanf("%u")` follows glibc: leading white space, an
 * optional sign, decimal digits, saturation at 2^64 - 1 and truncation to 32 bits.
 */
module Pgm {
  import opened Base
  import Cv

  type Bytes = seq<u8>

  const HASH: u8 := 35
  const NEWLINE: u8 := 10
  const SPACE: u8 := 32

  /** `isspace` in the C locale. */
  predicate IsSpace(c: u8) { c == SPACE || 9 <= c <= 13 }

  predicate IsDigit(c: u8) { 48 <= c <= 57 }

  // ---- stdio ----

  function SkipBlank(s: Bytes): (r: Bytes)
    ensures |r| <= |s|
  {
    if s != [] && IsSpace(s[0]) then SkipBlank(s[1..]) else s
  }

  function DigitCount(s: Bytes): (n: nat)
    ensures n <= |s|
  {
    if s != [] && IsDigit(s[0]) then 1 + DigitCount(s[1..]) else 0
  }

  /** The number written by decimal digits. */
  function Value(digits: Bytes): nat
    requires forall i :: 0 <= i < |digits| ==> IsDigit(digits[i])
  {
    if digits == [] then 0 else
      var front, last: int := digits[..|digits| - 1], digits[|digits| - 1];
      assert IsDigit(digits[|digits| - 1]);
      Value(front) * 10 + (last - 48)
  }

  /** strtoul's result, stored in an unsigned int. */
  function Stored(v: nat, negative: bool): u32 {
    (if v >= TWO64 then TWO64 - 1 else if negative then (TWO64 - v) % TWO64 else v) % TWO32
  }

  lemma LeadingDigits(s: Bytes)
    ensures forall i :: 0 <= i < DigitCount(s) ==> IsDigit(s[i])
  {
  }

  /** One `%u`, past white space: the value and what is left, or None when no number is there. */
  function ScanNumber(t: Bytes): (r: Option<(u32, Bytes)>)
    ensures r.Some? ==> |r.value.1| < |t|
  {
    var signed := t != [] && (t[0] == 43 || t[0] == 45);
    var u := if signed then t[1..] else t;
    var n := DigitCount(u);
    LeadingDigits(u);
    if n == 0 then None else Some((Stored(Value(u[..n]), signed && t[0] == 45), u[n..]))
  }

  function Scan(s: Bytes): (r: Option<(u32, Bytes)>)
    ensures r.Some? ==> |r.value.1| < |s|
  {
    ScanNumber(SkipBlank(s))
  }

  /** `%u` on output. */
  function Dec(n: nat): (r: Bytes)
    ensures r != [] && forall i :: 0 <= i < |r| ==> IsDigit(r[i])
  {
    if n < 10 then [48 + n] else Dec(n / 10) + [48 + n % 10]
  }

  lemma {:induction false} ValueOfDec(n: nat)
    ensures Value(Dec(n)) == n
  {
    if n >= 10 {
      ValueOfDec(n / 10);
      assert Dec(n)[..|Dec(n)| - 1] == Dec(n / 10);
    }
  }

  lemma {:induction false} DigitCountConcat(digits: Bytes, t: Bytes)
    requires forall i :: 0 <= i < |digits| ==> IsDigit(digits[i])
    requires t != [] && !IsDigit(t[0])
    ensures DigitCount(digits + t) == |digits|
  {
    if digits == [] {
      assert digits + t == t;
    } else {
      assert (digits + t)[1..] == digits[1..] + t;
      DigitCountConcat(digits[1..], t);
    }
  }

  lemma {:induction false} SkipBlankConcat(blank: Bytes, t: Bytes)
    requires forall i :: 0 <= i < |blank| ==> IsSpace(blank[i])
    requires t != [] && !IsSpace(t[0])
    ensures SkipBlank(blank + t) == t
  {
    if blank == [] {
      assert blank + t == t;
    } else {
      assert (blank + t)[1..] == blank[1..] + t;
      SkipBlankConcat(blank[1..], t);
    }
  }

  lemma NumberScanned(n: u32, t: Bytes)
    requires t != [] && !IsDigit(t[0])
    ensures ScanNumber(Dec(n) + t) == Some((n, t))
  {
    SignedScanned(false, n, t);
    assert Sign(false) + (Dec(n) + t) == Dec(n) + t;
  }

  /** White space, then a printed number, then something that is not a digit. */
  lemma ScanPrinted(blank: Bytes, n: u32, t: Bytes)
    requires forall i :: 0 <= i < |blank| ==> IsSpace(blank[i])
    requires t != [] && !IsDigit(t[0])
    ensures Scan(blank + Dec(n) + t) == Some((n, t))
  {
    var u := Dec(n) + t;
    assert blank + Dec(n) + t == blank + u;
    assert u[0] == Dec(n)[0];
    SkipBlankConcat(blank, u);
    NumberScanned(n, t);
  }

  function Sign(negative: bool): Bytes { if negative then [45] else [] }

  lemma DigitsThen(n: nat, t: Bytes)
    requires t != [] && !IsDigit(t[0])
    ensures var u := Dec(n) + t; var k := DigitCount(u);
      k > 0 && u[..k] == Dec(n) && u[k..] == t && Value(u[..k]) == n && IsDigit(u[0])
  {
    DigitCountConcat(Dec(n), t);
    ValueOfDec(n);
    assert (Dec(n) + t)[..|Dec(n)|] == Dec(n);
  }

  lemma SignedScanned(negative: bool, n: nat, t: Bytes)
    requires t != [] && !IsDigit(t[0])
    ensures ScanNumber(Sign(negative) + (Dec(n) + t)) == Some((Stored(n, negative), t))
  {
    var u := Dec(n) + t;
    DigitsThen(n, t);
    if negative {
      assert ([45] + u)[1..] == u;
    } else {
      assert [] + u == u;
    }
  }

  /**
   * Any number, signed or not, as `%u` stores it: cut off at 2^64 - 1, negated modulo 2^64, and
   * reduced modulo 2^32.
   */
  lemma ScanAnyNumber(blank: Bytes, negative: bool, n: nat, t: Bytes)
    requires forall i :: 0 <= i < |blank| ==> IsSpace(blank[i])
    requires t != [] && !IsDigit(t[0])
    ensures var v := if n > 0xffff_ffff_ffff_ffff then 0xffff_ffff_ffff_ffff
                     else if negative && n > 0 then 0x1_0000_0000_0000_0000 - n else n;
      Scan(blank + (Sign(negative) + (Dec(n) + t))) == Some((v % 0x1_0000_0000, t))
  {
    var s := Sign(negative) + (Dec(n) + t);
    DigitsThen(n, t);
    assert s[0] == if negative then 45 else (Dec(n) + t)[0];
    SkipBlankConcat(blank, s);
    SignedScanned(negative, n, t);
  }

  // ---- vpipe_skip_space ----

  /** What follows the first newline, or nothing. */
  function AfterLine(s: Bytes): (r: Bytes)
    ensures |r| <= |s| && (s != [] ==> |r| < |s|)
  {
    if s == [] then [] else if s[0] == NEWLINE then s[1..] else AfterLine(s[1..])
  }

  /** The first byte that is neither white space nor inside a comment, and all after it. */
  function SkipSpace(s: Bytes): (r: Bytes)
    ensures |r| <= |s|
    decreases |s|
  {
    if s == [] then []
    else if s[0] == HASH then SkipSpace(AfterLine(s))
    else if IsSpace(s[0]) then SkipSpace(s[1..])
    else s
  }

  lemma SkipSpaceUnfold(c: u8, rest: Bytes)
    ensures c == HASH ==> SkipSpace([c] + rest) == SkipSpace(AfterLine([c] + rest))
    ensures IsSpace(c) ==> SkipSpace([c] + rest) == SkipSpace(rest)
    ensures c != HASH && !IsSpace(c) ==> SkipSpace([c] + rest) == [c] + rest
  {
    assert ([c] + rest)[1..] == rest;
  }

  /** White space and newline-terminated comments, in any mixture. */
  predicate IsGap(g: Bytes)
    decreases |g|
  {
    g == [] || (if g[0] == HASH then NEWLINE in g && IsGap(AfterLine(g)) else IsSpace(g[0]) && IsGap(g[1..]))
  }

  lemma {:induction false} AfterLineConcat(g: Bytes, t: Bytes)
    requires NEWLINE in g
    ensures AfterLine(g + t) == AfterLine(g) + t
  {
    if g[0] == NEWLINE {
      assert (g + t)[1..] == g[1..] + t;
    } else {
      assert g == [g[0]] + g[1..];
      assert (g + t)[1..] == g[1..] + t;
      AfterLineConcat(g[1..], t);
    }
  }

  lemma {:induction false} SkipGap(g: Bytes, t: Bytes)
    requires IsGap(g) && t != [] && !IsSpace(t[0]) && t[0] != HASH
    ensures SkipSpace(g + t) == t
    decreases |g|
  {
    if g == [] {
      assert g + t == t;
    } else if g[0] == HASH {
      AfterLineConcat(g, t);
      SkipGap(AfterLine(g), t);
    } else {
      assert (g + t)[1..] == g[1..] + t;
      SkipGap(g[1..], t);
    }
  }

  // ---- the codec ----

  const MAGIC: Bytes := [80, 53]

  /** `vpipe_write_pgm` */
  function Written(im: Cv.Image): Bytes {
    MAGIC + [NEWLINE] + Dec(im.width) + [SPACE] + Dec(im.height) + [NEWLINE] + Dec(255) + [NEWLINE] + im.pixels
  }

  /** The tail of `vpipe_read_pgm`: skip, maxval, one byte, pixels. */
  function ParsedBody(w: Cv.Dim, h: Cv.Dim, s: Bytes): (r: Option<Cv.Image>) {
    var m := Scan(SkipSpace(s));
    if m.None? || m.value.0 != 255 then None else
      var body := if m.value.1 == [] then [] else m.value.1[1..];
      Cv.FrameBytes(w, h);
      if |body| < w * h then None else Some(Cv.Image(w, h, body[..w * h]))
  }

  /** `vpipe_read_pgm` on the bytes of the file. */
  function Parsed(s: Bytes): (r: Option<Cv.Image>) {
    if |s| < 2 || s[0] != MAGIC[0] || s[1] != MAGIC[1] then None else
      var w := Scan(SkipSpace(s[2..]));
      if w.None? then None else
        var h := Scan(w.value.1);
        if h.None? then None
        else if 1 <= w.value.0 <= Cv.MAX_DIM && 1 <= h.value.0 <= Cv.MAX_DIM then
          ParsedBody(w.value.0, h.value.0, h.value.1)
        else None
  }

  /** A header up to the height leaves the rest to `ParsedBody`. */
  lemma HeaderParsed(w: Cv.Dim, h: Cv.Dim, gap: Bytes, blank: Bytes, t: Bytes)
    requires IsGap(gap) && blank != [] && (forall i :: 0 <= i < |blank| ==> IsSpace(blank[i]))
    requires t != [] && !IsDigit(t[0])
    ensures Parsed(MAGIC + (gap + (Dec(w) + (blank + Dec(h) + t)))) == ParsedBody(w, h, t)
  {
    var t1 := blank + Dec(h) + t;
    var s := MAGIC + (gap + (Dec(w) + t1));
    assert s[0] == MAGIC[0] && s[1] == MAGIC[1];
    assert s[2..] == gap + (Dec(w) + t1);
    NumberFollows(gap, w, t1);
    assert t1[0] == blank[0];
    ScanPrinted(blank, h, t);
  }

  /** A gap, a printed number and something that is not a digit. */
  lemma NumberFollows(gap: Bytes, n: u32, t: Bytes)
    requires IsGap(gap) && t != [] && !IsDigit(t[0])
    ensures Scan(SkipSpace(gap + (Dec(n) + t))) == Some((n, t))
  {
    var u := Dec(n) + t;
    assert u[0] == Dec(n)[0] && IsDigit(u[0]);
    SkipGap(gap, u);
    ScanPrinted([], n, t);
    assert [] + Dec(n) + t == u;
  }

  lemma BodyParsed(im: Cv.Image, gap: Bytes, sep: u8, rest: Bytes)
    requires IsGap(gap) && gap != [] && !IsDigit(sep)
    requires Cv.WellFormed(im)
    ensures |rest| < |im.pixels| ==> ParsedBody(im.width, im.height, gap + (Dec(255) + ([sep] + rest))) == None
    ensures im.pixels <= rest ==> ParsedBody(im.width, im.height, gap + (Dec(255) + ([sep] + rest))) == Some(im)
  {
    NumberFollows(gap, 255, [sep] + rest);
    assert ([sep] + rest)[1..] == rest;
    Cv.FrameBytes(im.width, im.height);
    if im.pixels <= rest { assert rest[..|im.pixels|] == im.pixels; }
  }

  lemma GapNotDigit(gap: Bytes, t: Bytes)
    requires IsGap(gap) && gap != []
    ensures !IsDigit((gap + t)[0])
  {
    assert (gap + t)[0] == gap[0];
  }

  /** The bytes of a file laid out with any gaps, blanks and separator. */
  function Layout(w: nat, h: nat, gap1: Bytes, blank: Bytes, gap2: Bytes, sep: u8, rest: Bytes): Bytes {
    MAGIC + (gap1 + (Dec(w) + (blank + Dec(h) + (gap2 + (Dec(255) + ([sep] + rest))))))
  }

  /**
   * Any header laid out as P5, gap, width, blank, height, gap, 255 and one byte reads back as
   * the image, whatever its pixel bytes are and whatever follows them; with too few bytes
   * after the header the file is refused.
   */
  lemma ReadsAnyLayout(im: Cv.Image, gap1: Bytes, blank: Bytes, gap2: Bytes, sep: u8, rest: Bytes)
    requires Cv.WellFormed(im) && IsGap(gap1) && IsGap(gap2) && gap2 != [] && !IsDigit(sep)
    requires blank != [] && forall i :: 0 <= i < |blank| ==> IsSpace(blank[i])
    ensures im.pixels <= rest ==> Parsed(Layout(im.width, im.height, gap1, blank, gap2, sep, rest)) == Some(im)
    ensures |rest| < |im.pixels| ==> Parsed(Layout(im.width, im.height, gap1, blank, gap2, sep, rest)) == None
  {
    var t := gap2 + (Dec(255) + ([sep] + rest));
    GapNotDigit(gap2, Dec(255) + ([sep] + rest));
    HeaderParsed(im.width, im.height, gap1, blank, t);
    BodyParsed(im, gap2, sep, rest);
  }

  /** `vpipe_write_pgm` lays its file out with single separators. */
  lemma WrittenLayout(im: Cv.Image, trailing: Bytes)
    ensures Written(im) + trailing
         == Layout(im.width, im.height, [NEWLINE], [SPACE], [NEWLINE], NEWLINE, im.pixels + trailing)
  {
  }

  /** Reading what was written returns the image, with any bytes appended. */
  lemma RoundTrip(im: Cv.Image, trailing: Bytes)
    requires Cv.WellFormed(im)
    ensures Parsed(Written(im) + trailing) == Some(im)
  {
    assert IsGap([NEWLINE]) by { assert [NEWLINE][1..] == []; assert IsGap([]); }
    WrittenLayout(im, trailing);
    ReadsAnyLayout(im, [NEWLINE], [SPACE], [NEWLINE], NEWLINE, im.pixels + trailing);
  }

  // ---- the bytes, one by one ----

  /** The file `vpipe_write_pgm` writes: P5, newline, width, blank, height, newline, 255, newline, pixels. */
  lemma WrittenBytes(im: Cv.Image)
    ensures Written(im) == [80, 53, 10] + Dec(im.width) + [32] + Dec(im.height) + [10, 50, 53, 53, 10] + im.pixels
  {
    assert Dec(255) == Dec(25) + [53] && Dec(25) == Dec(2) + [53];
    assert [10] + Dec(255) + [10] == [10, 50, 53, 53, 10];
  }

  /** A file that does not begin with P5 is refused. */
  lemma RefusesMagic(s: Bytes)
    requires |s| < 2 || s[0] != 80 || s[1] != 53
    ensures Parsed(s) == None
  {
  }

  /** A header with a side outside 1..4096 or another maximum than 255 is refused, whatever follows. */
  lemma RefusesHeader(w: u32, h: u32, max: u32, gap1: Bytes, blank: Bytes, gap2: Bytes, sep: u8, rest: Bytes)
    requires IsGap(gap1) && IsGap(gap2) && gap2 != [] && !IsDigit(sep)
    requires blank != [] && forall i :: 0 <= i < |blank| ==> IsSpace(blank[i])
    requires w == 0 || w > 4096 || h == 0 || h > 4096 || max != 255
    ensures Parsed([80, 53] + (gap1 + (Dec(w) + (blank + Dec(h) + (gap2 + (Dec(max) + ([sep] + rest))))))) == None
  {
    var t := gap2 + (Dec(max) + ([sep] + rest));
    GapNotDigit(gap2, Dec(max) + ([sep] + rest));
    var t1 := blank + Dec(h) + t;
    var s := [80, 53] + (gap1 + (Dec(w) + t1));
    assert s[2..] == gap1 + (Dec(w) + t1) && t1[0] == blank[0];
    NumberFollows(gap1, w, t1);
    ScanPrinted(blank, h, t);
    NumberFollows(gap2, max, [sep] + rest);
  }

  /** The six blanks of the C locale, and a comment from # to the end of its line. */
  lemma SkippedBytes(c: u8, line: Bytes, t: Bytes)
    requires 10 !in line
    ensures IsSpace(c) <==> c in [9, 10, 11, 12, 13, 32]
    ensures SkipSpace([35] + line + [10] + t) == SkipSpace(t)
    ensures IsSpace(c) ==> SkipSpace([c] + t) == SkipSpace(t)
    ensures !IsSpace(c) && c != 35 ==> SkipSpace([c] + t) == [c] + t
  {
    SkipSpaceUnfold(c, t);
    SkipSpaceUnfold(35, line + [10] + t);
    assert [35] + line + [10] + t == [35] + (line + [10] + t);
    LineEnds([35] + line, t);
    assert [35] + line + [10] + t == ([35] + line) + [10] + t;
  }

  lemma {:induction false} LineEnds(line: Bytes, t: Bytes)
    requires 10 !in line
    ensures AfterLine(line + [10] + t) == t
  {
    if line == [] {
      assert (line + [10] + t)[1..] == t;
    } else {
      assert (line + [10] + t)[1..] == line[1..] + [10] + t;
      LineEnds(line[1..], t);
    }
  }

  // ---- the imperative reader ----

  /** A `FILE` opened for reading. */
  class Stream {
    const data: Bytes
    var pos: nat

    ghost predicate Valid()
      reads this
    {
      pos <= |data|
    }

    /** What is left to read. */
    ghost function Rest(): Bytes
      requires Valid()
      reads this
    {
      data[pos..]
    }

    constructor (data: Bytes)
      ensures Valid() && Rest() == data && this.data == data
    {
      this.data := data;
      pos := 0;
    }

    /** `fgetc`; None is EOF. */
    method Getc() returns (c: Option<u8>)
      requires Valid()
      modifies this
      ensures Valid()
      ensures old(Rest()) == [] ==> c == None && pos == old(pos)
      ensures old(Rest()) != [] ==> c == Some(old(Rest())[0]) && Rest() == old(Rest())[1..] && pos == old(pos) + 1
    {
      if pos == |data| { return None; }
      c := Some(data[pos]);
      pos := pos + 1;
    }

    /** `ungetc` of the byte just read; pushing back EOF does nothing. */
    method Ungetc(c: Option<u8>)
      requires Valid() && (c.Some? ==> 0 < pos && data[pos - 1] == c.value)
      modifies this
      ensures Valid()
      ensures c.Some? ==> Rest() == [c.value] + old(Rest())
      ensures c.None? ==> Rest() == old(Rest())
    {
      if c.Some? { pos := pos - 1; }
    }

    /** The byte just read, if any, and what is left after it. */
    ghost function Ahead(c: Option<u8>): Bytes
      requires Valid()
      reads this
    {
      if c.Some? then [c.value] + Rest() else Rest()
    }

    /** `c` is the result of the last `Getc`. */
    ghost predicate JustRead(c: Option<u8>)
      requires Valid()
      reads this
    {
      if c.Some? then 0 < pos && data[pos - 1] == c.value else Rest() == []
    }

    /** The comment loop: read up to a newline or the end. */
    method SkipComment(first: Option<u8>) returns (c: Option<u8>)
      requires Valid() && JustRead(first) && first == Some(HASH)
      modifies this
      ensures Valid() && JustRead(c) && pos >= old(pos)
      ensures c == None || c == Some(NEWLINE)
      ensures Rest() == AfterLine(old(Ahead(first)))
    {
      c := first;
      while c.Some? && c.value != NEWLINE
        invariant Valid() && JustRead(c) && pos >= old(pos)
        invariant AfterLine(Ahead(c)) == AfterLine(old(Ahead(first)))
        decreases |data| - pos, if c.Some? then 1 else 0
      {
        assert Ahead(c)[1..] == Rest();
        ghost var rest := Rest();
        c := Getc();
        assert Ahead(c) == rest;
      }
      if c.Some? { assert Ahead(c)[1..] == Rest(); }
    }

    /** The body of the do loop of `vpipe_skip_space`: one byte, or one whole comment. */
    method ReadSignificant() returns (c: Option<u8>)
      requires Valid()
      modifies this
      ensures Valid() && JustRead(c) && (c.Some? ==> pos > old(pos))
      ensures c.Some? && IsSpace(c.value) ==> SkipSpace(Rest()) == SkipSpace(old(Rest()))
      ensures !(c.Some? && IsSpace(c.value)) ==> Ahead(c) == SkipSpace(old(Rest()))
    {
      ghost var all := Rest();
      c := Getc();
      assert Ahead(c) == all;
      if c.Some? { SkipSpaceUnfold(c.value, Rest()); }
      if c == Some(HASH) {
        c := SkipComment(c);
      }
    }

    /** `vpipe_skip_space` followed by its caller's `ungetc`. */
    method SkipSpaceAndUnget()
      requires Valid()
      modifies this
      ensures Valid() && Rest() == SkipSpace(old(Rest()))
    {
      ghost var all := SkipSpace(Rest());
      var c := ReadSignificant();
      while c.Some? && IsSpace(c.value)
        invariant Valid() && JustRead(c)
        invariant if c.Some? && IsSpace(c.value) then SkipSpace(Rest()) == all else Ahead(c) == all
        decreases |data| - pos, if c.Some? then 1 else 0
      {
        c := ReadSignificant();
      }
      Ungetc(c);
    }

    /** One `fscanf("%u")`. */
    method ScanUnsigned() returns (v: Option<u32>)
      requires Valid()
      modifies this
      ensures Valid()
      ensures v == match Scan(old(Rest())) { case None => None case Some(p) => Some(p.0) }
      ensures v.Some? ==> Rest() == Scan(old(Rest())).value.1
    {
      var r := Scan(data[pos..]);
      if r.None? { return None; }
      ScanSuffix(data[pos..]);
      pos := |data| - |r.value.1|;
      return Some(r.value.0);
    }

    /** `vpipe_read_pgm` */
    method ReadPgm() returns (im: Option<Cv.Image>)
      requires Valid()
      modifies this
      ensures Valid() && im == Parsed(old(Rest()))
    {
      ghost var all := Rest();
      var p := Getc();
      if p != Some(MAGIC[0]) { return None; }
      var five := Getc();
      if five != Some(MAGIC[1]) { return None; }
      assert Rest() == all[2..];
      SkipSpaceAndUnget();
      var w := ScanUnsigned();
      if w.None? { return None; }
      var h := ScanUnsigned();
      if h.None? { return None; }
      if w.value == 0 || h.value == 0 || w.value > Cv.MAX_DIM || h.value > Cv.MAX_DIM { return None; }
      im := ReadBody(w.value, h.value);
    }

    method ReadBody(w: Cv.Dim, h: Cv.Dim) returns (im: Option<Cv.Image>)
      requires Valid()
      modifies this
      ensures Valid() && im == ParsedBody(w, h, old(Rest()))
    {
      SkipSpaceAndUnget();
      var m := ScanUnsigned();
      if m.None? || m.value != 255 { return None; }
      var _ := Getc();
      Cv.FrameBytes(w, h);
      var size := w * h;
      if |data| - pos < size { return None; }
      im := Some(Cv.Image(w, h, data[pos..pos + size]));
      assert data[pos..][..size] == data[pos..pos + size];
    }
  }

  // ---- scanning leaves a suffix ----

  ghost predicate Suffix(r: Bytes, s: Bytes) { |r| <= |s| && r == s[|s| - |r|..] }

  lemma {:induction false} BlankSuffix(s: Bytes)
    ensures Suffix(SkipBlank(s), s)
  {
    if s != [] && IsSpace(s[0]) { BlankSuffix(s[1..]); }
  }

  lemma ScanSuffix(s: Bytes)
    requires Scan(s).Some?
    ensures Suffix(Scan(s).value.1, s)
  {
    BlankSuffix(s);
  }

  // ---- vpipe_write_diff_pgm ----

  /** The absolute difference of two images, or None when their sizes differ. */
  function Diff(lhs: Cv.Image, rhs: Cv.Image): (d: Option<Cv.Image>)
    requires Cv.WellFormed(lhs) && Cv.WellFormed(rhs)
    ensures d.Some? <==> lhs.width == rhs.width && lhs.height == rhs.height
    ensures d.Some? ==> Cv.WellFormed(d.value) && d.value.width == lhs.width && d.value.height == lhs.height
    ensures d.Some? ==> forall i :: 0 <= i < |d.value.pixels| ==> Apart(lhs.pixels[i], rhs.pixels[i], d.value.pixels[i])
  {
    if lhs.width != rhs.width || lhs.height != rhs.height then None
    else
      var n := |lhs.pixels|;
      Some(lhs.(pixels := seq(n, i requires 0 <= i < n => Delta(lhs.pixels[i], rhs.pixels[i]))))
  }

  function Delta(a: u8, b: u8): u8 { if a < b then b - a else a - b }

  /** Two pixels differ by `d`, one way or the other. */
  predicate Apart(a: u8, b: u8, d: u8) { a + d == b || b + d == a }

  method WriteDiff(lhs: Cv.Image, rhs: Cv.Image) returns (file: Option<Bytes>)
    requires Cv.WellFormed(lhs) && Cv.WellFormed(rhs)
    ensures file.Some? <==> lhs.width == rhs.width && lhs.height == rhs.height
    ensures file.Some? ==> file.value == Written(Diff(lhs, rhs).value)
  {
    if lhs.width != rhs.width || lhs.height != rhs.height { return None; }
    var size := |lhs.pixels|;
    var pixels := new u8[size];
    for i := 0 to size
      invariant forall k :: 0 <= k < i ==> pixels[k] == Delta(lhs.pixels[k], rhs.pixels[k])
    {
      var delta := (lhs.pixels[i] as int) - (rhs.pixels[i] as int);
      if delta < 0 {
        delta := -delta;
      }
      pixels[i] := delta;
    }
    assert pixels[..] == Diff(lhs, rhs).value.pixels;
    file := Some(Written(Cv.Image(lhs.width, lhs.height, pixels[..])));
  }

  /** The written diff reads back as the distances, all zero exactly when the two images are equal. */
  lemma DiffZeroIffEqual(lhs: Cv.Image, rhs: Cv.Image)
    requires Cv.WellFormed(lhs) && Cv.WellFormed(rhs) && Diff(lhs, rhs).Some?
    ensures Parsed(Written(Diff(lhs, rhs).value)).Some?
    ensures var back := Parsed(Written(Diff(lhs, rhs).value)).value;
      && |back.pixels| == |lhs.pixels| == |rhs.pixels|
      && (forall i :: 0 <= i < |back.pixels| ==> Apart(lhs.pixels[i], rhs.pixels[i], back.pixels[i]))
      && ((forall i :: 0 <= i < |back.pixels| ==> back.pixels[i] == 0) <==> lhs == rhs)
  {
    var d := Diff(lhs, rhs).value;
    RoundTrip(d, []);
    assert Written(d) + [] == Written(d);
    assert forall i :: 0 <= i < |d.pixels| ==> d.pixels[i] == Delta(lhs.pixels[i], rhs.pixels[i]);
    if forall i :: 0 <= i < |d.pixels| ==> d.pixels[i] == 0 {
      assert forall i :: 0 <= i < |lhs.pixels| ==> lhs.pixels[i] == rhs.pixels[i];
      assert lhs.pixels == rhs.pixels;
    }
  }
}
