/**
 * The self-describing test pattern shared by the producers (kmod/vpipe-vcam.c,
 * kmod/vpipe-synthetic.c) and the runner (user/vpipe-vcam-runner.c).
 */
module Gradient {
  import opened Base
  import Cv

  /** The pattern's byte at (x, y): 32-bit unsigned addition, low eight bits. */
  function PatternByte(x: nat, y: nat, offset: u32): u8 { (x + y + offset) % TWO32 % 256 }

  datatype Shape = Shape(width: nat, height: nat, stride: nat)

  ghost predicate ShapeFits(g: Shape, len: nat) {
    0 < g.width <= g.stride && 0 < g.height && g.height * g.stride <= len
  }

  /** `was` with the pattern painted over the frame of shape `g` when `rows` rows are done. */
  function Painted(was: seq<u8>, g: Shape, offset: u32, rows: nat): (r: seq<u8>)
    requires 0 < g.stride
    ensures |r| == |was|
  {
    seq(|was|, i requires 0 <= i < |was| =>
      if i % g.stride < g.width && i / g.stride < rows then PatternByte(i % g.stride, i / g.stride, offset) else was[i])
  }

  /** `was` with the whole pattern painted over the frame of shape `g`. */
  function Filled(was: seq<u8>, g: Shape, offset: u32): (r: seq<u8>)
    requires 0 < g.stride
    ensures |r| == |was|
  {
    Painted(was, g, offset, g.height)
  }

  method FillRow(dst: array<u8>, g: Shape, offset: u32, y: nat, ghost was: seq<u8>)
    requires ShapeFits(g, dst.Length) && y < g.height && |was| == dst.Length
    requires dst[..] == Painted(was, g, offset, y)
    modifies dst
    ensures dst[..] == Painted(was, g, offset, y + 1)
  {
    Cv.PixelBound(g.width - 1, y, g.width, g.height, g.stride);
    var row := y * g.stride;
    assert row + g.width <= dst.Length;
    ghost var before := dst[..];
    for x := 0 to g.width
      invariant forall i :: 0 <= i < dst.Length ==>
        dst[i] == (if row <= i < row + x then PatternByte(i - row, y, offset) else before[i])
    {
      dst[row + x] := (x + y + offset) % TWO32 % 256;
    }
    PaintedAddsRow(was, g, offset, y, row, dst[..]);
  }

  lemma PaintedAddsRow(was: seq<u8>, g: Shape, offset: u32, y: nat, row: nat, after: seq<u8>)
    requires 0 < g.width <= g.stride && row == y * g.stride && |after| == |was|
    requires forall i :: 0 <= i < |was| ==>
      after[i] == (if row <= i < row + g.width then PatternByte(i - row, y, offset) else Painted(was, g, offset, y)[i])
    ensures after == Painted(was, g, offset, y + 1)
  {
    forall i | 0 <= i < |was|
      ensures after[i] == Painted(was, g, offset, y + 1)[i]
    {
      Cv.RowOfIndex(i, y, g.stride);
    }
  }

  /** `synthetic_fill_gradient`; `vcam_fill_gradient` and `fill_gradient` when `stamp` is set. */
  method Fill(dst: array<u8>, g: Shape, offset: u32, stamp: bool)
    requires ShapeFits(g, dst.Length)
    modifies dst
    ensures dst[..] == Filled(old(dst[..]), g, offset)
  {
    ghost var was := dst[..];
    assert dst[..] == Painted(was, g, offset, 0);
    for y := 0 to g.height
      invariant dst[..] == Painted(was, g, offset, y)
    {
      FillRow(dst, g, offset, y, was);
    }
    if stamp {
      StampIsFirstPixel(was, g, offset);
      dst[0] := offset % 256;
    }
  }

  /** Writing the offset's low byte into pixel 0 changes nothing: it is already there. */
  lemma StampIsFirstPixel(was: seq<u8>, g: Shape, offset: u32)
    requires ShapeFits(g, |was|)
    ensures 0 < |was| && Filled(was, g, offset)[0] == offset % 256
  {
    Cv.PixelBound(0, 0, g.width, g.height, g.stride);
    Cv.RowOfIndex(0, 0, g.stride);
  }

  // ---- recognising the pattern ----

  /** A frame of this shape that is the pattern for some offset. */
  ghost predicate IsPattern(cap: seq<u8>, g: Shape, offset: u32)
    requires ShapeFits(g, |cap|)
  {
    Filled(cap, g, offset) == cap
  }

  lemma LowByte(a: nat)
    ensures a % TWO32 % 256 == a % 256
  {
    var q := a / TWO32;
    assert a == a % TWO32 + 256 * (0x100_0000 * q);
    AddMultiple(a % TWO32, 0x100_0000 * q);
  }

  lemma AddMultiple(a: nat, q: nat)
    ensures (a + 256 * q) % 256 == a % 256
  {
    assert a == 256 * (a / 256) + a % 256;
    assert (a + 256 * q) / 256 == a / 256 + q;
  }

  function Pixel(cap: seq<u8>, g: Shape, x: nat, y: nat): u8
    requires ShapeFits(g, |cap|) && x < g.width && y < g.height
  {
    Cv.PixelBound(x, y, g.width, g.height, g.stride);
    cap[y * g.stride + x]
  }

  lemma FilledPixel(was: seq<u8>, g: Shape, offset: u32, x: nat, y: nat)
    requires ShapeFits(g, |was|) && x < g.width && y < g.height
    ensures Pixel(Filled(was, g, offset), g, x, y) == (x + y + offset) % 256
  {
    Cv.PixelBound(x, y, g.width, g.height, g.stride);
    Cv.RowOfIndex(y * g.stride + x, y, g.stride);
    LowByte(x + y + offset);
  }

  lemma PixelOfIndex(cap: seq<u8>, g: Shape, i: nat)
    requires ShapeFits(g, |cap|) && i < |cap| && i % g.stride < g.width && i / g.stride < g.height
    ensures Pixel(cap, g, i % g.stride, i / g.stride) == cap[i]
  {
    Cv.RowOfIndex(i, i / g.stride, g.stride);
  }

  /** What the pattern is, pixel by pixel: the sum of column, row and offset modulo 256. */
  lemma PatternPixels(cap: seq<u8>, g: Shape, offset: u32)
    requires ShapeFits(g, |cap|)
    ensures IsPattern(cap, g, offset) <==>
      forall x: nat, y: nat :: x < g.width && y < g.height ==> Pixel(cap, g, x, y) == (x + y + offset) % 256
  {
    var filled := Filled(cap, g, offset);
    forall x: nat, y: nat | x < g.width && y < g.height
      ensures Pixel(filled, g, x, y) == (x + y + offset) % 256
    {
      FilledPixel(cap, g, offset, x, y);
    }
    if forall x: nat, y: nat :: x < g.width && y < g.height ==> Pixel(cap, g, x, y) == Pixel(filled, g, x, y) {
      forall i | 0 <= i < |cap|
        ensures filled[i] == cap[i]
      {
        var x, y := i % g.stride, i / g.stride;
        Cv.RowOfIndex(i, 0, g.stride);
        if x < g.width && y < g.height { SamePixel(cap, filled, g, i, x, y); }
      }
    }
  }

  lemma SamePixel(a: seq<u8>, b: seq<u8>, g: Shape, i: nat, x: nat, y: nat)
    requires ShapeFits(g, |a|) && |b| == |a| && i < |a|
    requires x == i % g.stride && y == i / g.stride && x < g.width && y < g.height
    requires Pixel(a, g, x, y) == Pixel(b, g, x, y)
    ensures a[i] == b[i]
  {
    PixelOfIndex(a, g, i);
    PixelOfIndex(b, g, i);
  }

  /** Painting leaves a pattern, and row padding and whatever follows the frame as they were. */
  lemma FilledPattern(was: seq<u8>, g: Shape, offset: u32)
    requires ShapeFits(g, |was|)
    ensures IsPattern(Filled(was, g, offset), g, offset) && OutsideKept(was, Filled(was, g, offset), g)
  {
    forall i | 0 <= i < |was| && (i % g.stride >= g.width || i >= g.height * g.stride)
      ensures Filled(was, g, offset)[i] == was[i]
    {
      Cv.RowOfIndex(i, g.height, g.stride);
    }
  }

  /** Bytes outside the frame's pixels are the same in both planes. */
  ghost predicate OutsideKept(was: seq<u8>, now: seq<u8>, g: Shape)
    requires 0 < g.stride
  {
    |now| == |was| &&
    forall i :: 0 <= i < |was| && (i % g.stride >= g.width || i >= g.height * g.stride) ==> now[i] == was[i]
  }

  /** Only the low byte of the offset shows. */
  lemma OffsetLowByte(x: nat, y: nat, offset: u32)
    ensures PatternByte(x, y, offset) == PatternByte(x, y, offset % 256)
  {
    LowByte(x + y + offset);
    LowByte(x + y + offset % 256);
    AddMultiple(x + y + offset % 256, offset / 256);
  }

  /** `verify_gradient`: accepts a frame exactly when some 32-bit offset generates it. */
  method Verify(cap: seq<u8>, g: Shape) returns (ok: bool)
    requires ShapeFits(g, |cap|)
    ensures ok <==> exists offset: u32 :: IsPattern(cap, g, offset)
  {
    Cv.PixelBound(0, 0, g.width, g.height, g.stride);
    ok := VerifyRows(cap, g);
    if ok { PatternWhenRowsMatch(cap, g, cap[0]); }
  }

  method VerifyRows(cap: seq<u8>, g: Shape) returns (ok: bool)
    requires ShapeFits(g, |cap|) && 0 < |cap|
    ensures ok ==> RowsMatch(cap, g, cap[0], g.height)
    ensures !ok ==> forall offset: u32 :: !IsPattern(cap, g, offset)
  {
    var offset: u32 := cap[0];
    NoRowsMatch(cap, g, offset);
    for y := 0 to g.height
      invariant RowsMatch(cap, g, offset, y)
    {
      var good := VerifyRow(cap, g, offset, y);
      if !good {
        NotPattern(cap, g, y);
        return false;
      }
      RowsMatchStep(cap, g, offset, y);
    }
    return true;
  }

  lemma NoRowsMatch(cap: seq<u8>, g: Shape, offset: u32)
    requires 0 < g.stride
    ensures RowsMatch(cap, g, offset, 0)
  {
    forall i | 0 <= i < |cap|
      ensures i / g.stride >= 0
    {
      Cv.RowOfIndex(i, 0, g.stride);
    }
  }

  lemma RowsMatchStep(cap: seq<u8>, g: Shape, offset: u32, y: nat)
    requires 0 < g.stride && RowsMatch(cap, g, offset, y) && RowMatches(cap, g, offset, y)
    ensures RowsMatch(cap, g, offset, y + 1)
  {
  }

  /** Every pixel above row `rows` is the pattern's. */
  ghost predicate RowsMatch(cap: seq<u8>, g: Shape, offset: u32, rows: nat)
    requires 0 < g.stride
  {
    forall i :: 0 <= i < |cap| && i % g.stride < g.width && i / g.stride < rows ==>
      cap[i] == PatternByte(i % g.stride, i / g.stride, offset)
  }

  ghost predicate RowMatches(cap: seq<u8>, g: Shape, offset: u32, y: nat)
    requires 0 < g.stride
  {
    forall i :: 0 <= i < |cap| && i % g.stride < g.width && i / g.stride == y ==>
      cap[i] == PatternByte(i % g.stride, i / g.stride, offset)
  }

  method VerifyRow(cap: seq<u8>, g: Shape, offset: u32, y: nat) returns (ok: bool)
    requires ShapeFits(g, |cap|) && y < g.height
    ensures ok <==> RowMatches(cap, g, offset, y)
  {
    Cv.PixelBound(g.width - 1, y, g.width, g.height, g.stride);
    var row := y * g.stride;
    for x := 0 to g.width
      invariant forall i :: row <= i < row + x ==> cap[i] == PatternByte(i - row, y, offset)
    {
      var want := (x + y + offset) % TWO32 % 256;
      if cap[row + x] != want {
        Cv.RowOfIndex(row + x, y, g.stride);
        return false;
      }
    }
    forall i | 0 <= i < |cap| && i % g.stride < g.width && i / g.stride == y
      ensures cap[i] == PatternByte(i % g.stride, i / g.stride, offset)
    {
      Cv.RowOfIndex(i, y, g.stride);
    }
    return true;
  }

  lemma PatternWhenRowsMatch(cap: seq<u8>, g: Shape, offset: u32)
    requires ShapeFits(g, |cap|) && RowsMatch(cap, g, offset, g.height)
    ensures IsPattern(cap, g, offset)
  {
  }

  /** A row that contradicts the offset in pixel 0 contradicts every offset. */
  lemma NotPattern(cap: seq<u8>, g: Shape, y: nat)
    requires ShapeFits(g, |cap|) && 0 < |cap| && y < g.height && !RowMatches(cap, g, cap[0], y)
    ensures forall offset: u32 :: !IsPattern(cap, g, offset)
  {
    forall offset: u32
      ensures !IsPattern(cap, g, offset)
    {
      if IsPattern(cap, g, offset) {
        StampIsFirstPixel(cap, g, offset);
        forall i | 0 <= i < |cap| && i % g.stride < g.width && i / g.stride == y
          ensures cap[i] == PatternByte(i % g.stride, i / g.stride, cap[0])
        {
          assert Filled(cap, g, offset)[i] == cap[i];
          OffsetLowByte(i % g.stride, i / g.stride, offset);
        }
        assert false;
      }
    }
  }

  /** A plane whose frame bytes were copied from a painted buffer is a pattern. */
  lemma CopiedPattern(was: seq<u8>, plane: seq<u8>, g: Shape, offset: u32)
    requires ShapeFits(g, |was|) && ShapeFits(g, |plane|)
    requires plane[..g.height * g.stride] == Filled(was, g, offset)[..g.height * g.stride]
    ensures IsPattern(plane, g, offset)
  {
    forall i | 0 <= i < |plane|
      ensures Filled(plane, g, offset)[i] == plane[i]
    {
      Cv.RowOfIndex(i, g.height, g.stride);
      if i < g.height * g.stride { assert plane[i] == plane[..g.height * g.stride][i]; }
    }
  }
}
