/**
 * Kernel image work of kmod/vpipe-cv.c and its userspace reference in user/vpipe-common.c:
 * two formulations of the ROI clamp, and the copy and threshold loops over strided planes.
 */
module Cv {
  import opened Base

  /** Largest frame side (`vpipe_fill_pix_format`, VPIPE_PGM_MAX_DIM). */
  const MAX_DIM := 4096

  type Dim = d: int | 1 <= d <= MAX_DIM witness 1

  datatype Roi = Roi(left: s32, top: s32, width: s32, height: s32)

  predicate Inside(r: Roi, x: int, y: int) {
    r.left <= x < r.left + r.width && r.top <= y < r.top + r.height
  }

  function FullFrame(fw: Dim, fh: Dim): Roi { Roi(0, 0, fw, fh) }

  // ---- the two clamps ----

  /** `vpipe_clamp_roi`: clamp the origin, then clamp the far edge in 64 bits. */
  function KernelClamp(fw: Dim, fh: Dim, roi: Option<Roi>): (r: Roi)
    ensures 0 <= r.left && 0 <= r.width && r.left + r.width <= fw
    ensures 0 <= r.top && 0 <= r.height && r.top + r.height <= fh
  {
    if roi.None? || roi.value.width <= 0 || roi.value.height <= 0 then FullFrame(fw, fh)
    else
      var left := Clamp(roi.value.left, 0, fw);
      var top := Clamp(roi.value.top, 0, fh);
      var right := Clamp(left + roi.value.width, left, fw);
      var bottom := Clamp(top + roi.value.height, top, fh);
      Roi(left, top, right - left, bottom - top)
  }

  datatype Bounds = Bounds(left: u32, top: u32, right: u32, bottom: u32)

  function Sub32(a: u32, b: u32): u32 { (a - b) % TWO32 }

  function Add32(a: u32, b: u32): u32 { (a + b) % TWO32 }

  /** The reference's clamp: unsigned comparisons and subtractions, wrapping as C does. */
  function ReferenceBounds(w: Dim, h: Dim, roi: Roi): Bounds {
    if roi.width <= 0 || roi.height <= 0 then Bounds(0, 0, w, h)
    else
      var left: u32 := if roi.left < 0 then 0 else if roi.left > w then w else roi.left;
      var top: u32 := if roi.top < 0 then 0 else if roi.top > h then h else roi.top;
      var right := if roi.width > Sub32(w, left) then w else Add32(left, roi.width);
      var bottom := if roi.height > Sub32(h, top) then h else Add32(top, roi.height);
      Bounds(left, top, right, bottom)
  }

  /** The two clamps select the same rectangle for every signed 32-bit request. */
  lemma ClampsAgree(w: Dim, h: Dim, roi: Roi)
    ensures var k, b := KernelClamp(w, h, Some(roi)), ReferenceBounds(w, h, roi);
      b.left == k.left && b.top == k.top && b.right == k.left + k.width && b.bottom == k.top + k.height
  {
  }

  /** The clamped rectangle is the part of the request that lies in the frame. */
  ghost predicate SelectsIntersection(fw: Dim, fh: Dim, roi: Roi) {
    var k := KernelClamp(fw, fh, Some(roi));
    forall x, y :: Inside(k, x, y) <==> Inside(roi, x, y) && Inside(FullFrame(fw, fh), x, y)
  }

  /** Along one axis: the request starts in the frame or reaches its far edge. */
  predicate EdgeKept(start: int, extent: int, size: int) { start >= 0 || start + extent >= size }

  /**
   * The clamp selects the intersection of request and frame exactly when the request has an
   * extent and lies past the frame, or on both axes starts at a non-negative coordinate or
   * reaches the far edge.
   */
  lemma ClampIsIntersection(fw: Dim, fh: Dim, roi: Roi)
    ensures SelectsIntersection(fw, fh, roi) <==>
      && roi.width > 0 && roi.height > 0
      && (roi.left >= fw || roi.top >= fh || (EdgeKept(roi.left, roi.width, fw) && EdgeKept(roi.top, roi.height, fh)))
  {
    var k := KernelClamp(fw, fh, Some(roi));
    var x, y := k.left + k.width - 1, k.top + k.height - 1;
    assert SelectsIntersection(fw, fh, roi) && k.width > 0 && k.height > 0 ==> Inside(k, x, y) && Inside(roi, x, y);
  }

  /** A request that sticks out to the left by 2 of its 4 columns still selects 4 columns of a 10x10 frame. */
  lemma ClampKeepsExtent()
    ensures var roi := Roi(-2, 0, 4, 4);
      && KernelClamp(10, 10, Some(roi)) == Roi(0, 0, 4, 4) && !SelectsIntersection(10, 10, roi)
  {
    ClampIsIntersection(10, 10, Roi(-2, 0, 4, 4));
  }

  /** A negative origin is moved to 0 and the requested extent is kept, not trimmed. */
  lemma NegativeOriginShifts(fw: Dim, fh: Dim, roi: Roi)
    requires roi.width > 0 && roi.height > 0
    ensures var k := KernelClamp(fw, fh, Some(roi));
      && k == KernelClamp(fw, fh, Some(roi.(left := Max(roi.left, 0), top := Max(roi.top, 0))))
      && (roi.left <= 0 ==> k.width == Min(roi.width, fw))
      && (roi.top <= 0 ==> k.height == Min(roi.height, fh))
  {
  }

  /** Without a request, or with one that has no extent, the whole frame is selected. */
  lemma NoExtentSelectsFrame(fw: Dim, fh: Dim, roi: Option<Roi>)
    ensures KernelClamp(fw, fh, roi) == Roi(0, 0, fw, fh) <==>
      || roi.None? || roi.value.width <= 0 || roi.value.height <= 0
      || (roi.value.left <= 0 && roi.value.top <= 0 && roi.value.width >= fw && roi.value.height >= fh)
  {
  }

  /** Clamping twice changes nothing exactly when the first result is non-empty. */
  lemma ReclampIdentity(fw: Dim, fh: Dim, roi: Option<Roi>)
    ensures var k := KernelClamp(fw, fh, roi);
      KernelClamp(fw, fh, Some(k)) == k <==> k.width > 0 && k.height > 0
  {
  }

  /**
   * When the clamped rectangle is empty: exactly for a positive request whose origin lies
   * at or beyond the right or bottom edge.
   */
  lemma EmptyExactly(fw: Dim, fh: Dim, roi: Roi)
    ensures var k := KernelClamp(fw, fh, Some(roi));
      (k.width == 0 || k.height == 0) <==>
      roi.width > 0 && roi.height > 0 && (roi.left >= fw || roi.top >= fh)
  {
  }

  // ---- frames in strided planes ----

  datatype Geometry = Geometry(width: Dim, height: Dim, srcStride: nat, dstStride: nat)

  /** Planes hold the strided frame, and 32-bit offsets into them do not wrap. */
  predicate Fits(g: Geometry, srcLen: nat, dstLen: nat) {
    && g.width <= g.srcStride && g.width <= g.dstStride
    && g.height * g.srcStride <= srcLen < TWO32
    && g.height * g.dstStride <= dstLen < TWO32
  }

  lemma PixelBound(x: nat, y: nat, w: nat, h: nat, stride: nat)
    requires x < w <= stride && y < h
    ensures 0 <= y * stride + x < h * stride
  {
    assert (y + 1) * stride <= h * stride;
  }

  /** Row `y` of a plane is a run of `stride` bytes. */
  lemma RowOfIndex(i: nat, y: nat, stride: nat)
    requires 0 < stride
    ensures i / stride == y <==> y * stride <= i < y * stride + stride
    ensures i / stride == y ==> i % stride == i - y * stride
    ensures i / stride < y <==> i < y * stride
  {
    var q := i / stride;
    assert i == q * stride + i % stride;
    if q < y {
      assert (q + 1) * stride <= y * stride;
    } else if q > y {
      assert (y + 1) * stride <= q * stride;
    }
  }

  /** The destination byte for a source pixel: thresholded where `mark`, copied elsewhere. */
  function PixelOut(p: u8, threshold: u32, mark: bool): u8 {
    if mark then (if p > threshold then 255 else 0) else p
  }

  function PixelAt(src: seq<u8>, g: Geometry, x: nat, y: nat): u8
    requires g.width <= g.srcStride && g.height * g.srcStride <= |src|
    requires x < g.width && y < g.height
  {
    PixelBound(x, y, g.width, g.height, g.srcStride);
    src[y * g.srcStride + x]
  }

  /** Byte `i` of the destination plane when `roi` has been thresholded above row `rows`. */
  function ByteOut(src: seq<u8>, dst: seq<u8>, g: Geometry, threshold: u32, roi: Roi, rows: int, i: nat): u8
    requires Fits(g, |src|, |dst|) && i < |dst|
  {
    var x, y := i % g.dstStride, i / g.dstStride;
    if x < g.width && y < g.height then PixelOut(PixelAt(src, g, x, y), threshold, Inside(roi, x, y) && y < rows)
    else dst[i]
  }

  function PlaneOut(src: seq<u8>, dst: seq<u8>, g: Geometry, threshold: u32, roi: Roi, rows: int): (r: seq<u8>)
    requires Fits(g, |src|, |dst|)
    ensures |r| == |dst|
  {
    seq(|dst|, i requires 0 <= i < |dst| => ByteOut(src, dst, g, threshold, roi, rows, i))
  }

  const NO_ROI := Roi(0, 0, 0, 0)

  /** The frame copied from `src`, all else in `dst` kept. */
  function Copied(src: seq<u8>, dst: seq<u8>, g: Geometry): (r: seq<u8>)
    requires Fits(g, |src|, |dst|)
    ensures |r| == |dst|
  {
    PlaneOut(src, dst, g, 0, NO_ROI, 0)
  }

  /** The frame copied from `src` and thresholded inside `roi`, all else in `dst` kept. */
  function Thresholded(src: seq<u8>, dst: seq<u8>, g: Geometry, threshold: u32, roi: Roi): (r: seq<u8>)
    requires Fits(g, |src|, |dst|)
    ensures |r| == |dst|
  {
    PlaneOut(src, dst, g, threshold, roi, g.height)
  }

  ghost predicate RoiFits(g: Geometry, roi: Roi) {
    && 0 <= roi.left && 0 <= roi.width && roi.left + roi.width <= g.width
    && 0 <= roi.top && 0 <= roi.height && roi.top + roi.height <= g.height
  }

  function Area(rows: nat, width: nat): nat { if rows == 0 then 0 else Area(rows - 1, width) + width }

  lemma {:induction false} AreaIsProduct(rows: nat, width: nat)
    ensures Area(rows, width) == rows * width
  {
    if rows > 0 {
      AreaIsProduct(rows - 1, width);
      OneMoreRow(rows - 1, width);
    }
  }

  lemma OneMoreRow(rows: int, width: int)
    ensures (rows + 1) * width == rows * width + width
  {
  }

  /** How many of columns left..right of the row starting at `s` are above the threshold. */
  function RowCount(src: seq<u8>, s: nat, left: nat, right: nat, threshold: u32): (c: nat)
    requires left <= right && s + right <= |src|
    ensures c <= right - left
    decreases right
  {
    if left == right then 0
    else RowCount(src, s, left, right - 1, threshold) + if src[s + right - 1] > threshold then 1 else 0
  }

  /** How many pixels of `roi` above row `rows` are above the threshold. */
  function RoiCount(src: seq<u8>, g: Geometry, threshold: u32, roi: Roi, rows: nat): (c: nat)
    requires g.width <= g.srcStride && g.height * g.srcStride <= |src|
    requires RoiFits(g, roi) && roi.top <= rows <= roi.top + roi.height
    ensures c <= Area(rows - roi.top, roi.width)
  {
    if rows == roi.top then 0
    else
      PixelBound(g.width - 1, rows - 1, g.width, g.height, g.srcStride);
      RoiCount(src, g, threshold, roi, rows - 1)
      + RowCount(src, (rows - 1) * g.srcStride, roi.left, roi.left + roi.width, threshold)
  }

  datatype CvResult = CvResult(status: nat, value0: nat, value1: nat, roi: Roi)

  /** `vpipe_cv_process` on values: the new destination and the result, or None for -EINVAL. */
  function Processed(src: seq<u8>, dst: seq<u8>, g: Geometry, algo: int, threshold: u32, roi: Option<Roi>)
    : (r: Option<(seq<u8>, CvResult)>)
    requires Fits(g, |src|, |dst|)
    ensures r.Some? <==> algo == ALGO_NONE || algo == ALGO_THRESHOLD
    ensures r.Some? ==> |r.value.0| == |dst|
  {
    var k := KernelClamp(g.width, g.height, roi);
    if algo == ALGO_NONE then Some((Copied(src, dst, g), CvResult(0, 0, 0, k)))
    else if algo == ALGO_THRESHOLD then
      var white := RoiCount(src, g, threshold, k, k.top + k.height);
      AreaIsProduct(k.height, k.width);
      Some((Thresholded(src, dst, g, threshold, k), CvResult(0, white, k.width * k.height - white, k)))
    else None
  }

  const ALGO_NONE := 0
  const ALGO_THRESHOLD := 1

  /** The pixels of `roi`. */
  ghost function RoiPixels(roi: Roi): set<(int, int)> {
    set x, y | roi.left <= x < roi.left + roi.width && roi.top <= y < roi.top + roi.height :: (x, y)
  }

  /** The pixels of `roi` above the threshold. */
  ghost function White(src: seq<u8>, g: Geometry, threshold: u32, roi: Roi): set<(int, int)>
    requires g.width <= g.srcStride && g.height * g.srcStride <= |src| && RoiFits(g, roi)
  {
    set p | p in RoiPixels(roi) && PixelAt(src, g, p.0, p.1) > threshold
  }

  /** The pixels of columns left..right of row `y`, which starts at `s`, above the threshold. */
  ghost function RowWhite(src: seq<u8>, s: nat, left: nat, right: nat, threshold: u32, y: int): set<(int, int)>
    requires s + right <= |src|
  {
    set x | left <= x < right && src[s + x] > threshold :: (x, y)
  }

  lemma {:induction false} RowCard(src: seq<u8>, s: nat, left: nat, right: nat, threshold: u32, y: int)
    requires left <= right && s + right <= |src|
    ensures |RowWhite(src, s, left, right, threshold, y)| == RowCount(src, s, left, right, threshold)
    decreases right
  {
    var row := RowWhite(src, s, left, right, threshold, y);
    if left == right {
      assert row == {};
    } else {
      RowCard(src, s, left, right - 1, threshold, y);
      var rest := RowWhite(src, s, left, right - 1, threshold, y);
      assert row == if src[s + right - 1] > threshold then rest + {(right - 1, y)} else rest;
    }
  }

  /** White pixels of the ROI above row `y + 1` are those above row `y` and those of row `y`. */
  lemma LastRow(src: seq<u8>, g: Geometry, threshold: u32, roi: Roi, s: nat)
    requires g.width <= g.srcStride && g.height * g.srcStride <= |src| && RoiFits(g, roi) && roi.height > 0
    requires s == (roi.top + roi.height - 1) * g.srcStride && s + g.width <= |src|
    ensures |White(src, g, threshold, roi)|
         == |White(src, g, threshold, roi.(height := roi.height - 1))|
          + |RowWhite(src, s, roi.left, roi.left + roi.width, threshold, roi.top + roi.height - 1)|
  {
    var y, rest := roi.top + roi.height - 1, roi.(height := roi.height - 1);
    var row := RowWhite(src, s, roi.left, roi.left + roi.width, threshold, y);
    forall p
      ensures p in White(src, g, threshold, roi) <==> p in White(src, g, threshold, rest) || p in row
      ensures !(p in White(src, g, threshold, rest) && p in row)
    {
      InWhite(src, g, threshold, roi, p);
      InWhite(src, g, threshold, rest, p);
      InRowWhite(src, s, roi.left, roi.left + roi.width, threshold, y, p);
      if p.1 == y && roi.left <= p.0 < roi.left + roi.width { assert PixelAt(src, g, p.0, y) == src[s + p.0]; }
    }
    SplitCard(White(src, g, threshold, roi), White(src, g, threshold, rest), row);
  }

  lemma SplitCard(all: set<(int, int)>, a: set<(int, int)>, b: set<(int, int)>)
    requires forall p :: p in all <==> p in a || p in b
    requires forall p :: !(p in a && p in b)
    ensures |all| == |a| + |b|
  {
    assert all == a + b && a !! b;
  }

  lemma InWhite(src: seq<u8>, g: Geometry, threshold: u32, roi: Roi, p: (int, int))
    requires g.width <= g.srcStride && g.height * g.srcStride <= |src| && RoiFits(g, roi)
    ensures p in White(src, g, threshold, roi) <==> Inside(roi, p.0, p.1) && PixelAt(src, g, p.0, p.1) > threshold
  {
  }

  lemma InRowWhite(src: seq<u8>, s: nat, left: nat, right: nat, threshold: u32, y: int, p: (int, int))
    requires s + right <= |src|
    ensures p in RowWhite(src, s, left, right, threshold, y) <==>
      left <= p.0 < right && p.1 == y && src[s + p.0] > threshold
  {
  }

  lemma {:induction false} RoiCard(src: seq<u8>, g: Geometry, threshold: u32, roi: Roi)
    requires g.width <= g.srcStride && g.height * g.srcStride <= |src| && RoiFits(g, roi)
    ensures |White(src, g, threshold, roi)| == RoiCount(src, g, threshold, roi, roi.top + roi.height)
    decreases roi.height
  {
    if roi.height == 0 {
      assert White(src, g, threshold, roi) == {};
    } else {
      var y := roi.top + roi.height - 1;
      var rest := roi.(height := roi.height - 1);
      RoiCard(src, g, threshold, rest);
      SameCount(src, g, threshold, roi, rest, y);
      var s := RowStart(src, g, threshold, roi, y);
      LastRow(src, g, threshold, roi, s);
      RowCard(src, s, roi.left, roi.left + roi.width, threshold, y);
    }
  }

  /** Where row `y` starts, and its share of the count. */
  lemma RowStart(src: seq<u8>, g: Geometry, threshold: u32, roi: Roi, y: nat) returns (s: nat)
    requires g.width <= g.srcStride && g.height * g.srcStride <= |src|
    requires RoiFits(g, roi) && roi.top <= y < roi.top + roi.height
    ensures s == y * g.srcStride && s + g.width <= |src|
    ensures RoiCount(src, g, threshold, roi, y + 1)
         == RoiCount(src, g, threshold, roi, y) + RowCount(src, s, roi.left, roi.left + roi.width, threshold)
  {
    PixelBound(g.width - 1, y, g.width, g.height, g.srcStride);
    s := y * g.srcStride;
  }

  lemma {:induction false} RoiArea(roi: Roi)
    requires RoiFits(Geometry(MAX_DIM, MAX_DIM, 0, 0), roi)
    ensures |RoiPixels(roi)| == Area(roi.height, roi.width)
    decreases roi.height
  {
    if roi.height == 0 {
      assert RoiPixels(roi) == {};
    } else {
      var rest, last := roi.(height := roi.height - 1), roi.(top := roi.top + roi.height - 1, height := 1);
      RoiArea(rest);
      RowArea(last);
      assert RoiPixels(roi) == RoiPixels(rest) + RoiPixels(last) && RoiPixels(rest) !! RoiPixels(last);
    }
  }

  lemma {:induction false} RowArea(roi: Roi)
    requires RoiFits(Geometry(MAX_DIM, MAX_DIM, 0, 0), roi) && roi.height == 1
    ensures |RoiPixels(roi)| == roi.width
    decreases roi.width
  {
    if roi.width == 0 {
      assert RoiPixels(roi) == {};
    } else {
      var rest := roi.(width := roi.width - 1);
      RowArea(rest);
      assert RoiPixels(roi) == RoiPixels(rest) + {(roi.left + roi.width - 1, roi.top)};
    }
  }

  lemma {:induction false} SameCount(src: seq<u8>, g: Geometry, threshold: u32, roi: Roi, rest: Roi, rows: nat)
    requires g.width <= g.srcStride && g.height * g.srcStride <= |src| && RoiFits(g, roi) && RoiFits(g, rest)
    requires rest == roi.(height := rest.height) && roi.top <= rows <= roi.top + rest.height <= roi.top + roi.height
    ensures RoiCount(src, g, threshold, roi, rows) == RoiCount(src, g, threshold, rest, rows)
    decreases rows
  {
    if rows > roi.top { SameCount(src, g, threshold, roi, rest, rows - 1); }
  }

  /**
   * The counters of a threshold job: value0 is the number of pixels of the clamped ROI above
   * the threshold, value1 the number of those that are not.
   */
  lemma CountsPartitionRoi(src: seq<u8>, dst: seq<u8>, g: Geometry, threshold: u32, roi: Option<Roi>)
    requires Fits(g, |src|, |dst|)
    ensures var k := KernelClamp(g.width, g.height, roi);
      var white := White(src, g, threshold, k);
      var r := Processed(src, dst, g, ALGO_THRESHOLD, threshold, roi).value.1;
      r.value0 == |white| && r.value1 == |RoiPixels(k) - white| && r.value0 + r.value1 == k.width * k.height
  {
    var k := KernelClamp(g.width, g.height, roi);
    RoiCard(src, g, threshold, k);
    RoiArea(k);
    AreaIsProduct(k.height, k.width);
    var white := White(src, g, threshold, k);
    assert RoiPixels(k) == white + (RoiPixels(k) - white);
  }

  // ---- the kernel loops ----

  /** The `memcpy` of one row. */
  method CopyRow(src: array<u8>, dst: array<u8>, s: nat, d: nat, n: nat)
    requires src != dst && s + n <= src.Length && d + n <= dst.Length
    modifies dst
    ensures forall i :: 0 <= i < dst.Length ==> dst[i] == if d <= i < d + n then src[s + i - d] else old(dst[i])
  {
    for x := 0 to n
      invariant forall i :: 0 <= i < dst.Length ==> dst[i] == if d <= i < d + x then src[s + i - d] else old(dst[i])
    {
      dst[d + x] := src[s + x];
    }
  }

  /** The plane when rows above `rows` have been copied. */
  ghost predicate RowsCopied(src: seq<u8>, was: seq<u8>, g: Geometry, rows: nat, dst: seq<u8>)
    requires Fits(g, |src|, |was|)
  {
    |dst| == |was| && forall i :: 0 <= i < |dst| ==>
      dst[i] == if i / g.dstStride < rows then ByteOut(src, was, g, 0, NO_ROI, 0, i) else was[i]
  }

  lemma OneRowCopied(src: seq<u8>, was: seq<u8>, g: Geometry, row: nat, before: seq<u8>, after: seq<u8>)
    requires Fits(g, |src|, |was|) && row < g.height && row * g.srcStride + g.width <= |src|
    requires RowsCopied(src, was, g, row, before) && |after| == |before|
    requires var s, d := row * g.srcStride, row * g.dstStride;
      forall i :: 0 <= i < |after| ==> after[i] == if d <= i < d + g.width then src[s + i - d] else before[i]
    ensures RowsCopied(src, was, g, row + 1, after)
  {
    forall i | 0 <= i < |after|
      ensures after[i] == if i / g.dstStride < row + 1 then ByteOut(src, was, g, 0, NO_ROI, 0, i) else was[i]
    {
      RowOfIndex(i, row, g.dstStride);
      assert before[i] == if i / g.dstStride < row then ByteOut(src, was, g, 0, NO_ROI, 0, i) else was[i];
    }
  }

  lemma AllRowsCopied(src: seq<u8>, was: seq<u8>, g: Geometry, dst: seq<u8>)
    requires Fits(g, |src|, |was|) && RowsCopied(src, was, g, g.height, dst)
    ensures dst == Copied(src, was, g)
  {
  }

  /** `vpipe_copy_frame` */
  method CopyFrame(src: array<u8>, dst: array<u8>, g: Geometry)
    requires src != dst && Fits(g, src.Length, dst.Length)
    modifies dst
    ensures dst[..] == Copied(src[..], old(dst[..]), g)
  {
    ghost var was, from := dst[..], src[..];
    for row := 0 to g.height
      invariant src[..] == from && RowsCopied(from, was, g, row, dst[..])
    {
      ghost var before := dst[..];
      PixelBound(g.width - 1, row, g.width, g.height, g.dstStride);
      PixelBound(g.width - 1, row, g.width, g.height, g.srcStride);
      CopyRow(src, dst, row * g.srcStride, row * g.dstStride, g.width);
      OneRowCopied(from, was, g, row, before, dst[..]);
    }
    AllRowsCopied(from, was, g, dst[..]);
  }

  /** `after` is `before` with columns left..right of a row replaced by thresholded source pixels. */
  ghost predicate RowThresholded(
    src: seq<u8>, before: seq<u8>, after: seq<u8>, s: nat, d: nat, left: nat, right: nat, threshold: u32)
    requires s + right <= |src|
  {
    && |after| == |before|
    && forall i :: 0 <= i < |after| ==>
         after[i] == (if d + left <= i < d + right then PixelOut(src[s + i - d], threshold, true) else before[i])
  }

  /** The inner loop of `vpipe_threshold_frame`. */
  method ThresholdRow(src: array<u8>, dst: array<u8>, s: nat, d: nat, left: nat, right: nat, threshold: u32)
    returns (white: nat, black: nat)
    requires src != dst && left <= right && s + right <= src.Length && d + right <= dst.Length
    modifies dst
    ensures RowThresholded(src[..], old(dst[..]), dst[..], s, d, left, right, threshold)
    ensures white == RowCount(src[..], s, left, right, threshold) && white + black == right - left
  {
    white, black := 0, 0;
    for x := left to right
      invariant RowThresholded(src[..], old(dst[..]), dst[..], s, d, left, x, threshold)
      invariant white == RowCount(src[..], s, left, x, threshold) && white + black == x - left
    {
      var pixel := if src[s + x] > threshold then 255 else 0;
      dst[d + x] := pixel;
      if pixel != 0 {
        white := white + 1;
      } else {
        black := black + 1;
      }
    }
  }

  /** The plane after thresholding row `y` on top of the rows above it. */
  lemma PlaneAddsRow(src: seq<u8>, dst: seq<u8>, g: Geometry, threshold: u32, roi: Roi, y: nat, after: seq<u8>)
    requires Fits(g, |src|, |dst|) && RoiFits(g, roi) && roi.top <= y < roi.top + roi.height
    requires y * g.srcStride + g.width <= |src|
    requires RowThresholded(src, PlaneOut(src, dst, g, threshold, roi, y), after,
                            y * g.srcStride, y * g.dstStride, roi.left, roi.left + roi.width, threshold)
    ensures after == PlaneOut(src, dst, g, threshold, roi, y + 1)
  {
    forall i | 0 <= i < |dst|
      ensures after[i] == ByteOut(src, dst, g, threshold, roi, y + 1, i)
    {
      RowOfIndex(i, y, g.dstStride);
    }
  }

  /** Before its first row and after its last, the scan stands at the copy and at the result. */
  lemma PlaneEnds(src: seq<u8>, dst: seq<u8>, g: Geometry, threshold: u32, roi: Roi)
    requires Fits(g, |src|, |dst|) && RoiFits(g, roi)
    ensures PlaneOut(src, dst, g, threshold, roi, roi.top) == Copied(src, dst, g)
    ensures PlaneOut(src, dst, g, threshold, roi, roi.top + roi.height) == Thresholded(src, dst, g, threshold, roi)
  {
    forall i | 0 <= i < |dst|
      ensures ByteOut(src, dst, g, threshold, roi, roi.top, i) == ByteOut(src, dst, g, 0, NO_ROI, 0, i)
      ensures ByteOut(src, dst, g, threshold, roi, roi.top + roi.height, i)
           == ByteOut(src, dst, g, threshold, roi, g.height, i)
    {
    }
  }

  /** One pass of the outer loop: row `y` of the plane and its share of the counters. */
  method ThresholdStep(src: array<u8>, dst: array<u8>, g: Geometry, threshold: u32, roi: Roi, y: nat,
                       ghost was: seq<u8>)
    returns (white: nat, black: nat)
    requires src != dst && |was| == dst.Length && Fits(g, src.Length, dst.Length) && RoiFits(g, roi)
    requires roi.top <= y < roi.top + roi.height
    requires dst[..] == PlaneOut(src[..], was, g, threshold, roi, y)
    modifies dst
    ensures dst[..] == PlaneOut(src[..], was, g, threshold, roi, y + 1)
    ensures RoiCount(src[..], g, threshold, roi, y + 1) == RoiCount(src[..], g, threshold, roi, y) + white
    ensures white + black == roi.width
  {
    PixelBound(g.width - 1, y, g.width, g.height, g.dstStride);
    PixelBound(g.width - 1, y, g.width, g.height, g.srcStride);
    white, black :=
      ThresholdRow(src, dst, y * g.srcStride, y * g.dstStride, roi.left, roi.left + roi.width, threshold);
    PlaneAddsRow(src[..], was, g, threshold, roi, y, dst[..]);
  }

  /** `vpipe_threshold_frame` on a clamped ROI. */
  method ThresholdFrame(src: array<u8>, dst: array<u8>, g: Geometry, threshold: u32, roi: Roi)
    returns (white: nat, black: nat)
    requires src != dst && Fits(g, src.Length, dst.Length) && RoiFits(g, roi)
    modifies dst
    ensures dst[..] == Thresholded(src[..], old(dst[..]), g, threshold, roi)
    ensures white == RoiCount(src[..], g, threshold, roi, roi.top + roi.height)
    ensures white + black == roi.width * roi.height
  {
    ghost var was, from := dst[..], src[..];
    CopyFrame(src, dst, g);
    PlaneEnds(from, was, g, threshold, roi);
    white, black := 0, 0;
    for y := roi.top to roi.top + roi.height
      invariant src[..] == from
      invariant dst[..] == PlaneOut(from, was, g, threshold, roi, y)
      invariant white == RoiCount(from, g, threshold, roi, y)
      invariant white + black == Area(y - roi.top, roi.width)
    {
      var w, b := ThresholdStep(src, dst, g, threshold, roi, y, was);
      white, black := white + w, black + b;
    }
    AreaIsProduct(roi.height, roi.width);
  }

  lemma ThresholdedResult(src: seq<u8>, dst: seq<u8>, g: Geometry, threshold: u32, roi: Option<Roi>, white: nat,
                          black: nat)
    requires Fits(g, |src|, |dst|)
    requires var k := KernelClamp(g.width, g.height, roi);
      white == RoiCount(src, g, threshold, k, k.top + k.height) && white + black == k.width * k.height
    ensures var k := KernelClamp(g.width, g.height, roi);
      Processed(src, dst, g, ALGO_THRESHOLD, threshold, roi)
      == Some((Thresholded(src, dst, g, threshold, k), CvResult(0, white, black, k)))
  {
  }

  /** `vpipe_cv_process` */
  method Process(src: array<u8>, dst: array<u8>, g: Geometry, algo: int, threshold: u32, roi: Option<Roi>)
    returns (ok: bool, result: CvResult)
    requires src != dst && Fits(g, src.Length, dst.Length)
    modifies dst
    ensures ok <==> algo == ALGO_NONE || algo == ALGO_THRESHOLD
    ensures ok ==> Processed(src[..], old(dst[..]), g, algo, threshold, roi) == Some((dst[..], result))
    ensures !ok ==> dst[..] == old(dst[..])
  {
    ghost var was, from := dst[..], src[..];
    var clamped := KernelClamp(g.width, g.height, roi);
    result := CvResult(0, 0, 0, clamped);
    ok := true;
    if algo == ALGO_NONE {
      CopyFrame(src, dst, g);
    } else if algo == ALGO_THRESHOLD {
      var white, black := ThresholdFrame(src, dst, g, threshold, clamped);
      ThresholdedResult(from, was, g, threshold, roi, white, black);
      result := result.(value0 := white, value1 := black);
    } else {
      ok := false;
    }
  }

  // ---- the userspace reference ----

  datatype Image = Image(width: Dim, height: Dim, pixels: seq<u8>)

  ghost predicate WellFormed(im: Image) { |im.pixels| == im.width * im.height }

  ghost predicate InBounds(b: Bounds, x: int, y: int) { b.left <= x < b.right && b.top <= y < b.bottom }

  /** The reference output when its scan has reached row `rows`. */
  ghost function ReferenceOut(src: Image, threshold: u8, b: Bounds, rows: int): (r: seq<u8>)
    ensures |r| == |src.pixels|
  {
    seq(|src.pixels|, i requires 0 <= i < |src.pixels| =>
      PixelOut(src.pixels[i], threshold, InBounds(b, i % src.width, i / src.width) && i / src.width < rows))
  }

  /** The reference's inner loop. */
  method ReferenceRow(src: seq<u8>, pixels: array<u8>, s: nat, left: nat, right: nat, threshold: u8)
    requires pixels.Length == |src| && left <= right && s + right <= |src|
    modifies pixels
    ensures RowThresholded(src, old(pixels[..]), pixels[..], s, s, left, right, threshold)
  {
    for x := left to right
      invariant RowThresholded(src, old(pixels[..]), pixels[..], s, s, left, x, threshold)
    {
      pixels[s + x] := if src[s + x] > threshold then 255 else 0;
    }
  }

  lemma ReferenceAddsRow(src: Image, threshold: u8, b: Bounds, y: nat, after: seq<u8>)
    requires WellFormed(src) && b.left <= b.right <= src.width && b.top <= y < b.bottom
    requires y * src.width + src.width <= |src.pixels|
    requires RowThresholded(src.pixels, ReferenceOut(src, threshold, b, y), after,
                            y * src.width, y * src.width, b.left, b.right, threshold)
    ensures after == ReferenceOut(src, threshold, b, y + 1)
  {
    forall i | 0 <= i < |after|
      ensures after[i] == ReferenceOut(src, threshold, b, y + 1)[i]
    {
      RowOfIndex(i, y, src.width);
    }
  }

  lemma ReferenceEnds(src: Image, threshold: u8, b: Bounds)
    requires WellFormed(src) && b.bottom <= src.height
    ensures ReferenceOut(src, threshold, b, b.top) == src.pixels
    ensures ReferenceOut(src, threshold, b, b.bottom) == ReferenceOut(src, threshold, b, src.height)
  {
  }

  method ReferenceStep(src: Image, pixels: array<u8>, threshold: u8, b: Bounds, y: nat)
    requires WellFormed(src) && b.left <= b.right <= src.width && b.top <= y < b.bottom <= src.height
    requires pixels[..] == ReferenceOut(src, threshold, b, y)
    modifies pixels
    ensures pixels[..] == ReferenceOut(src, threshold, b, y + 1)
  {
    PixelBound(src.width - 1, y, src.width, src.height, src.width);
    ReferenceRow(src.pixels, pixels, y * src.width, b.left, b.right, threshold);
    ReferenceAddsRow(src, threshold, b, y, pixels[..]);
  }

  /** `vpipe_threshold_reference`; `pixels` is the freshly allocated destination. */
  method ThresholdReference(src: Image, threshold: u8, roi: Roi) returns (dst: Image)
    requires WellFormed(src)
    ensures dst == Image(src.width, src.height,
      ReferenceOut(src, threshold, ReferenceBounds(src.width, src.height, roi), src.height))
  {
    var n := |src.pixels|;
    var pixels := new u8[n](i requires 0 <= i < n => src.pixels[i]);
    var b := ReferenceBounds(src.width, src.height, roi);
    ClampsAgree(src.width, src.height, roi);
    ReferenceEnds(src, threshold, b);
    assert pixels[..] == src.pixels;
    for y := b.top to b.bottom
      invariant pixels[..] == ReferenceOut(src, threshold, b, y)
    {
      ReferenceStep(src, pixels, threshold, b, y);
    }
    dst := Image(src.width, src.height, pixels[..]);
  }

  /**
   * Kernel and reference agree byte for byte: every frame up to 4096x4096, every signed
   * 32-bit ROI, every threshold, whatever the destination held before.
   */
  lemma KernelMatchesReference(src: Image, was: seq<u8>, threshold: u8, roi: Roi)
    requires WellFormed(src) && |was| == |src.pixels|
    ensures var g := Geometry(src.width, src.height, src.width, src.width);
      Fits(g, |src.pixels|, |was|) &&
      Processed(src.pixels, was, g, ALGO_THRESHOLD, threshold, Some(roi)).value.0
      == ReferenceOut(src, threshold, ReferenceBounds(src.width, src.height, roi), src.height)
  {
    var w, h := src.width, src.height;
    var g := Geometry(w, h, w, w);
    FrameBytes(w, h);
    var k, b := KernelClamp(w, h, Some(roi)), ReferenceBounds(w, h, roi);
    ClampsAgree(w, h, roi);
    forall i | 0 <= i < |was|
      ensures Thresholded(src.pixels, was, g, threshold, k)[i] == ReferenceOut(src, threshold, b, h)[i]
    {
      RowOfIndex(i, h, w);
      SameIndex(i, w);
    }
  }

  lemma SameIndex(i: nat, w: nat)
    requires 0 < w
    ensures i == (i / w) * w + i % w
  {
  }

  lemma FrameBytes(w: Dim, h: Dim)
    ensures 1 <= w * h <= MAX_DIM * MAX_DIM < TWO32
  {
    assert 0 <= (4096 - w) * h == 4096 * h - w * h;
    assert 0 < w * h;
  }

  /**
   * What a successful job leaves in its destination, pixel by pixel: frame pixels come from
   * the source, thresholded exactly inside the clamped ROI.
   */
  lemma ProcessedPixel(src: seq<u8>, dst: seq<u8>, g: Geometry, algo: int, threshold: u32, roi: Option<Roi>, x: nat,
                       y: nat)
    requires Fits(g, |src|, |dst|) && (algo == ALGO_NONE || algo == ALGO_THRESHOLD)
    requires x < g.width && y < g.height
    ensures y * g.dstStride + x < |dst|
    ensures Processed(src, dst, g, algo, threshold, roi).value.0[y * g.dstStride + x]
         == if algo == 1 && Inside(KernelClamp(g.width, g.height, roi), x, y)
            then (if PixelAt(src, g, x, y) > threshold then 255 else 0) else PixelAt(src, g, x, y)
  {
    PixelBound(x, y, g.width, g.height, g.dstStride);
    RowOfIndex(y * g.dstStride + x, y, g.dstStride);
  }

  /** The result a successful job reports: status 0 and the clamped ROI; a copy counts nothing. */
  lemma ReportedResult(src: seq<u8>, dst: seq<u8>, g: Geometry, algo: int, threshold: u32, roi: Option<Roi>)
    requires Fits(g, |src|, |dst|)
    ensures Processed(src, dst, g, algo, threshold, roi).Some? <==> algo == 0 || algo == 1
    ensures algo == 0 || algo == 1 ==>
      var r := Processed(src, dst, g, algo, threshold, roi).value.1;
      && r.status == 0 && r.roi == KernelClamp(g.width, g.height, roi)
      && r.value0 + r.value1 == if algo == 1 then r.roi.width * r.roi.height else 0
  {
    CountsPartitionRoi(src, dst, g, threshold, roi);
  }

  /** Row padding and whatever follows the frame are never written. */
  lemma PaddingUntouched(src: seq<u8>, dst: seq<u8>, g: Geometry, algo: int, threshold: u32, roi: Option<Roi>, i: nat)
    requires Fits(g, |src|, |dst|) && (algo == ALGO_NONE || algo == ALGO_THRESHOLD) && i < |dst|
    requires i % g.dstStride >= g.width || i >= g.height * g.dstStride
    ensures Processed(src, dst, g, algo, threshold, roi).value.0[i] == dst[i]
  {
    RowOfIndex(i, g.height, g.dstStride);
  }
}
