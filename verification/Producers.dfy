/**
 * The frame producers behind vpipe-source.c, on values: what one `next_frame` call does to
 * the producer's counters, its framebuffer and the buffer's plane.
 */
module Producers {
  import opened Base
  import Gradient
  import Cv

  // ---- drop cadence ----

  /** `pattern_offset`, `frames_produced` and `drop_every_n` of either producer. */
  datatype Counters = Counters(patternOffset: u32, framesProduced: u32, dropEvery: u32)

  function Inc32(x: u32): u32 { (x + 1) % TWO32 }

  datatype Tick = Tick(counters: Counters, dropped: bool)

  predicate Multiple(k: nat, n: nat) { n != 0 && k % n == 0 }

  /** Synthetic counts first and drops when the new count is a multiple. */
  function SyntheticTick(c: Counters): Tick {
    var frames := Inc32(c.framesProduced);
    if Multiple(frames, c.dropEvery) then Tick(c.(framesProduced := frames), true)
    else Tick(c.(framesProduced := frames, patternOffset := Inc32(c.patternOffset)), false)
  }

  /** Vcam tests the old count, so it drops its very first frame too. */
  function VcamTick(c: Counters): Tick {
    var frames := Inc32(c.framesProduced);
    if Multiple(c.framesProduced, c.dropEvery) then Tick(c.(framesProduced := frames), true)
    else Tick(c.(framesProduced := frames, patternOffset := Inc32(c.patternOffset)), false)
  }

  function Ticked(vcam: bool, c: Counters): Tick { if vcam then VcamTick(c) else SyntheticTick(c) }

  /** Counters and number of drops after `k` calls from a fresh start. */
  function AfterCalls(vcam: bool, n: u32, k: nat): (Counters, nat) {
    if k == 0 then (Counters(0, 0, n), 0) else
      var (c, drops) := AfterCalls(vcam, n, k - 1);
      var t := Ticked(vcam, c);
      (t.counters, drops + if t.dropped then 1 else 0)
  }

  /** How many of the calls 0..k-1 drop: call j is tested at j by vcam and at j + 1 by synthetic. */
  function DropsBy(vcam: bool, n: u32, k: nat): (d: nat)
    ensures d <= k
  {
    if k == 0 then 0
    else DropsBy(vcam, n, k - 1) + if Multiple(if vcam then k - 1 else k, n) then 1 else 0
  }

  lemma Inc32Small(x: nat)
    requires x + 1 < TWO32
    ensures Inc32(x) == x + 1
  {
  }

  /**
   * After k calls the frame count is k, the drops are exactly the calls at multiples of N, and
   * the pattern offset is the number of frames not dropped.
   */
  lemma {:induction false} DropCadence(vcam: bool, n: u32, k: nat)
    requires k < TWO32
    ensures AfterCalls(vcam, n, k) == (Counters(k - DropsBy(vcam, n, k), k, n), DropsBy(vcam, n, k))
  {
    if k > 0 {
      DropCadence(vcam, n, k - 1);
      Inc32Small(k - 1);
      Inc32Small(k - 1 - DropsBy(vcam, n, k - 1));
    }
  }

  lemma QuotientStep(k: nat, n: nat)
    requires 0 < n
    ensures (k + 1) / n == k / n + if (k + 1) % n == 0 then 1 else 0
  {
    var q := (k + 1) / n;
    Cv.RowOfIndex(k + 1, q, n);
    Cv.RowOfIndex(k, q, n);
    if q > 0 {
      Cv.RowOfIndex(k, q - 1, n);
      Cv.OneMoreRow(q - 1, n);
    }
  }

  lemma ModShift(k: nat, n: nat)
    requires 0 < n
    ensures (k + n) % n == k % n
  {
    Cv.RowOfIndex(k, k / n, n);
    Cv.OneMoreRow(k / n, n);
    Cv.RowOfIndex(k + n, k / n + 1, n);
  }

  /** Closed form: synthetic drops floor(k / N) of k frames and vcam ceil(k / N). */
  lemma {:induction false} DropCount(n: u32, k: nat)
    requires 0 < n
    ensures DropsBy(false, n, k) == k / n && DropsBy(true, n, k) == (k + n - 1) / n
  {
    if k == 0 {
      Cv.RowOfIndex(0, 0, n);
      Cv.RowOfIndex(n - 1, 0, n);
    } else {
      DropCount(n, k - 1);
      QuotientStep(k - 1, n);
      QuotientStep(k - 1 + n - 1, n);
      ModShift(k - 1, n);
    }
  }

  // ---- one call of a producer ----

  type Plane = seq<u8>

  const PAGE := 4096

  /** PAGE_ALIGN */
  function PageAlign(n: nat): nat { (n + PAGE - 1) / PAGE * PAGE }

  /** `struct vpipe_vcam_priv`: counters, timeline and the contents of its framebuffer. */
  datatype VcamPriv = VcamPriv(counters: Counters, baseTs: nat, interval: nat, fb: Plane)

  datatype Producer = Fixture | Synthetic(counters: Option<Counters>) | Vcam(priv: Option<VcamPriv>)

  /** Module parameters, read when a stream starts. */
  datatype Params = Params(vcamFps: u32, vcamDropEvery: u32, syntheticDropEvery: u32)

  /** What a successful call leaves: the buffer's plane and the descriptor fields it set. */
  datatype Frame = Frame(plane: Plane, ts: nat, byteused: nat, dropped: bool)

  ghost predicate CallFits(g: Gradient.Shape, plane: Plane) {
    0 < g.width <= g.stride && 0 < g.height && g.height * g.stride <= |plane|
  }

  /** The geometry hints a producer refuses. */
  predicate NoGeometry(g: Gradient.Shape) { g.width == 0 || g.height == 0 || g.stride == 0 }

  function VcamTs(p: VcamPriv): nat { (p.baseTs + p.counters.framesProduced * p.interval) % TWO64 }

  /** `dst` after `memcpy(dst, fb, n)`. */
  function Overlay(fb: Plane, dst: Plane, n: nat): Plane
    requires n <= |fb| && n <= |dst|
  {
    fb[..n] + dst[n..]
  }

  /** `vcam_next_frame` with a plane of its own (the copy transport). */
  function VcamNext(p: VcamPriv, g: Gradient.Shape, plane: Plane): Option<(VcamPriv, Frame)>
    requires CallFits(g, plane)
  {
    var bytes := g.height * g.stride;
    if bytes > |p.fb| then None else
      var t := VcamTick(p.counters);
      if t.dropped then Some((p.(counters := t.counters), Frame(plane, VcamTs(p), 0, true)))
      else
        var fb := Gradient.Filled(p.fb, g, p.counters.patternOffset);
        Some((p.(counters := t.counters, fb := fb), Frame(Overlay(fb, plane, bytes), VcamTs(p), bytes, false)))
  }

  /** `synthetic_next_frame` */
  function SyntheticNext(c: Counters, g: Gradient.Shape, plane: Plane): (Counters, Frame)
    requires CallFits(g, plane)
  {
    var t := SyntheticTick(c);
    (t.counters, Frame(if t.dropped then plane else Gradient.Filled(plane, g, c.patternOffset), 0, 0, t.dropped))
  }

  /** How a call ends. */
  datatype Outcome = Made(frame: Frame) | Refused(err: Errno)

  /** A producer that writes into the plane it is given. */
  predicate Writes(p: Producer) { (p.Synthetic? && p.counters.Some?) || (p.Vcam? && p.priv.Some?) }

  /** `ops->next_frame`; `mapped` says whether the plane has a kernel address. */
  function NextFrame(p: Producer, g: Gradient.Shape, plane: Plane, mapped: bool): (r: (Producer, Outcome))
    requires Writes(p) && !NoGeometry(g) ==> CallFits(g, plane)
    ensures r.1.Made? ==> |r.1.frame.plane| == |plane|
  {
    match p
    case Fixture => (p, Made(Frame(plane, 0, 0, false)))
    case Synthetic(None) => (p, Refused(EINVAL))
    case Synthetic(Some(c)) =>
      if NoGeometry(g) then (p, Refused(EINVAL))
      else if !mapped then (p, Refused(EFAULT)) else
        var (c', f) := SyntheticNext(c, g, plane);
        (Synthetic(Some(c')), Made(f))
    case Vcam(None) => (p, Refused(EINVAL))
    case Vcam(Some(v)) =>
      if NoGeometry(g) then (p, Refused(EINVAL)) else
        match VcamNext(v, g, plane)
        case None => (p, Refused(EINVAL))
        case Some((v', f)) => if mapped then (Vcam(Some(v')), Made(f)) else (p, Refused(EFAULT))
  }

  /** The frame count of a running producer. */
  function FramesMade(p: Producer): u32
    requires Writes(p)
  {
    if p.Synthetic? then p.counters.value.framesProduced else p.priv.value.counters.framesProduced
  }

  /** The frame a running vcam can hold. */
  predicate HoldsFrame(p: Producer, g: Gradient.Shape) {
    p.Vcam? && p.priv.Some? ==> g.height * g.stride <= |p.priv.value.fb|
  }

  /**
   * A call is refused exactly by a backend other than the fixture that is stopped, is given no
   * geometry, cannot hold the frame (-EINVAL) or finds no address for the plane (-EFAULT). It
   * then changes nothing; otherwise exactly one more frame is counted, dropped or not.
   */
  lemma RefusedExactly(p: Producer, g: Gradient.Shape, plane: Plane, mapped: bool)
    requires Writes(p) && !NoGeometry(g) ==> CallFits(g, plane)
    ensures var (p', o) := NextFrame(p, g, plane, mapped);
      && (o == Refused(EINVAL) <==> !p.Fixture? && (!Writes(p) || NoGeometry(g) || !HoldsFrame(p, g)))
      && (o == Refused(EFAULT) <==> Writes(p) && !NoGeometry(g) && HoldsFrame(p, g) && !mapped)
      && (o.Refused? ==> (o.err == EINVAL || o.err == EFAULT) && p' == p)
      && (o.Made? && !p.Fixture? ==> Writes(p) && Writes(p') && FramesMade(p') == Inc32(FramesMade(p)))
      && (o.Made? && o.frame.dropped ==> o.frame.plane == plane)
  {
  }

  /** Nanoseconds between two vcam frames; 0 when the rate is 0. */
  function Interval(fps: u32): nat { if fps == 0 then 0 else 1_000_000_000 / fps }

  /** `ops->start`; only an allocation can fail, which is not modelled. */
  function Started(p: Producer, sizeimage: nat, params: Params, now: nat): Producer {
    match p
    case Fixture => p
    case Synthetic(_) => Synthetic(Some(Counters(0, 0, params.syntheticDropEvery)))
    case Vcam(_) =>
      Vcam(Some(VcamPriv(Counters(0, 0, params.vcamDropEvery), now,
                         Interval(params.vcamFps),
                         seq(PageAlign(sizeimage), _ => 0))))
  }

  /** `ops->stop`; stopping a stopped producer does nothing. */
  function Stopped(p: Producer): Producer {
    match p
    case Fixture => p
    case Synthetic(_) => Synthetic(None)
    case Vcam(_) => Vcam(None)
  }

  /**
   * The k-th vcam frame since start: stamped base + k * interval whether dropped or not (below
   * 2^64), dropped exactly at multiples of N, and otherwise the pattern whose offset is the number of
   * earlier frames that were not dropped.
   */
  lemma VcamFrame(p: VcamPriv, g: Gradient.Shape, plane: Plane, n: u32, k: nat)
    requires CallFits(g, plane) && g.height * g.stride <= |p.fb|
    requires k + 1 < TWO32 && p.counters == AfterCalls(true, n, k).0
    ensures VcamNext(p, g, plane).Some?
    ensures var (p', f) := VcamNext(p, g, plane).value;
      && p'.counters == AfterCalls(true, n, k + 1).0
      && (p.baseTs + k * p.interval < TWO64 ==> f.ts == p.baseTs + k * p.interval)
      && (f.dropped <==> Multiple(k, n))
      && (f.dropped ==> f.plane == plane)
      && (!f.dropped ==> Gradient.ShapeFits(g, |f.plane|) && Gradient.IsPattern(f.plane, g, k - DropsBy(true, n, k)))
  {
    DropCadence(true, n, k);
    if p.baseTs + k * p.interval < TWO64 { SmallTs(p, k); }
    OverlayPattern(p.fb, plane, g, p.counters.patternOffset);
  }

  /**
   * The k-th synthetic frame since start: unstamped, dropped exactly when k + 1 is a multiple of N,
   * and otherwise the pattern whose offset is the number of earlier frames that were not dropped,
   * with every byte outside the frame's pixels kept.
   */
  ghost predicate IsSyntheticFrame(f: Frame, g: Gradient.Shape, plane: Plane, n: u32, k: nat)
    requires CallFits(g, plane) && k < TWO32
  {
    && f.ts == 0 && f.byteused == 0 && (f.dropped <==> n != 0 && (k + 1) % n == 0)
    && Gradient.OutsideKept(plane, f.plane, g)
    && if f.dropped then f.plane == plane else Gradient.IsPattern(f.plane, g, k - DropsBy(false, n, k))
  }

  lemma SyntheticFrame(g: Gradient.Shape, plane: Plane, n: u32, k: nat)
    requires CallFits(g, plane) && k + 1 < TWO32
    ensures var r := SyntheticNext(AfterCalls(false, n, k).0, g, plane);
      r.0 == AfterCalls(false, n, k + 1).0 && IsSyntheticFrame(r.1, g, plane, n, k)
  {
    DropCadence(false, n, k);
    Inc32Small(k);
    Gradient.FilledPattern(plane, g, k - DropsBy(false, n, k));
  }

  // ---- a stream from its start ----

  /** A producer after one mapped call for each of the planes. */
  function Fed(p: Producer, g: Gradient.Shape, planes: seq<Plane>): Producer
    requires !NoGeometry(g) && forall j :: 0 <= j < |planes| ==> CallFits(g, planes[j])
  {
    if planes == [] then p else
      var m := |planes| - 1;
      NextFrame(Fed(p, g, planes[..m]), g, planes[m], true).0
  }

  lemma {:induction false} SyntheticFed(p: Producer, sizeimage: nat, params: Params, now: nat, g: Gradient.Shape,
                                        planes: seq<Plane>)
    requires p.Synthetic? && !NoGeometry(g) && forall j :: 0 <= j < |planes| ==> CallFits(g, planes[j])
    ensures Fed(Started(p, sizeimage, params, now), g, planes)
         == Synthetic(Some(AfterCalls(false, params.syntheticDropEvery, |planes|).0))
  {
    if planes != [] { SyntheticFed(p, sizeimage, params, now, g, planes[..|planes| - 1]); }
  }

  /** A started vcam: its counters, its timeline and room for the image. */
  ghost predicate VcamAfter(p: Producer, sizeimage: nat, params: Params, now: nat, k: nat) {
    && p.Vcam? && p.priv.Some? && p.priv.value.counters == AfterCalls(true, params.vcamDropEvery, k).0
    && p.priv.value.baseTs == now && p.priv.value.interval == Interval(params.vcamFps)
    && sizeimage <= |p.priv.value.fb|
  }

  lemma {:induction false} VcamFed(p: Producer, sizeimage: nat, params: Params, now: nat, g: Gradient.Shape,
                                   planes: seq<Plane>)
    requires p.Vcam? && !NoGeometry(g) && forall j :: 0 <= j < |planes| ==> CallFits(g, planes[j])
    requires g.height * g.stride <= sizeimage
    ensures VcamAfter(Fed(Started(p, sizeimage, params, now), g, planes), sizeimage, params, now, |planes|)
  {
    if planes == [] {
      PageAlignCovers(sizeimage);
    } else {
      VcamFed(p, sizeimage, params, now, g, planes[..|planes| - 1]);
    }
  }

  /** PAGE_ALIGN is the least multiple of 4096 that is not smaller. */
  lemma PageAlignCovers(n: nat)
    ensures n <= PageAlign(n) < n + 4096 && PageAlign(n) % 4096 == 0
  {
    Cv.RowOfIndex(n + PAGE - 1, (n + PAGE - 1) / PAGE, PAGE);
  }

  /**
   * A synthetic stream from its start: the frame after `planes`, for the module parameter's own
   * cadence.
   */
  lemma SyntheticStream(p: Producer, sizeimage: nat, params: Params, now: nat, g: Gradient.Shape, planes: seq<Plane>,
                        plane: Plane)
    requires p.Synthetic? && CallFits(g, plane) && forall j :: 0 <= j < |planes| ==> CallFits(g, planes[j])
    requires |planes| + 1 < TWO32
    ensures var o := NextFrame(Fed(Started(p, sizeimage, params, now), g, planes), g, plane, true).1;
      o.Made? && IsSyntheticFrame(o.frame, g, plane, params.syntheticDropEvery, |planes|)
  {
    SyntheticFed(p, sizeimage, params, now, g, planes);
    SyntheticFrame(g, plane, params.syntheticDropEvery, |planes|);
  }

  /**
   * A vcam stream from its start at time `now`: the frame after `planes` is stamped now plus that
   * many intervals of 10^9 / fps nanoseconds (none when fps is 0), dropped or not.
   */
  lemma VcamStream(p: Producer, sizeimage: nat, params: Params, now: nat, g: Gradient.Shape, planes: seq<Plane>,
                   plane: Plane)
    requires p.Vcam? && CallFits(g, plane) && forall j :: 0 <= j < |planes| ==> CallFits(g, planes[j])
    requires |planes| + 1 < TWO32 && g.height * g.stride <= sizeimage
    ensures var k, n := |planes|, params.vcamDropEvery;
      var o := NextFrame(Fed(Started(p, sizeimage, params, now), g, planes), g, plane, true).1;
      var due := now + k * (if params.vcamFps == 0 then 0 else 1_000_000_000 / params.vcamFps);
      && o.Made? && (o.frame.dropped <==> Multiple(k, n)) && (due < TWO64 ==> o.frame.ts == due)
      && o.frame.byteused == (if o.frame.dropped then 0 else g.height * g.stride)
      && (if o.frame.dropped then o.frame.plane == plane
          else Gradient.IsPattern(o.frame.plane, g, k - DropsBy(true, n, k)))
      && |o.frame.plane| == |plane| && o.frame.plane[g.height * g.stride..] == plane[g.height * g.stride..]
  {
    VcamFed(p, sizeimage, params, now, g, planes);
    var v := Fed(Started(p, sizeimage, params, now), g, planes);
    VcamFrame(v.priv.value, g, plane, params.vcamDropEvery, |planes|);
  }

  lemma SmallTs(p: VcamPriv, k: nat)
    requires p.counters.framesProduced == k && p.baseTs + k * p.interval < TWO64
    ensures VcamTs(p) == p.baseTs + k * p.interval
  {
    assert k * p.interval >= 0;
  }

  lemma OverlayPattern(fb: Plane, plane: Plane, g: Gradient.Shape, offset: u32)
    requires CallFits(g, plane) && g.height * g.stride <= |fb|
    ensures var out := Overlay(Gradient.Filled(fb, g, offset), plane, g.height * g.stride);
      Gradient.ShapeFits(g, |out|) && Gradient.IsPattern(out, g, offset)
  {
    var out := Overlay(Gradient.Filled(fb, g, offset), plane, g.height * g.stride);
    Gradient.CopiedPattern(fb, out, g, offset);
  }
}
