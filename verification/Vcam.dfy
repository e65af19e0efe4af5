/**
 * The producers as the kernel runs them: objects with counters, a framebuffer that dma-bufs
 * may share, and a reference count that decides when it is freed.
 */
module Vcam {
  import opened Base
  import Cv
  import Gradient
  import P = Producers

  // ---- who keeps the framebuffer alive ----

  /** A framebuffer's kref, and how often `vcam_fb_release` ran for it. */
  datatype Fb = Fb(refs: nat, frees: nat)

  /**
   * One source over its life: every framebuffer it ever allocated, the one its `priv` holds,
   * and for each how many exported dma-bufs are still open.
   */
  datatype Life = Life(fbs: seq<Fb>, current: Option<nat>, exports: seq<nat>, destroyed: bool)

  datatype ExportOutcome = Exported | ExportFailed | FdFailed

  datatype LifeEvent = Start | Stop | Export(outcome: ExportOutcome) | ReleaseDmabuf(fb: nat) | Destroy

  function Get(fb: Fb): Fb { fb.(refs := fb.refs + 1) }

  /** kref_put; dropping the last reference frees. */
  function Put(fb: Fb): Fb
    requires fb.refs > 0
  {
    if fb.refs == 1 then Fb(0, fb.frees + 1) else fb.(refs := fb.refs - 1)
  }

  function Owned(s: Life, i: nat): nat { if s.current == Some(i) then 1 else 0 }

  /**
   * Conservation: each framebuffer's count is the producer's reference plus the open exports,
   * and it has been freed exactly once if the count is zero and never otherwise.
   */
  ghost predicate Conserved(s: Life) {
    && |s.exports| == |s.fbs|
    && (s.current.Some? ==> s.current.value < |s.fbs| && !s.destroyed)
    && forall i :: 0 <= i < |s.fbs| ==>
         s.fbs[i].refs == Owned(s, i) + s.exports[i] && s.fbs[i].frees == (if s.fbs[i].refs == 0 then 1 else 0)
  }

  /** `vcam_stop` */
  function Stopped(s: Life): (r: Life)
    requires Conserved(s)
    ensures Conserved(r) && r.current == None && r.destroyed == s.destroyed
  {
    if s.current.None? then s else
      var i := s.current.value;
      s.(fbs := s.fbs[i := Put(s.fbs[i])], current := None)
  }

  /**
   * Every step keeps the conservation law, so no `kref_put` underflows. A start while started
   * and a release without an open export are never issued by the framework.
   */
  function LifeStep(s: Life, e: LifeEvent): (r: Life)
    requires Conserved(s)
    ensures Conserved(r)
    ensures |s.fbs| <= |r.fbs| && forall i :: 0 <= i < |s.fbs| ==> s.fbs[i].frees <= r.fbs[i].frees
  {
    match e
    case Start =>
      if s.current.Some? || s.destroyed then s
      else s.(fbs := s.fbs + [Fb(1, 0)], current := Some(|s.fbs|), exports := s.exports + [0])
    case Stop => if s.destroyed then s else Stopped(s)
    case Export(outcome) =>
      if s.current.None? then s else
        var i := s.current.value;
        var got := Get(s.fbs[i]);
        // a failed export drops its reference directly; a failed fd through the dma-buf's release
        if outcome.Exported? then s.(fbs := s.fbs[i := got], exports := s.exports[i := s.exports[i] + 1])
        else s.(fbs := s.fbs[i := Put(got)])
    case ReleaseDmabuf(i) =>
      if i >= |s.fbs| || s.exports[i] == 0 then s
      else s.(fbs := s.fbs[i := Put(s.fbs[i])], exports := s.exports[i := s.exports[i] - 1])
    case Destroy => if s.destroyed then s else Stopped(s).(destroyed := true)
  }

  function LifeRun(s: Life, es: seq<LifeEvent>): (r: Life)
    requires Conserved(s)
    ensures Conserved(r)
  {
    if es == [] then s else LifeStep(LifeRun(s, es[..|es| - 1]), es[|es| - 1])
  }

  const NEW_SOURCE := Life([], None, [], false)

  // ---- the same life, told from the events alone ----

  /** Event `j` starts the source, unless it already runs. */
  predicate StartsAt(es: seq<LifeEvent>, j: nat) { j < |es| && es[j] == Start && Destroy !in es[..j] }

  /** The source was started before it was destroyed, and nothing has ended it since. */
  ghost predicate Running(es: seq<LifeEvent>) {
    exists j: nat :: StartsAt(es, j) && forall m :: j < m < |es| ==> !es[m].Stop? && !es[m].Destroy?
  }

  /** How many framebuffers have been allocated: one for each start of a source that did not run. */
  ghost function Births(es: seq<LifeEvent>): nat {
    if es == [] then 0 else
      var m := |es| - 1;
      Births(es[..m]) + if StartsAt(es, m) && !Running(es[..m]) then 1 else 0
  }

  /** Framebuffer `i` is the one the running source holds. */
  ghost predicate Held(es: seq<LifeEvent>, i: nat) { Running(es) && Births(es) == i + 1 }

  /** How many exports of framebuffer `i` succeeded. */
  ghost function Exports(es: seq<LifeEvent>, i: nat): nat {
    if es == [] then 0 else
      var m := |es| - 1;
      Exports(es[..m], i) + if es[m] == Export(Exported) && Held(es[..m], i) then 1 else 0
  }

  /** How many of those have been closed again; a release without an open export is no release. */
  ghost function Closes(es: seq<LifeEvent>, i: nat): (n: nat)
    ensures n <= Exports(es, i)
  {
    if es == [] then 0 else
      var m := |es| - 1;
      Closes(es[..m], i) + if es[m] == ReleaseDmabuf(i) && Closes(es[..m], i) < Exports(es[..m], i) then 1 else 0
  }

  lemma RunningStep(es: seq<LifeEvent>)
    requires es != []
    ensures var m := |es| - 1;
      Running(es) <==> !es[m].Stop? && !es[m].Destroy? && (Running(es[..m]) || StartsAt(es, m))
  {
    var m := |es| - 1;
    if Running(es) {
      var j: nat :| StartsAt(es, j) && forall k :: j < k < |es| ==> !es[k].Stop? && !es[k].Destroy?;
      if j < m { assert es[..m][..j] == es[..j] && StartsAt(es[..m], j); }
    }
    if Running(es[..m]) {
      var j: nat :| StartsAt(es[..m], j) && forall k :: j < k < m ==> !es[..m][k].Stop? && !es[..m][k].Destroy?;
      assert es[..m][..j] == es[..j] && StartsAt(es, j);
    }
  }

  lemma RunningAlive(es: seq<LifeEvent>)
    requires Running(es)
    ensures Destroy !in es
  {
    var j: nat :| StartsAt(es, j) && forall m :: j < m < |es| ==> !es[m].Stop? && !es[m].Destroy?;
    forall m | 0 <= m < |es|
      ensures es[m] != Destroy
    {
      if m < j { assert es[..j][m] == es[m]; }
    }
  }

  /** A never exported framebuffer: none that is not yet allocated. */
  lemma {:induction false} NotYetExported(es: seq<LifeEvent>, i: nat)
    requires Births(es) <= i
    ensures Exports(es, i) == 0
  {
    if es != [] { NotYetExported(es[..|es| - 1], i); }
  }

  ghost predicate ToldBy(s: Life, es: seq<LifeEvent>) {
    && |s.fbs| == |s.exports| == Births(es) && (s.destroyed <==> Destroy in es)
    && (forall i: nat :: s.current == Some(i) <==> Held(es, i)) && (s.current.Some? <==> Running(es))
    && (forall i :: 0 <= i < |s.fbs| ==> s.exports[i] == Exports(es, i) - Closes(es, i))
  }

  /**
   * What the state is, from the events alone: as many framebuffers as starts that took effect,
   * the last of them current exactly while the source runs, and on each as many open exports as
   * succeeded and were not closed.
   */
  lemma {:induction false} LifeOfEvents(es: seq<LifeEvent>)
    ensures ToldBy(LifeRun(NEW_SOURCE, es), es)
  {
    if es != [] {
      var m := |es| - 1;
      LifeOfEvents(es[..m]);
      RunningStep(es);
      assert es == es[..m] + [es[m]];
      if Running(es[..m]) { RunningAlive(es[..m]); }
      NotYetExported(es[..m], Births(es[..m]));
      EventTold(LifeRun(NEW_SOURCE, es[..m]), es);
    }
  }

  lemma EventTold(s: Life, es: seq<LifeEvent>)
    requires es != [] && Conserved(s) && ToldBy(s, es[..|es| - 1])
    requires Running(es[..|es| - 1]) ==> Destroy !in es[..|es| - 1]
    requires Exports(es[..|es| - 1], |s.fbs|) == 0
    requires var m := |es| - 1;
      Running(es) <==> !es[m].Stop? && !es[m].Destroy? && (Running(es[..m]) || StartsAt(es, m))
    ensures ToldBy(LifeStep(s, es[|es| - 1]), es)
  {
    var m := |es| - 1;
    assert es == es[..m] + [es[m]];
    var r := LifeStep(s, es[m]);
    forall i | 0 <= i < |r.fbs|
      ensures r.exports[i] == Exports(es, i) - Closes(es, i)
    {
      assert s.current == Some(i) <==> Held(es[..m], i);
    }
  }

  /**
   * When a framebuffer is freed, from the events alone: exactly once, and exactly when its source
   * was stopped, destroyed or started anew and every successful export of it has been closed.
   */
  lemma FreedExactlyOnce(es: seq<LifeEvent>, i: nat)
    requires i < |LifeRun(NEW_SOURCE, es).fbs|
    ensures var s := LifeRun(NEW_SOURCE, es);
      && |s.fbs| == Births(es) && s.fbs[i].frees <= 1
      && (s.fbs[i].frees == 1 <==> s.current != Some(i) && s.exports[i] == 0)
      && s.fbs[i].frees == (if !Held(es, i) && Closes(es, i) == Exports(es, i) then 1 else 0)
      && s.fbs[i].refs == (if Held(es, i) then 1 else 0) + Exports(es, i) - Closes(es, i)
  {
    LifeOfEvents(es);
  }

  /** The stop that `vpipe_source_destroy` repeats after stream-off is harmless. */
  lemma SecondStopHarmless(s: Life)
    requires Conserved(s)
    ensures LifeStep(LifeStep(s, Stop), Stop) == LifeStep(s, Stop)
    ensures LifeStep(LifeStep(s, Stop), Destroy).fbs == LifeStep(s, Stop).fbs
  {
  }

  // ---- the objects ----

  /** `struct vcam_fb` */
  class Framebuffer {
    var refs: nat
    var frees: nat
    const mem: array<u8>

    ghost function Value(): Fb
      reads this
    {
      Fb(refs, frees)
    }

    /** `vcam_fb_alloc`: page-aligned, zeroed, one reference. */
    constructor (bytes: nat)
      ensures Value() == Fb(1, 0) && fresh(mem) && mem[..] == seq(P.PageAlign(bytes), _ => 0)
    {
      refs, frees := 1, 0;
      mem := new u8[P.PageAlign(bytes)](_ => 0);
    }

    method Ref()
      modifies this
      ensures Value() == Get(old(Value()))
    {
      refs := refs + 1;
    }

    method Unref()
      requires refs > 0
      modifies this
      ensures Value() == Put(old(Value()))
    {
      refs := refs - 1;
      if refs == 0 {
        frees := frees + 1;
      }
    }
  }

  datatype Stamp = Stamp(ts: nat, byteused: nat, dropped: bool)

  /** The vcam backend of one source; `fb` is null while it is stopped. */
  class VcamSource {
    var fb: Framebuffer?
    var counters: P.Counters
    var baseTs: nat
    var interval: nat

    constructor ()
      ensures fb == null
    {
      fb := null;
      counters := P.Counters(0, 0, 0);
    }

    ghost function Value(): P.VcamPriv
      requires fb != null
      reads this, if fb == null then {} else {fb.mem}
    {
      P.VcamPriv(counters, baseTs, interval, fb.mem[..])
    }

    /** `vcam_start` */
    method Start(sizeimage: nat, params: P.Params, now: nat) returns (err: Option<Errno>)
      modifies this
      ensures sizeimage == 0 ==> err == Some(EINVAL) && unchanged(this)
      ensures sizeimage != 0 ==>
        && err == None && fb != null && fresh(fb) && fresh(fb.mem) && fb.Value() == Fb(1, 0)
        && P.Vcam(Some(Value())) == P.Started(P.Vcam(None), sizeimage, params, now)
    {
      if sizeimage == 0 { return Some(EINVAL); }
      fb := new Framebuffer(sizeimage);
      counters := P.Counters(0, 0, params.vcamDropEvery);
      baseTs := now;
      interval := if params.vcamFps == 0 then 0 else 1_000_000_000 / params.vcamFps;
      return None;
    }

    /** `vcam_stop` */
    method Stop()
      requires fb != null ==> fb.refs > 0
      modifies this, if fb == null then {} else {fb}
      ensures fb == null
      ensures old(fb) != null ==> old(fb).Value() == Put(old(fb.Value()))
    {
      if fb == null { return; }
      fb.Unref();
      fb := null;
    }

    /** `vcam_export_dmabuf`; a successful export keeps the reference for the dma-buf. */
    method ExportDmabuf(outcome: ExportOutcome) returns (err: Option<Errno>)
      requires fb != null ==> fb.refs > 0
      modifies fb
      ensures fb == null ==> err == Some(EINVAL)
      ensures fb != null ==> fb.Value() == if outcome.Exported? then Get(old(fb.Value())) else old(fb.Value())
      ensures fb != null ==> (err == None <==> outcome.Exported?)
    {
      if fb == null { return Some(EINVAL); }
      fb.Ref();
      if !outcome.Exported? {
        fb.Unref();
        return Some(ENOMEM);
      }
      return None;
    }

    /**
     * `vcam_next_frame`. `dst` is the OUTPUT plane: a buffer of its own, or the framebuffer
     * itself when userspace queued the exported dma-buf.
     */
    method NextFrame(dst: array<u8>, g: Gradient.Shape, mapped: bool) returns (err: Option<Errno>, r: Stamp)
      requires fb == null || P.NoGeometry(g) || P.CallFits(g, dst[..])
      modifies this, dst, if fb == null then {} else {fb.mem}
      ensures fb == old(fb) && baseTs == old(baseTs) && interval == old(interval)
      ensures err == if fb == null || P.NoGeometry(g) || g.height * g.stride > fb.mem.Length then Some(EINVAL)
                     else if !mapped then Some(EFAULT) else None
      ensures err.Some? ==> counters == old(counters) && dst[..] == old(dst[..])
      ensures err.Some? && fb != null ==> fb.mem[..] == old(fb.mem[..])
      ensures err.None? ==> P.Tick(counters, r.dropped) == P.VcamTick(old(counters)) && r.ts == P.VcamTs(old(Value()))
      ensures err.None? && r.dropped ==> dst[..] == old(dst[..]) && fb.mem[..] == old(fb.mem[..])
      ensures err.None? && !r.dropped ==> fb.mem[..] == Gradient.Filled(old(fb.mem[..]), g, old(counters.patternOffset))
      ensures err.None? && !r.dropped && dst != fb.mem ==>
        dst[..] == P.Overlay(fb.mem[..], old(dst[..]), g.height * g.stride)
      ensures err.None? && dst != fb.mem ==>
        P.VcamNext(old(Value()), g, old(dst[..])) == Some((Value(), P.Frame(dst[..], r.ts, r.byteused, r.dropped)))
    {
      r := Stamp(0, 0, false);
      if fb == null || P.NoGeometry(g) { return Some(EINVAL), r; }
      var bytes := g.height * g.stride;
      if bytes > fb.mem.Length { return Some(EINVAL), r; }
      if !mapped { return Some(EFAULT), r; }
      var ts := (baseTs + counters.framesProduced * interval) % TWO64;
      if P.Multiple(counters.framesProduced, counters.dropEvery) {
        counters := counters.(framesProduced := P.Inc32(counters.framesProduced));
        return None, Stamp(ts, 0, true);
      }
      Gradient.Fill(fb.mem, g, counters.patternOffset, true);
      if dst != fb.mem {
        Cv.CopyRow(fb.mem, dst, 0, 0, bytes);
        assert dst[..] == P.Overlay(fb.mem[..], old(dst[..]), bytes);
      }
      counters := counters.(patternOffset := P.Inc32(counters.patternOffset));
      counters := counters.(framesProduced := P.Inc32(counters.framesProduced));
      return None, Stamp(ts, bytes, false);
    }
  }

  /** The synthetic backend of one source. */
  class SyntheticSource {
    var counters: Option<P.Counters>

    constructor ()
      ensures counters == None
    {
      counters := None;
    }

    /** `synthetic_start` */
    method Start(params: P.Params, now: nat)
      modifies this
      ensures P.Synthetic(counters) == P.Started(P.Synthetic(None), 0, params, now)
    {
      counters := Some(P.Counters(0, 0, params.syntheticDropEvery));
    }

    /** `synthetic_stop` */
    method Stop()
      modifies this
      ensures P.Synthetic(counters) == P.Stopped(P.Synthetic(old(counters)))
    {
      counters := None;
    }

    /** `synthetic_next_frame` */
    method NextFrame(dst: array<u8>, g: Gradient.Shape, mapped: bool) returns (err: Option<Errno>, r: Stamp)
      requires counters.None? || P.NoGeometry(g) || P.CallFits(g, dst[..])
      modifies this, dst
      ensures err == if old(counters).None? || P.NoGeometry(g) then Some(EINVAL)
                     else if !mapped then Some(EFAULT) else None
      ensures err.Some? ==> counters == old(counters) && dst[..] == old(dst[..])
      ensures err.None? ==> counters.Some?
      ensures err.None? ==>
        P.SyntheticNext(old(counters).value, g, old(dst[..]))
        == (counters.value, P.Frame(dst[..], r.ts, r.byteused, r.dropped))
    {
      r := Stamp(0, 0, false);
      if counters.None? || P.NoGeometry(g) { return Some(EINVAL), r; }
      if !mapped { return Some(EFAULT), r; }
      var c := counters.value;
      c := c.(framesProduced := P.Inc32(c.framesProduced));
      counters := Some(c);
      if P.Multiple(c.framesProduced, c.dropEvery) { return None, Stamp(0, 0, true); }
      Gradient.Fill(dst, g, c.patternOffset, false);
      counters := Some(c.(patternOffset := P.Inc32(c.patternOffset)));
      return None, r;
    }
  }

  // ---- a whole life on the objects ----

  ghost function Values(fbs: seq<Framebuffer>): (r: seq<Fb>)
    reads fbs
    ensures |r| == |fbs| && forall i :: 0 <= i < |fbs| ==> r[i] == fbs[i].Value()
  {
    seq(|fbs|, i requires 0 <= i < |fbs| reads fbs => fbs[i].Value())
  }

  /** A vcam source with every framebuffer it ever allocated and the dma-bufs still open on each. */
  class SourceLife {
    const source: VcamSource
    var fbs: seq<Framebuffer>
    var current: Option<nat>
    var exports: seq<nat>
    var destroyed: bool

    constructor ()
      ensures Valid() && fresh(source) && fbs == [] && Value() == NEW_SOURCE
    {
      source := new VcamSource();
      fbs, current, exports, destroyed := [], None, [], false;
    }

    ghost function Value(): Life
      reads this, fbs
    {
      Life(Values(fbs), current, exports, destroyed)
    }

    ghost predicate Valid()
      reads this, source, fbs
    {
      && Conserved(Value()) && (forall i, j :: 0 <= i < j < |fbs| ==> fbs[i] != fbs[j])
      && source.fb == if current.Some? then fbs[current.value] else null
    }

    method Start(sizeimage: nat, params: P.Params, now: nat)
      requires Valid() && sizeimage > 0
      modifies this, source
      ensures Valid() && Value() == LifeStep(old(Value()), LifeEvent.Start)
      ensures forall i :: 0 <= i < |fbs| ==> fbs[i] in old(fbs) || fresh(fbs[i])
    {
      if current.Some? || destroyed { return; }
      var _ := source.Start(sizeimage, params, now);
      current, fbs, exports := Some(|fbs|), fbs + [source.fb], exports + [0];
      assert Values(fbs) == old(Values(fbs)) + [Fb(1, 0)];
    }

    method Stop()
      requires Valid()
      modifies this, source, fbs
      ensures Valid() && fbs == old(fbs) && Value() == Stopped(old(Value()))
    {
      if current.None? { return; }
      ghost var i := current.value;
      source.Stop();
      current := None;
      assert Values(fbs) == old(Values(fbs))[i := Put(old(Values(fbs))[i])];
    }

    method Export(outcome: ExportOutcome)
      requires Valid()
      modifies this, source, fbs
      ensures Valid() && fbs == old(fbs) && Value() == LifeStep(old(Value()), LifeEvent.Export(outcome))
    {
      if current.None? { return; }
      var i := current.value;
      var _ := source.ExportDmabuf(outcome);
      if outcome.Exported? {
        exports := exports[i := exports[i] + 1];
      }
      assert Values(fbs) == old(Values(fbs))[i := fbs[i].Value()];
    }

    /** `vcam_dmabuf_release` on an open export of framebuffer `i`. */
    method ReleaseDmabuf(i: nat)
      requires Valid()
      modifies this, fbs
      ensures Valid() && fbs == old(fbs) && Value() == LifeStep(old(Value()), LifeEvent.ReleaseDmabuf(i))
    {
      if i >= |fbs| || exports[i] == 0 { return; }
      fbs[i].Unref();
      exports := exports[i := exports[i] - 1];
      assert Values(fbs) == old(Values(fbs))[i := fbs[i].Value()];
    }

    /** Any event of a source's life. */
    method Perform(e: LifeEvent, sizeimage: nat, params: P.Params, now: nat)
      requires Valid() && sizeimage > 0
      modifies this, source, fbs
      ensures Valid() && Value() == LifeStep(old(Value()), e)
      ensures forall i :: 0 <= i < |fbs| ==> fbs[i] in old(fbs) || fresh(fbs[i])
    {
      match e
      case Start => Start(sizeimage, params, now);
      case Stop => if !destroyed { Stop(); }
      case Export(outcome) => Export(outcome);
      case ReleaseDmabuf(i) => ReleaseDmabuf(i);
      case Destroy =>
        if !destroyed {
          Stop();
          destroyed := true;
        }
    }

    /** A whole life: the objects' counts and frees are those of the event system, so FreedExactlyOnce is about them. */
    method Execute(es: seq<LifeEvent>, sizeimage: nat, params: P.Params, now: nat)
      requires Valid() && Value() == NEW_SOURCE && sizeimage > 0
      modifies this, source, fbs
      ensures Valid() && Value() == LifeRun(NEW_SOURCE, es)
    {
      for k := 0 to |es|
        invariant Valid() && Value() == LifeRun(NEW_SOURCE, es[..k])
        invariant forall i :: 0 <= i < |fbs| ==> fresh(fbs[i])
      {
        Perform(es[k], sizeimage, params, now);
        assert es[..k + 1][..k] == es[..k];
      }
      assert es[..|es|] == es;
    }
  }

  // ---- the two transports ----

  /** Filling twice leaves the second pattern; the first survives only if their low bytes agree. */
  lemma RefillOverwrites(was: seq<u8>, g: Gradient.Shape, first: u32, second: u32)
    requires Gradient.ShapeFits(g, |was|)
    ensures var plane := Gradient.Filled(Gradient.Filled(was, g, first), g, second);
      && plane == Gradient.Filled(was, g, second)
      && (Gradient.IsPattern(plane, g, first) <==> first % 256 == second % 256)
  {
    var plane := Gradient.Filled(was, g, second);
    assert Gradient.Filled(Gradient.Filled(was, g, first), g, second) == plane;
    if first % 256 == second % 256 {
      SameLowByte(was, g, first, second);
    } else {
      Gradient.StampIsFirstPixel(was, g, second);
      Gradient.StampIsFirstPixel(plane, g, first);
    }
  }

  /** The pattern depends on the offset's low byte only. */
  lemma SameLowByte(was: seq<u8>, g: Gradient.Shape, first: u32, second: u32)
    requires Gradient.ShapeFits(g, |was|) && first % 256 == second % 256
    ensures Gradient.IsPattern(Gradient.Filled(was, g, second), g, first)
  {
    var plane := Gradient.Filled(was, g, second);
    forall i | 0 <= i < |was|
      ensures Gradient.Filled(plane, g, first)[i] == plane[i]
    {
      Gradient.OffsetLowByte(i % g.stride, i / g.stride, first);
      Gradient.OffsetLowByte(i % g.stride, i / g.stride, second);
    }
  }

  /** What the k-th frame of a lockstep run must be. */
  ghost predicate FrameOk(g: Gradient.Shape, n: u32, k: nat, cap: seq<u8>, dropped: bool) {
    && (dropped <==> P.Multiple(k, n))
    && Gradient.ShapeFits(g, |cap|)
    && k - P.DropsBy(true, n, k) < TWO32
    && (!dropped ==> Gradient.IsPattern(cap, g, k - P.DropsBy(true, n, k)))
  }

  ghost predicate LockstepShape(g: Gradient.Shape, outLen: nat, fbLen: nat) {
    && 0 < g.width <= Cv.MAX_DIM && 0 < g.height <= Cv.MAX_DIM && g.stride == g.width
    && g.height * g.stride <= outLen < TWO32 && g.height * g.stride <= fbLen
  }

  /** Queue (the producer fills), run an ALGO_NONE job, take the CAPTURE frame. */
  method LockstepFrame(v: VcamSource, out: array<u8>, g: Gradient.Shape, n: u32, k: nat)
    returns (cap: seq<u8>, dropped: bool)
    requires v.fb != null && k + 1 < TWO32 && v.counters == P.AfterCalls(true, n, k).0
    requires LockstepShape(g, out.Length, v.fb.mem.Length)
    modifies v, out, v.fb.mem
    ensures v.fb == old(v.fb) && v.counters == P.AfterCalls(true, n, k + 1).0
    ensures FrameOk(g, n, k, cap, dropped)
  {
    P.DropCadence(true, n, k);
    ghost var fb := v.fb.mem[..];
    var err, r := v.NextFrame(out, g, true);
    dropped := r.dropped;
    ghost var offset := k - P.DropsBy(true, n, k);
    if !dropped { Gradient.CopiedPattern(fb, out[..], g, offset); }
    cap := CaptureCopy(out, g, offset);
  }

  method CaptureCopy(out: array<u8>, g: Gradient.Shape, ghost offset: u32) returns (cap: seq<u8>)
    requires LockstepShape(g, out.Length, out.Length)
    ensures Gradient.ShapeFits(g, |cap|)
    ensures Gradient.IsPattern(out[..], g, offset) ==> Gradient.IsPattern(cap, g, offset)
  {
    Cv.FrameBytes(g.width, g.height);
    var size := g.height * g.stride;
    var job := Cv.Geometry(g.width, g.height, g.stride, g.stride);
    var dst := new u8[size](_ => 0);
    ghost var was := dst[..];
    Cv.CopyFrame(out, dst, job);
    cap := dst[..];
    if Gradient.IsPattern(out[..], g, offset) { CopyKeepsPattern(out[..], was, g, job, offset); }
  }

  /**
   * One frame in flight. Whether `out` is a buffer of its own or the shared framebuffer, frame
   * k is dropped at multiples of N and is otherwise the pattern numbered by the undropped
   * frames before it.
   */
  method Lockstep(v: VcamSource, out: array<u8>, g: Gradient.Shape, n: u32, frames: nat)
    returns (caps: seq<seq<u8>>, drops: seq<bool>)
    requires v.fb != null && v.counters == P.Counters(0, 0, n) && frames < TWO32
    requires LockstepShape(g, out.Length, v.fb.mem.Length)
    modifies v, out, v.fb.mem
    ensures |caps| == |drops| == frames
    ensures forall k :: 0 <= k < frames ==> FrameOk(g, n, k, caps[k], drops[k])
  {
    caps, drops := [], [];
    for k := 0 to frames
      invariant v.fb == old(v.fb) && v.counters == P.AfterCalls(true, n, k).0
      invariant |caps| == |drops| == k
      invariant forall j :: 0 <= j < k ==> FrameOk(g, n, j, caps[j], drops[j])
    {
      var cap, dropped := LockstepFrame(v, out, g, n, k);
      caps, drops := caps + [cap], drops + [dropped];
    }
  }

  /** An ALGO_NONE job carries a pattern from the OUTPUT plane to the CAPTURE plane. */
  lemma CopyKeepsPattern(src: seq<u8>, dst: seq<u8>, g: Gradient.Shape, job: Cv.Geometry, offset: u32)
    requires Gradient.ShapeFits(g, |src|) && Gradient.ShapeFits(g, |dst|) && g.stride == g.width
    requires job.width == g.width && job.height == g.height && job.srcStride == g.stride && job.dstStride == g.stride
    requires Cv.Fits(job, |src|, |dst|) && Gradient.IsPattern(src, g, offset)
    ensures Gradient.IsPattern(Cv.Copied(src, dst, job), g, offset)
  {
    var out := Cv.Copied(src, dst, job);
    forall i | 0 <= i < g.height * g.stride
      ensures out[i] == src[i]
    {
      Cv.RowOfIndex(i, g.height, g.stride);
      Cv.SameIndex(i, g.stride);
    }
    assert out[..g.height * g.stride] == Gradient.Filled(src, g, offset)[..g.height * g.stride];
    Gradient.CopiedPattern(src, out, g, offset);
  }
}
