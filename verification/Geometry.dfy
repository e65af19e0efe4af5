/**
 * Geometry over every run: both formats of a context always agree and are well formed, and
 * exactly which format changes let a producer or a job leave its planes later on.
 * `vpipe_s_fmt` itself tests only the queue it was called on.
 */
module Geometry {
  import opened Base
  import opened M2m
  import Cv
  import ExactlyOnce
  import P = Producers
  import Provenance
  import Snapshot
  import Source

  ghost predicate FmtOk(f: Fmt) {
    && 1 <= f.width <= Cv.MAX_DIM && 1 <= f.height <= Cv.MAX_DIM
    && f.stride == f.width && f.sizeimage == f.width * f.height
  }

  /** OUTPUT and CAPTURE share one well-formed format. */
  ghost predicate FormatsOk(c: Ctx) { c.outFmt == c.capFmt && FmtOk(c.outFmt) }

  /** Passed `buf_prepare` and not yet used: prepared, held back or ready. */
  predicate Waiting(s: BufState) { s == PREPARED || s == QUEUED || s == ACTIVE }

  /** Every buffer waiting in the driver has room for a frame. */
  ghost predicate PlanesFit(c: Ctx, size: nat) {
    && (forall i :: 0 <= i < |c.outBufs| && Waiting(c.outBufs[i].state) ==> size <= |c.outBufs[i].plane| < TWO32)
    && (forall i :: 0 <= i < |c.capBufs| && Waiting(c.capBufs[i].state) ==> size <= |c.capBufs[i].plane| < TWO32)
  }

  ghost predicate CtxOk(c: Ctx) { FormatsOk(c) && PlanesFit(c, c.outFmt.sizeimage) }

  lemma FillPixOk(w: u32, h: u32)
    ensures FmtOk(FillPix(w, h)) && FillPix(w, h).sizeimage <= Cv.MAX_DIM * Cv.MAX_DIM
  {
    Cv.FrameBytes(FillPix(w, h).width, FillPix(w, h).height);
  }

  // ---- when a format change is safe ----

  /** An accepted format change finds room for the new image in every plane waiting on the other queue. */
  predicate ChangeFits(c: Ctx, a: Action) {
    a.ActSetFmt? && (if a.out then c.outBufs == [] else c.capBufs == []) ==>
      var size := FillPix(a.width, a.height).sizeimage;
      if a.out then forall i :: 0 <= i < |c.capBufs| && Waiting(c.capBufs[i].state) ==> size <= |c.capBufs[i].plane|
      else forall i :: 0 <= i < |c.outBufs| && Waiting(c.outBufs[i].state) ==> size <= |c.outBufs[i].plane|
  }

  /**
   * A format change keeps waiting planes large enough exactly when it is refused or every plane
   * waiting on the other queue holds the new image.
   */
  lemma FormatChangeSafeExactly(c: Ctx, out: bool, w: u32, h: u32)
    requires CtxOk(c)
    ensures CtxOk(SetFmt(c, out, w, h)) <==> ChangeFits(c, ActSetFmt(out, w, h))
  {
    FillPixOk(w, h);
  }

  // ---- steps ----

  lemma QueueIsSafe(c: Ctx, i: nat)
    requires FormatsOk(c) && i < |c.outBufs| && c.outFmt.sizeimage <= |c.outBufs[i].plane|
    ensures QueueSafe(c, i)
  {
    assert c.outFmt.height * c.outFmt.stride == c.outFmt.sizeimage;
  }

  lemma QueueKeeps(c: Ctx, i: nat, mapped: bool, now: nat)
    requires CtxOk(c) && i < |c.outBufs| && c.outFmt.sizeimage <= |c.outBufs[i].plane| < TWO32 && QueueSafe(c, i)
    ensures CtxOk(BufQueueOut(c, i, mapped, now))
  {
  }

  lemma QBufOutKeeps(c: Ctx, n: nat, i: nat, plane: Option<Plane>, mapped: bool, now: nat)
    requires CtxOk(c)
    ensures var r := QBufOut(c, n, i, plane, mapped, now); !r.fault && CtxOk(r.ctx)
  {
    if i < |c.outBufs| && InUser(c.outBufs[i].state) {
      var b := Handed(c.outBufs[i], plane);
      var c1 := PutOut(c, i, b);
      assert CtxOk(c1);
      if Passes(c.outFmt, b.state, b.plane) {
        QueueIsSafe(c1, i);
        QueueKeeps(c1, i, mapped, now);
      }
    }
  }

  lemma {:induction false} HeldKeeps(c: Ctx, m: nat, n: nat, mapped: bool, now: nat)
    requires CtxOk(c) && Provenance.OutOk(c, c.outQ.held) && m <= |c.outQ.held|
    ensures var r := QueueHeld(c, c.outQ.held[..m], n, mapped, now);
      !r.fault && CtxOk(r.ctx) && r.ctx.outFmt == c.outFmt
  {
    if m > 0 {
      HeldKeeps(c, m - 1, n, mapped, now);
      HeldWaits(c, m - 1, n, mapped, now);
      HeldStep(QueueHeld(c, c.outQ.held[..m - 1], n, mapped, now).ctx, c.outQ.held[m - 1], mapped, now);
      HeldLast(c, c.outQ.held, m, n, mapped, now);
    }
  }

  lemma HeldWaits(c: Ctx, m: nat, n: nat, mapped: bool, now: nat)
    requires Provenance.OutOk(c, c.outQ.held) && m < |c.outQ.held|
    ensures var c', i := QueueHeld(c, c.outQ.held[..m], n, mapped, now).ctx, c.outQ.held[m];
      i < |c'.outBufs| && c'.outBufs[i].state == QUEUED
  {
    Provenance.HeldKeeps(c, m, n, mapped, now);
    assert c.outQ.held[m..][0] == c.outQ.held[m];
  }

  lemma HeldLast(c: Ctx, held: seq<nat>, m: nat, n: nat, mapped: bool, now: nat)
    requires 0 < m <= |held|
    requires var r := QueueHeld(c, held[..m - 1], n, mapped, now);
      !r.fault && held[m - 1] < |r.ctx.outBufs| && QueueSafe(r.ctx, held[m - 1])
    ensures QueueHeld(c, held[..m], n, mapped, now)
         == Same(BufQueueOut(QueueHeld(c, held[..m - 1], n, mapped, now).ctx, held[m - 1], mapped, now), n)
  {
    assert held[..m][..m - 1] == held[..m - 1] && held[..m][m - 1] == held[m - 1];
  }

  lemma HeldStep(c: Ctx, i: nat, mapped: bool, now: nat)
    requires CtxOk(c) && i < |c.outBufs| && c.outBufs[i].state == QUEUED
    ensures QueueSafe(c, i)
    ensures var c' := BufQueueOut(c, i, mapped, now); CtxOk(c') && c'.outFmt == c.outFmt
  {
    QueueIsSafe(c, i);
    QueueKeeps(c, i, mapped, now);
  }

  lemma RunIsSafe(c: Ctx)
    requires CtxOk(c) && CanRun(c)
    requires c.outBufs[c.outQ.ready[0]].state == ACTIVE && c.capBufs[c.capQ.ready[0]].state == ACTIVE
    ensures RunSafe(c)
  {
    var f := c.outFmt;
    assert f.height * f.stride == f.sizeimage;
  }

  lemma RunKeeps(c: Ctx, n: nat, mapped: bool, now: nat, cpu: nat)
    requires CtxOk(c) && CanRun(c)
    requires c.outBufs[c.outQ.ready[0]].state == ACTIVE && c.capBufs[c.capQ.ready[0]].state == ACTIVE
    ensures var r := DeviceRun(c, n, mapped, now, cpu); !r.fault && CtxOk(r.ctx)
  {
    RunIsSafe(c);
  }

  lemma {:induction false} FinishPlanes(bufs: seq<CapBuf>, k: nat, now: nat)
    requires k <= |bufs|
    ensures forall i :: 0 <= i < |bufs| ==>
      FinishFirst(bufs, k, now).0[i].plane == bufs[i].plane && FinishFirst(bufs, k, now).0[i].state == bufs[i].state
  {
    if k > 0 { FinishPlanes(bufs, k - 1, now); }
  }

  /** Every waiting CAPTURE buffer has room for a frame. */
  ghost predicate CapsFit(bufs: seq<CapBuf>, size: nat) {
    forall i :: 0 <= i < |bufs| && Waiting(bufs[i].state) ==> size <= |bufs[i].plane| < TWO32
  }

  lemma QueueCapFits(c: Ctx, n: nat, i: nat, plane: Option<Plane>)
    requires CapsFit(c.capBufs, c.capFmt.sizeimage)
    ensures CapsFit(QBufCap(c, n, i, plane).ctx.capBufs, c.capFmt.sizeimage)
    ensures CapsFit(PrepareCap(c, n, i, plane).ctx.capBufs, c.capFmt.sizeimage)
  {
  }

  lemma CaptureFits(c: Ctx, n: nat, now: nat, a: Action)
    requires CapsFit(c.capBufs, c.capFmt.sizeimage) && Provenance.OnCapture(a)
    ensures CapsFit(CtxStep(c, n, now, a).ctx.capBufs, c.capFmt.sizeimage)
  {
    match a
    case ActQBufCap(i, plane) => QueueCapFits(c, n, i, plane);
    case ActPrepare(out, i, plane) => QueueCapFits(c, n, i, plane);
    case ActStreamOffCap => FinishPlanes(c.capBufs, |c.capBufs|, now);
    case _ =>
  }

  lemma OutputLeft(c: Ctx, n: nat, now: nat, a: Action)
    requires Provenance.OnCapture(a)
    ensures var r := CtxStep(c, n, now, a);
      && !r.fault && r.ctx.outBufs == c.outBufs && r.ctx.outQ == c.outQ
      && r.ctx.outFmt == c.outFmt && r.ctx.capFmt == c.capFmt
  {
  }

  lemma CaptureKeeps(c: Ctx, n: nat, now: nat, a: Action)
    requires CtxOk(c) && Provenance.OnCapture(a)
    ensures var r := CtxStep(c, n, now, a); !r.fault && CtxOk(r.ctx)
  {
    CaptureFits(c, n, now, a);
    OutputLeft(c, n, now, a);
  }

  lemma OtherKeeps(c: Ctx, n: nat, now: nat, a: Action)
    requires CtxOk(c) && ChangeFits(c, a) && Provenance.OnOutput(a)
    ensures var r := CtxStep(c, n, now, a); !r.fault && CtxOk(r.ctx)
  {
    if a.ActSetFmt? {
      FormatChangeSafeExactly(c, a.out, a.width, a.height);
    } else {
      OutputCallKeeps(c, n, now, a);
    }
  }

  lemma OutputCallKeeps(c: Ctx, n: nat, now: nat, a: Action)
    requires CtxOk(c) && Provenance.OnOutput(a) && !a.ActSetFmt?
    ensures var r := CtxStep(c, n, now, a); !r.fault && CtxOk(r.ctx)
  {
    if a.ActReqBufs? || a.ActCreateBufs? || a.ActPrepare? {
      OutputBuffersKeep(c, n, now, a);
    } else {
      var c' := CtxStep(c, n, now, a).ctx;
      assert c'.capBufs == c.capBufs;
    }
  }

  lemma OutputBuffersKeep(c: Ctx, n: nat, now: nat, a: Action)
    requires CtxOk(c) && (a.ActReqBufs? || a.ActCreateBufs? || a.ActPrepare?) && a.out
    ensures var r := CtxStep(c, n, now, a); !r.fault && CtxOk(r.ctx)
  {
    var c' := CtxStep(c, n, now, a).ctx;
    assert c'.capBufs == c.capBufs;
  }

  lemma StepKeeps(c: Ctx, n: nat, now: nat, a: Action)
    requires CtxOk(c) && ChangeFits(c, a) && Provenance.CtxOk(c) && ExactlyOnce.CtxOk(c)
    ensures var r := CtxStep(c, n, now, a); !r.fault && CtxOk(r.ctx)
  {
    if Provenance.OnCapture(a) {
      CaptureKeeps(c, n, now, a);
    } else if Provenance.OnOutput(a) {
      OtherKeeps(c, n, now, a);
    } else {
      ActiveKeeps(c, n, now, a);
    }
  }

  /** The steps that reach the source or run a job. */
  lemma ActiveKeeps(c: Ctx, n: nat, now: nat, a: Action)
    requires CtxOk(c) && Provenance.CtxOk(c) && ExactlyOnce.CtxOk(c)
    requires (a.ActQBufOut? || a.ActStreamOnOut? || a.ActRun?)
    ensures var r := CtxStep(c, n, now, a); !r.fault && CtxOk(r.ctx)
  {
    match a
    case ActQBufOut(i, plane, mapped) => QBufOutKeeps(c, n, i, plane, mapped, now);
    case ActStreamOnOut(params, mapped) => {
      HeldKeeps(c, |c.outQ.held|, n, mapped, now);
      assert c.outQ.held[..|c.outQ.held|] == c.outQ.held;
    }
    case ActRun(mapped, cpu) => if CanRun(c) { RunKeeps(c, n, mapped, now, cpu); }
  }

  // ---- where waiting buffers are ----

  /** A waiting OUTPUT buffer is on its list, and a streaming queue has buffers. */
  ghost predicate OutPlaced(c: Ctx) {
    && (c.outQ.on ==> c.outBufs != [])
    && forall i :: 0 <= i < |c.outBufs| ==>
         (c.outBufs[i].state == QUEUED ==> i in c.outQ.held) && (c.outBufs[i].state == ACTIVE ==> i in c.outQ.ready)
  }

  ghost predicate CapPlaced(c: Ctx) {
    && (c.capQ.on ==> c.capBufs != [])
    && forall i :: 0 <= i < |c.capBufs| ==>
         (c.capBufs[i].state == QUEUED ==> i in c.capQ.held) && (c.capBufs[i].state == ACTIVE ==> i in c.capQ.ready)
  }

  /** `c'` is `c` with the listed OUTPUT buffers active and ready; plane sizes stay. */
  ghost predicate MadeReady(c: Ctx, c': Ctx, list: seq<nat>) {
    && |c'.outBufs| == |c.outBufs| && c'.outQ == c.outQ.(ready := c'.outQ.ready)
    && (forall i :: 0 <= i < |c.outBufs| ==>
          && c'.outBufs[i].state == (if i in list then ACTIVE else c.outBufs[i].state)
          && |c'.outBufs[i].plane| == |c.outBufs[i].plane|)
    && (forall i :: i in c.outQ.ready ==> i in c'.outQ.ready)
    && (forall i :: i in list && i < |c.outBufs| ==> i in c'.outQ.ready)
  }

  lemma OneMoreReady(c: Ctx, c1: Ctx, list: seq<nat>, i: nat, mapped: bool, now: nat)
    requires MadeReady(c, c1, list) && i < |c1.outBufs| && QueueSafe(c1, i)
    ensures MadeReady(c, BufQueueOut(c1, i, mapped, now), list + [i])
  {
    var c2 := BufQueueOut(c1, i, mapped, now);
    assert c2.outBufs[i].state == ACTIVE && |c2.outBufs[i].plane| == |c1.outBufs[i].plane|;
  }

  /** Queueing what is held, unless a producer leaves a plane. */
  lemma {:induction false} HeldPlaced(c: Ctx, list: seq<nat>, n: nat, mapped: bool, now: nat)
    requires !QueueHeld(c, list, n, mapped, now).fault
    ensures MadeReady(c, QueueHeld(c, list, n, mapped, now).ctx, list)
    decreases |list|
  {
    if list != [] {
      var front, i := list[..|list| - 1], list[|list| - 1];
      HeldPlaced(c, front, n, mapped, now);
      var c1 := QueueHeld(c, front, n, mapped, now).ctx;
      assert list == front + [i];
      if i < |c1.outBufs| { OneMoreReady(c, c1, front, i, mapped, now); }
    }
  }

  lemma OutPlacedStep(c: Ctx, n: nat, now: nat, a: Action)
    requires OutPlaced(c) && !CtxStep(c, n, now, a).fault
    ensures OutPlaced(CtxStep(c, n, now, a).ctx)
  {
    if a.ActRun? {
      if CanRun(c) { OutServedPlaced(c, n, now, a); }
    } else if a.ActStreamOnOut? {
      if !c.outQ.on && c.outBufs != [] { HeldPlaced(c, c.outQ.held, n, a.mapped, now); }
    } else if Provenance.OnCapture(a) {
      OutputLeft(c, n, now, a);
    } else {
      OutCallPlaced(c, n, now, a);
    }
  }

  lemma OutCallPlaced(c: Ctx, n: nat, now: nat, a: Action)
    requires OutPlaced(c) && (a.ActQBufOut? || Provenance.OnOutput(a)) && !CtxStep(c, n, now, a).fault
    ensures OutPlaced(CtxStep(c, n, now, a).ctx)
  {
  }

  lemma OutServedPlaced(c: Ctx, n: nat, now: nat, a: Action)
    requires OutPlaced(c) && a.ActRun? && CanRun(c) && !DeviceRun(c, n, a.mapped, now, a.cpu).fault
    ensures OutPlaced(DeviceRun(c, n, a.mapped, now, a.cpu).ctx)
  {
    Snapshot.RunServes(c, n, a.mapped, now, a.cpu);
  }

  lemma CapPlacedStep(c: Ctx, n: nat, now: nat, a: Action)
    requires CapPlaced(c) && !CtxStep(c, n, now, a).fault
    ensures CapPlaced(CtxStep(c, n, now, a).ctx)
  {
    if ExactlyOnce.LeavesCapture(a) {
      ExactlyOnce.CaptureLeft(c, n, now, a);
    } else if a.ActRun? {
      if CanRun(c) { CapServedPlaced(c, n, now, a); }
    } else {
      CapCallPlaced(c, n, now, a);
    }
  }

  lemma CapServedPlaced(c: Ctx, n: nat, now: nat, a: Action)
    requires CapPlaced(c) && a.ActRun? && CanRun(c) && !DeviceRun(c, n, a.mapped, now, a.cpu).fault
    ensures CapPlaced(DeviceRun(c, n, a.mapped, now, a.cpu).ctx)
  {
    Snapshot.RunServes(c, n, a.mapped, now, a.cpu);
  }

  lemma CapCallPlaced(c: Ctx, n: nat, now: nat, a: Action)
    requires CapPlaced(c) && Provenance.OnCapture(a)
    ensures CapPlaced(CtxStep(c, n, now, a).ctx)
  {
  }

  // ---- runs ----

  /** No access has left a plane, and every plane waiting in the driver holds its context's image. */
  ghost predicate DevOk(d: Dev) { !d.faulted && forall f :: f in d.ctxs ==> CtxOk(d.ctxs[f]) }

  /** What every reachable state satisfies about its queues. */
  ghost predicate Reached(d: Dev) {
    Provenance.DevOk(d) && ExactlyOnce.DevOk(d) && (!d.faulted ==> DevPlaced(d))
  }

  ghost predicate DevPlaced(d: Dev) { forall f :: f in d.ctxs ==> OutPlaced(d.ctxs[f]) && CapPlaced(d.ctxs[f]) }

  lemma {:induction false} RunReaches(d: Dev, es: seq<Event>)
    requires Reached(d)
    ensures Reached(M2m.Run(d, es))
  {
    if es != [] {
      RunReaches(d, es[..|es| - 1]);
      StepReaches(M2m.Run(d, es[..|es| - 1]), es[|es| - 1]);
    }
  }

  lemma StepReaches(d: Dev, e: Event)
    requires Reached(d)
    ensures Reached(Step(d, e))
  {
    Provenance.StepKeeps(d, e);
    ExactlyOnce.StepKeeps(d, e);
    if !Step(d, e).faulted { StepPlaces(d, e); }
  }

  lemma StepPlaces(d: Dev, e: Event)
    requires !Step(d, e).faulted && (!d.faulted ==> DevPlaced(d))
    ensures DevPlaced(Step(d, e))
  {
    if e.ctx in d.ctxs {
      OutPlacedStep(d.ctxs[e.ctx], d.sequence, e.now, e.act);
      CapPlacedStep(d.ctxs[e.ctx], d.sequence, e.now, e.act);
    }
  }

  lemma InitialReached(d: Dev)
    requires Initial(d)
    ensures Reached(d) && DevOk(d)
  {
    Provenance.OpenedOk();
    ExactlyOnce.InitialOk(d);
    OpenedOk();
  }

  lemma OpenedOk()
    ensures CtxOk(OPENED) && OutPlaced(OPENED) && CapPlaced(OPENED)
  {
  }

  lemma StepSafeExactly(s: Dev, e: Event)
    requires DevOk(s) && Provenance.DevOk(s) && ExactlyOnce.DevOk(s)
    ensures DevOk(Step(s, e)) <==> (e.ctx in s.ctxs ==> ChangeFits(s.ctxs[e.ctx], e.act))
  {
    if e.ctx in s.ctxs {
      var c := s.ctxs[e.ctx];
      AppliedOk(s, e, CtxStep(c, s.sequence, e.now, e.act));
      if e.act.ActSetFmt? {
        FormatChangeSafeExactly(c, e.act.out, e.act.width, e.act.height);
      } else {
        StepKeeps(c, s.sequence, e.now, e.act);
      }
    }
  }

  lemma AppliedOk(s: Dev, e: Event, r: Result)
    requires DevOk(s) && e.ctx in s.ctxs
    ensures DevOk(Applied(s, e, r)) <==> !r.fault && CtxOk(r.ctx)
  {
    assert Applied(s, e, r).ctxs[e.ctx] == r.ctx;
  }

  // ---- a change that does not fit can fault ----

  /** Actions in turn on one context; nothing happens after a fault. */
  function Acts(c: Ctx, n: nat, now: nat, acts: seq<Action>): Result
    decreases |acts|
  {
    if acts == [] then Same(c, n) else
      var r := CtxStep(c, n, now, acts[0]);
      if r.fault then r else Acts(r.ctx, r.sequence, now, acts[1..])
  }

  lemma ActsNext(c: Ctx, n: nat, now: nat, a: Action, rest: seq<Action>)
    requires var r := CtxStep(c, n, now, a); r.fault || Acts(r.ctx, r.sequence, now, rest).fault
    ensures Acts(c, n, now, [a] + rest).fault
  {
    assert ([a] + rest)[0] == a && ([a] + rest)[1..] == rest;
  }

  function On(f: nat, now: nat, acts: seq<Action>): seq<Event> {
    seq(|acts|, k requires 0 <= k < |acts| => Event(f, now, acts[k]))
  }

  lemma {:induction false} FaultStays(d: Dev, es: seq<Event>)
    requires d.faulted
    ensures M2m.Run(d, es).faulted
  {
    if es != [] { FaultStays(d, es[..|es| - 1]); }
  }

  lemma {:induction false} RunConcat(d: Dev, a: seq<Event>, b: seq<Event>)
    ensures M2m.Run(d, a + b) == M2m.Run(M2m.Run(d, a), b)
  {
    if b == [] {
      assert a + b == a;
    } else {
      assert (a + b)[..|a + b| - 1] == a + b[..|b| - 1];
      RunConcat(d, a, b[..|b| - 1]);
    }
  }

  /** A context that faults takes the device with it. */
  lemma {:induction false} RunActs(d: Dev, f: nat, now: nat, acts: seq<Action>)
    requires f in d.ctxs && !d.faulted && Acts(d.ctxs[f], d.sequence, now, acts).fault
    ensures M2m.Run(d, On(f, now, acts)).faulted
    decreases |acts|
  {
    var e, rest := Event(f, now, acts[0]), acts[1..];
    assert On(f, now, acts) == [e] + On(f, now, rest) && [e][..0] == [];
    var d1 := Step(d, e);
    assert M2m.Run(d, [e]) == d1;
    RunConcat(d, [e], On(f, now, rest));
    if d1.faulted { FaultStays(d1, On(f, now, rest)); } else { RunActs(d1, f, now, rest); }
  }

  /** Feed CAPTURE buffer 0 to one job after the other until OUTPUT buffer `k` of the ready queue is served. */
  function FeedCapture(k: nat): seq<Action> {
    [ActQBufCap(0, None)] + ([ActRun(true, 0)] + if k == 0 then [] else [ActDqBufCap] + FeedCapture(k - 1))
  }

  /** The ready queue holds real buffers, and the one at `k` is too small for the format. */
  ghost predicate SmallOut(c: Ctx, k: nat) {
    && c.outQ.on && FormatsOk(c) && k < |c.outQ.ready|
    && (forall j :: 0 <= j < |c.outQ.ready| ==> c.outQ.ready[j] < |c.outBufs|)
    && |c.outBufs[c.outQ.ready[k]].plane| < c.outFmt.sizeimage
  }

  ghost predicate SpareCap(c: Ctx) {
    && c.capQ == Queue([], [], [], true) && c.capBufs != [] && c.capBufs[0].state == DEQUEUED
    && |c.capBufs[0].plane| == c.capFmt.sizeimage < TWO32
  }

  lemma SmallUnsafe(c: Ctx)
    requires CanRun(c) && FormatsOk(c)
    requires var size := c.outFmt.sizeimage;
      |c.outBufs[c.outQ.ready[0]].plane| < size || |c.capBufs[c.capQ.ready[0]].plane| < size
    ensures !RunSafe(c)
  {
    assert c.outFmt.height * c.outFmt.stride == c.outFmt.sizeimage;
  }

  /** One job on a spare CAPTURE buffer, which comes back. */
  lemma CaptureRound(c: Ctx, n: nat, now: nat, k: nat)
    requires SmallOut(c, k) && SpareCap(c)
    ensures var c1 := QBufCap(c, n, 0, None).ctx; CanRun(c1)
    ensures var r := DeviceRun(QBufCap(c, n, 0, None).ctx, n, true, now, 0);
      && (k == 0 ==> r.fault)
      && (k > 0 && !r.fault ==>
            var c3 := DqBufCap(r.ctx, r.sequence, now).ctx; SmallOut(c3, k - 1) && SpareCap(c3))
  {
    var c1 := QBufCap(c, n, 0, None).ctx;
    assert c1.capQ.ready == [0] && c1.capBufs[0].state == ACTIVE;
    Snapshot.RunServes(c1, n, true, now, 0);
    if k == 0 { SmallUnsafe(c1); }
    var r := DeviceRun(c1, n, true, now, 0);
    if k > 0 && !r.fault {
      assert r.ctx.capQ == Queue([], [], [0], true) && r.ctx.outQ.ready == c.outQ.ready[1..];
      assert c.outQ.ready[1..][k - 1] == c.outQ.ready[k];
    }
  }

  lemma CaptureRoundFaults(c: Ctx, n: nat, now: nat, rest: seq<Action>)
    requires var c1 := QBufCap(c, n, 0, None).ctx;
      CanRun(c1) && var r := DeviceRun(c1, n, true, now, 0); r.fault || Acts(r.ctx, r.sequence, now, rest).fault
    ensures Acts(c, n, now, [ActQBufCap(0, None)] + ([ActRun(true, 0)] + rest)).fault
  {
    ActsNext(QBufCap(c, n, 0, None).ctx, n, now, ActRun(true, 0), rest);
    ActsNext(c, n, now, ActQBufCap(0, None), [ActRun(true, 0)] + rest);
  }

  lemma AfterDqCap(c: Ctx, n: nat, now: nat, rest: seq<Action>)
    requires Acts(DqBufCap(c, n, now).ctx, n, now, rest).fault
    ensures Acts(c, n, now, [ActDqBufCap] + rest).fault
  {
    ActsNext(c, n, now, ActDqBufCap, rest);
  }

  lemma AfterDqOut(c: Ctx, n: nat, now: nat, rest: seq<Action>)
    requires Acts(DqBufOut(c, n).ctx, n, now, rest).fault
    ensures Acts(c, n, now, [ActDqBufOut] + rest).fault
  {
    ActsNext(c, n, now, ActDqBufOut, rest);
  }

  lemma {:induction false} FeedCaptureFaults(c: Ctx, n: nat, now: nat, k: nat)
    requires SmallOut(c, k) && SpareCap(c)
    ensures Acts(c, n, now, FeedCapture(k)).fault
    decreases k
  {
    CaptureRound(c, n, now, k);
    var r := DeviceRun(QBufCap(c, n, 0, None).ctx, n, true, now, 0);
    if k > 0 && !r.fault {
      FeedCaptureFaults(DqBufCap(r.ctx, r.sequence, now).ctx, r.sequence, now, k - 1);
      AfterDqCap(r.ctx, r.sequence, now, FeedCapture(k - 1));
    }
    CaptureRoundFaults(c, n, now, if k == 0 then [] else [ActDqBufCap] + FeedCapture(k - 1));
  }

  /** Feed OUTPUT buffer 0 to one job after the other until CAPTURE buffer `k` of the ready queue is used. */
  function FeedOutput(k: nat): seq<Action> {
    [ActQBufOut(0, None, true)] + ([ActRun(true, 0)] + if k == 0 then [] else [ActDqBufOut] + FeedOutput(k - 1))
  }

  ghost predicate SmallCap(c: Ctx, k: nat) {
    && c.capQ.on && FormatsOk(c) && k < |c.capQ.ready|
    && (forall j :: 0 <= j < |c.capQ.ready| ==> c.capQ.ready[j] < |c.capBufs|)
    && |c.capBufs[c.capQ.ready[k]].plane| < c.capFmt.sizeimage
  }

  ghost predicate SpareOut(c: Ctx) {
    && c.outQ == Queue([], [], [], true) && c.outBufs != [] && c.outBufs[0].state == DEQUEUED
    && |c.outBufs[0].plane| == c.outFmt.sizeimage < TWO32
  }

  /** One job on a spare OUTPUT buffer, which comes back. */
  lemma OutputRound(c: Ctx, n: nat, now: nat, k: nat)
    requires SmallCap(c, k) && SpareOut(c) && !QBufOut(c, n, 0, None, true, now).fault
    ensures QBufOut(c, n, 0, None, true, now).sequence == n
    ensures var c1 := QBufOut(c, n, 0, None, true, now).ctx; CanRun(c1)
    ensures var r := DeviceRun(QBufOut(c, n, 0, None, true, now).ctx, n, true, now, 0);
      && (k == 0 ==> r.fault)
      && (k > 0 && !r.fault ==>
            var c3 := DqBufOut(r.ctx, r.sequence).ctx; SmallCap(c3, k - 1) && SpareOut(c3))
  {
    var c1 := QBufOut(c, n, 0, None, true, now).ctx;
    assert c1.outQ == Queue([], [0], [], true) && c1.capBufs == c.capBufs;
    assert |c1.outBufs[0].plane| == |c.outBufs[0].plane|;
    Snapshot.RunServes(c1, n, true, now, 0);
    if k == 0 { SmallUnsafe(c1); }
    var r := DeviceRun(c1, n, true, now, 0);
    if k > 0 && !r.fault {
      assert r.ctx.outQ == Queue([], [], [0], true) && r.ctx.capQ.ready == c.capQ.ready[1..];
      assert c.capQ.ready[1..][k - 1] == c.capQ.ready[k];
    }
  }

  lemma OutputRoundFaults(c: Ctx, n: nat, now: nat, rest: seq<Action>)
    requires var q := QBufOut(c, n, 0, None, true, now);
      q.fault || (q.sequence == n && CanRun(q.ctx) &&
                  var r := DeviceRun(q.ctx, n, true, now, 0); r.fault || Acts(r.ctx, r.sequence, now, rest).fault)
    ensures Acts(c, n, now, [ActQBufOut(0, None, true)] + ([ActRun(true, 0)] + rest)).fault
  {
    var q := QBufOut(c, n, 0, None, true, now);
    if !q.fault { ActsNext(q.ctx, n, now, ActRun(true, 0), rest); }
    ActsNext(c, n, now, ActQBufOut(0, None, true), [ActRun(true, 0)] + rest);
  }

  lemma {:induction false} FeedOutputFaults(c: Ctx, n: nat, now: nat, k: nat)
    requires SmallCap(c, k) && SpareOut(c)
    ensures Acts(c, n, now, FeedOutput(k)).fault
    decreases k
  {
    var q := QBufOut(c, n, 0, None, true, now);
    if !q.fault {
      OutputRound(c, n, now, k);
      var r := DeviceRun(q.ctx, n, true, now, 0);
      if k > 0 && !r.fault {
        FeedOutputFaults(DqBufOut(r.ctx, r.sequence).ctx, r.sequence, now, k - 1);
        AfterDqOut(r.ctx, r.sequence, now, FeedOutput(k - 1));
      }
    }
    OutputRoundFaults(c, n, now, if k == 0 then [] else [ActDqBufOut] + FeedOutput(k - 1));
  }

  const PARAMS := P.Params(30, 0, 0)

  /** A plane that just holds the image. */
  function Image(size: nat): Plane { seq(size, _ => 0) }

  /** Two CAPTURE buffers, both queues streaming, then jobs up to the `k`-th ready OUTPUT buffer. */
  function ServeOutput(size: nat, k: nat): seq<Action> {
    [ActReqBufs(false, MMAP, [Image(size), Image(size)])] +
    ([ActStreamOnCap] + ([ActStreamOnOut(PARAMS, true)] + FeedCapture(k)))
  }

  function ServeCapture(size: nat, k: nat): seq<Action> {
    [ActReqBufs(true, MMAP, [Image(size), Image(size)])] +
    ([ActStreamOnOut(PARAMS, true)] + ([ActStreamOnCap] + FeedOutput(k)))
  }

  /** OUTPUT streams: a small buffer that was waiting is ready. */
  lemma OutStreams(c: Ctx, n: nat, now: nat, i: nat)
    requires FormatsOk(c) && OutPlaced(c) && Provenance.CtxOk(c) && !StreamOnOut(c, n, PARAMS, true, now).fault
    requires i < |c.outBufs| && Waiting(c.outBufs[i].state) && |c.outBufs[i].plane| < c.outFmt.sizeimage
    requires c.outBufs[i].state != PREPARED
    ensures var c' := StreamOnOut(c, n, PARAMS, true, now).ctx; exists k: nat :: SmallOut(c', k)
  {
    var c' := StreamOnOut(c, n, PARAMS, true, now).ctx;
    Provenance.StreamOnOutKeeps(c, n, PARAMS, true, now);
    HeldFormats(c, c.outQ.held, n, true, now);
    if !c.outQ.on { HeldPlaced(c, c.outQ.held, n, true, now); }
    assert i in c'.outQ.ready;
    var k: nat :| k < |c'.outQ.ready| && c'.outQ.ready[k] == i;
    assert SmallOut(c', k);
  }

  /** Two fresh CAPTURE buffers, streaming: the first is spare. */
  lemma FreshCapture(c: Ctx, n: nat)
    requires FormatsOk(c) && c.capBufs == [] && !c.capQ.on
    ensures var c1 := ReqBufsCap(c, n, [Image(c.capFmt.sizeimage), Image(c.capFmt.sizeimage)]).ctx;
      var c2 := StreamOnCap(c1, n).ctx;
      SpareCap(c2) && c2 == c.(capBufs := c2.capBufs, capQ := c2.capQ)
  {
    Cv.FrameBytes(c.capFmt.width, c.capFmt.height);
    var c1 := ReqBufsCap(c, n, [Image(c.capFmt.sizeimage), Image(c.capFmt.sizeimage)]).ctx;
    assert |c1.capBufs| == 2 && c1.capBufs[0].state == DEQUEUED;
  }

  /** `c` with two fresh CAPTURE buffers and CAPTURE streaming. */
  function WithCapture(c: Ctx, n: nat): Ctx {
    StreamOnCap(ReqBufsCap(c, n, [Image(c.outFmt.sizeimage), Image(c.outFmt.sizeimage)]).ctx, n).ctx
  }

  lemma ServeOutputFaults(c: Ctx, n: nat, now: nat, k: nat)
    requires FormatsOk(c) && c.capBufs == [] && !c.capQ.on
    requires var r := StreamOnOut(WithCapture(c, n), n, PARAMS, true, now); r.fault || SmallOut(r.ctx, k)
    ensures Acts(c, n, now, ServeOutput(c.outFmt.sizeimage, k)).fault
  {
    var size, c2 := c.outFmt.sizeimage, WithCapture(c, n);
    var c1 := ReqBufsCap(c, n, [Image(size), Image(size)]).ctx;
    FreshCapture(c, n);
    var r := StreamOnOut(c2, n, PARAMS, true, now);
    if !r.fault {
      ExactlyOnce.HeldUntouched(c2, c2.outQ.held, n, true, now);
      HeldFormats(c2, c2.outQ.held, n, true, now);
      FeedCaptureFaults(r.ctx, r.sequence, now, k);
    }
    ActsNext(c2, n, now, ActStreamOnOut(PARAMS, true), FeedCapture(k));
    ActsNext(c1, n, now, ActStreamOnCap, [ActStreamOnOut(PARAMS, true)] + FeedCapture(k));
    ActsNext(c, n, now, ActReqBufs(false, MMAP, [Image(size), Image(size)]),
             [ActStreamOnCap] + ([ActStreamOnOut(PARAMS, true)] + FeedCapture(k)));
  }

  /** A CAPTURE format change past the size of a waiting OUTPUT buffer. */
  lemma CaptureChangeFaults(c: Ctx, n: nat, now: nat, i: nat) returns (k: nat)
    requires FormatsOk(c) && c.capBufs == [] && !c.capQ.on && OutPlaced(c) && Provenance.CtxOk(c)
    requires i < |c.outBufs| && Waiting(c.outBufs[i].state) && |c.outBufs[i].plane| < c.outFmt.sizeimage
    requires c.outBufs[i].state != PREPARED
    ensures Acts(c, n, now, ServeOutput(c.outFmt.sizeimage, k)).fault
  {
    var c2 := WithCapture(c, n);
    FreshCapture(c, n);
    Provenance.SameOutput(c, c2);
    var r := StreamOnOut(c2, n, PARAMS, true, now);
    k := 0;
    if !r.fault {
      OutStreams(c2, n, now, i);
      k :| SmallOut(r.ctx, k);
    }
    ServeOutputFaults(c, n, now, k);
  }

  /** CAPTURE streams: a small buffer that was waiting is ready. */
  lemma CapStreams(c: Ctx, n: nat, i: nat)
    requires FormatsOk(c) && CapPlaced(c) && ExactlyOnce.CtxOk(c)
    requires i < |c.capBufs| && Waiting(c.capBufs[i].state) && |c.capBufs[i].plane| < c.capFmt.sizeimage
    requires c.capBufs[i].state != PREPARED
    ensures var c' := StreamOnCap(c, n).ctx; exists k: nat :: SmallCap(c', k)
  {
    var c' := StreamOnCap(c, n).ctx;
    ExactlyOnce.StreamOnCapKeeps(c, n);
    assert i in c'.capQ.ready;
    var k: nat :| k < |c'.capQ.ready| && c'.capQ.ready[k] == i;
    assert SmallCap(c', k);
  }

  /** Two fresh OUTPUT buffers, streaming: the first is spare. */
  lemma FreshOutput(c: Ctx, n: nat, now: nat)
    requires FormatsOk(c) && c.outBufs == [] && !c.outQ.on
    ensures var c1 := ReqBufsOut(c, n, MMAP, [Image(c.outFmt.sizeimage), Image(c.outFmt.sizeimage)]).ctx;
      var r := StreamOnOut(c1, n, PARAMS, true, now);
      && !r.fault && r.sequence == n && SpareOut(r.ctx)
      && r.ctx == c.(outBufs := r.ctx.outBufs, outQ := r.ctx.outQ, src := r.ctx.src)
  {
    Cv.FrameBytes(c.outFmt.width, c.outFmt.height);
    var c1 := ReqBufsOut(c, n, MMAP, [Image(c.outFmt.sizeimage), Image(c.outFmt.sizeimage)]).ctx;
    assert |c1.outBufs| == 2 && c1.outBufs[0].state == DEQUEUED && QueueHeld(c1, [], n, true, now) == Same(c1, n);
  }

  /** An OUTPUT format change past the size of a waiting CAPTURE buffer. */
  lemma OutputChangeFaults(c: Ctx, n: nat, now: nat, i: nat) returns (k: nat)
    requires FormatsOk(c) && c.outBufs == [] && !c.outQ.on && CapPlaced(c) && ExactlyOnce.CtxOk(c)
    requires i < |c.capBufs| && Waiting(c.capBufs[i].state) && |c.capBufs[i].plane| < c.capFmt.sizeimage
    requires c.capBufs[i].state != PREPARED
    ensures Acts(c, n, now, ServeCapture(c.outFmt.sizeimage, k)).fault
  {
    var size := c.outFmt.sizeimage;
    var c1 := ReqBufsOut(c, n, MMAP, [Image(size), Image(size)]).ctx;
    var c2 := StreamOnOut(c1, n, PARAMS, true, now).ctx;
    FreshOutput(c, n, now);
    ExactlyOnce.SameCaptureOk(c, c2);
    CapStreams(c2, n, i);
    var c3 := StreamOnCap(c2, n).ctx;
    k :| SmallCap(c3, k);
    ThenFed(c2, n, now, k);
    ActsNext(c1, n, now, ActStreamOnOut(PARAMS, true), [ActStreamOnCap] + FeedOutput(k));
    ActsNext(c, n, now, ActReqBufs(true, MMAP, [Image(size), Image(size)]),
             [ActStreamOnOut(PARAMS, true)] + ([ActStreamOnCap] + FeedOutput(k)));
  }

  lemma ThenFed(c: Ctx, n: nat, now: nat, k: nat)
    requires SmallCap(StreamOnCap(c, n).ctx, k) && SpareOut(StreamOnCap(c, n).ctx)
    ensures Acts(c, n, now, [ActStreamOnCap] + FeedOutput(k)).fault
  {
    FeedOutputFaults(StreamOnCap(c, n).ctx, n, now, k);
    ActsNext(c, n, now, ActStreamOnCap, FeedOutput(k));
  }

  predicate NoFormatChange(es: seq<Event>) { forall k :: 0 <= k < |es| ==> !es[k].act.ActSetFmt? }

  /** Some continuation without a format change makes a producer or a job leave its planes. */
  ghost predicate CanFault(d: Dev) { exists post :: NoFormatChange(post) && M2m.Run(d, post).faulted }

  predicate NoFormatAct(acts: seq<Action>) { forall k :: 0 <= k < |acts| ==> !acts[k].ActSetFmt? }

  lemma {:induction false} FeedsKeepFormat(k: nat)
    ensures NoFormatAct(FeedCapture(k)) && NoFormatAct(FeedOutput(k))
  {
    if k > 0 { FeedsKeepFormat(k - 1); }
  }

  lemma FaultingActs(d: Dev, f: nat, acts: seq<Action>)
    requires f in d.ctxs && !d.faulted && NoFormatAct(acts) && Acts(d.ctxs[f], d.sequence, 0, acts).fault
    ensures CanFault(d)
  {
    RunActs(d, f, 0, acts);
    assert NoFormatChange(On(f, 0, acts));
  }

  lemma RunSingle(d: Dev, e: Event)
    ensures M2m.Run(d, [e]) == Step(d, e)
  {
    assert [e][..0] == [] && M2m.Run(d, []) == d;
  }

  lemma ConsNoFormat(e: Event, post: seq<Event>)
    requires !e.act.ActSetFmt? && NoFormatChange(post)
    ensures NoFormatChange([e] + post)
  {
    assert forall k :: 0 < k < |[e] + post| ==> ([e] + post)[k] == post[k - 1];
  }

  /** A call before the fault makes no difference. */
  lemma CanFaultBefore(d: Dev, e: Event, d': Dev)
    requires !e.act.ActSetFmt? && d' == M2m.Run(d, [e]) && (d'.faulted || CanFault(d'))
    ensures CanFault(d)
  {
    if d'.faulted { assert NoFormatChange([]) && M2m.Run(d', []) == d'; }
    var post :| NoFormatChange(post) && M2m.Run(d', post).faulted;
    RunConcat(d, [e], post);
    ConsNoFormat(e, post);
  }

  /** A small OUTPUT buffer that waits, prepared or queued, beside a CAPTURE queue without buffers. */
  ghost predicate SmallOutWaits(c: Ctx, i: nat) {
    && FormatsOk(c) && c.capBufs == [] && !c.capQ.on && OutPlaced(c) && Provenance.CtxOk(c)
    && i < |c.outBufs| && Waiting(c.outBufs[i].state) && |c.outBufs[i].plane| < c.outFmt.sizeimage
  }

  ghost predicate SmallCapWaits(c: Ctx, i: nat) {
    && FormatsOk(c) && c.outBufs == [] && !c.outQ.on && CapPlaced(c) && ExactlyOnce.CtxOk(c)
    && i < |c.capBufs| && Waiting(c.capBufs[i].state) && |c.capBufs[i].plane| < c.capFmt.sizeimage
  }

  /** A prepared buffer is queued without a further test. */
  lemma QueuePrepared(c: Ctx, n: nat, i: nat)
    requires SmallOutWaits(c, i) && c.outBufs[i].state == PREPARED && !QBufOut(c, n, i, None, true, 0).fault
    ensures var c' := QBufOut(c, n, i, None, true, 0).ctx; SmallOutWaits(c', i) && c'.outBufs[i].state != PREPARED
  {
    OutPlacedStep(c, n, 0, ActQBufOut(i, None, true));
    Provenance.QBufOutKeeps(c, n, i, None, true, 0);
    PreparedQueued(c, n, i);
  }

  lemma PreparedQueued(c: Ctx, n: nat, i: nat)
    requires i < |c.outBufs| && c.outBufs[i].state == PREPARED && !QBufOut(c, n, i, None, true, 0).fault
    ensures var c' := QBufOut(c, n, i, None, true, 0).ctx;
      && c'.outFmt == c.outFmt && c'.capFmt == c.capFmt && c'.capBufs == c.capBufs && c'.capQ == c.capQ
      && |c'.outBufs| == |c.outBufs| && |c'.outBufs[i].plane| == |c.outBufs[i].plane|
      && (c'.outBufs[i].state == QUEUED || c'.outBufs[i].state == ACTIVE)
  {
    assert PutOut(c, i, Handed(c.outBufs[i], None)) == c;
  }

  lemma QueuePreparedCap(c: Ctx, n: nat, i: nat)
    requires SmallCapWaits(c, i) && c.capBufs[i].state == PREPARED
    ensures var c' := QBufCap(c, n, i, None).ctx; SmallCapWaits(c', i) && c'.capBufs[i].state != PREPARED
  {
    CapPlacedStep(c, n, 0, ActQBufCap(i, None));
    ExactlyOnce.QueueCapKeeps(c, n, i, None);
  }

  lemma UnfitOutput(d: Dev, f: nat, i: nat)
    requires f in d.ctxs && !d.faulted && SmallCapWaits(d.ctxs[f], i)
    ensures CanFault(d)
  {
    var c, e := d.ctxs[f], Event(f, 0, ActQBufCap(i, None));
    if c.capBufs[i].state == PREPARED {
      QueuePreparedCap(c, d.sequence, i);
      UnfitQueuedCap(Step(d, e), f, i);
      RunSingle(d, e);
      CanFaultBefore(d, e, Step(d, e));
    } else {
      UnfitQueuedCap(d, f, i);
    }
  }

  lemma UnfitQueuedCap(d: Dev, f: nat, i: nat)
    requires f in d.ctxs && !d.faulted && SmallCapWaits(d.ctxs[f], i) && d.ctxs[f].capBufs[i].state != PREPARED
    ensures CanFault(d)
  {
    var k := OutputChangeFaults(d.ctxs[f], d.sequence, 0, i);
    FeedsKeepFormat(k);
    FaultingActs(d, f, ServeCapture(d.ctxs[f].outFmt.sizeimage, k));
  }

  lemma UnfitCapture(d: Dev, f: nat, i: nat)
    requires f in d.ctxs && !d.faulted && SmallOutWaits(d.ctxs[f], i)
    ensures CanFault(d)
  {
    var c, e := d.ctxs[f], Event(f, 0, ActQBufOut(i, None, true));
    if c.outBufs[i].state == PREPARED {
      if !Step(d, e).faulted {
        QueuePrepared(c, d.sequence, i);
        UnfitQueuedOut(Step(d, e), f, i);
      }
      RunSingle(d, e);
      CanFaultBefore(d, e, Step(d, e));
    } else {
      UnfitQueuedOut(d, f, i);
    }
  }

  lemma UnfitQueuedOut(d: Dev, f: nat, i: nat)
    requires f in d.ctxs && !d.faulted && SmallOutWaits(d.ctxs[f], i) && d.ctxs[f].outBufs[i].state != PREPARED
    ensures CanFault(d)
  {
    var k := CaptureChangeFaults(d.ctxs[f], d.sequence, 0, i);
    FeedsKeepFormat(k);
    FaultingActs(d, f, ServeOutput(d.ctxs[f].outFmt.sizeimage, k));
  }

  /** After a change that does not fit, a fault is only calls away. */
  lemma UnfitCanFault(s: Dev, e: Event)
    requires Reached(s) && !s.faulted && e.ctx in s.ctxs && !ChangeFits(s.ctxs[e.ctx], e.act)
    ensures CanFault(Step(s, e))
  {
    var c, d := s.ctxs[e.ctx], Step(s, e);
    var c' := SetFmt(c, e.act.out, e.act.width, e.act.height);
    FillPixOk(e.act.width, e.act.height);
    assert d.ctxs[e.ctx] == c' && !d.faulted && FormatsOk(c') && OutPlaced(c) && CapPlaced(c);
    if e.act.out {
      ExactlyOnce.SameCaptureOk(c, c');
      var i :| 0 <= i < |c.capBufs| && Waiting(c.capBufs[i].state) && |c.capBufs[i].plane| < c'.capFmt.sizeimage;
      UnfitOutput(d, e.ctx, i);
    } else {
      Provenance.SameOutput(c, c');
      var i :| 0 <= i < |c.outBufs| && Waiting(c.outBufs[i].state) && |c.outBufs[i].plane| < c'.outFmt.sizeimage;
      UnfitCapture(d, e.ctx, i);
    }
  }

  /** With room in every waiting plane, nothing short of a format change can fault. */
  lemma {:induction false} SafeStays(s: Dev, post: seq<Event>)
    requires DevOk(s) && Reached(s) && NoFormatChange(post)
    ensures DevOk(M2m.Run(s, post))
  {
    if post != [] {
      var front := post[..|post| - 1];
      SafeStays(s, front);
      RunReaches(s, front);
      StepSafeExactly(M2m.Run(s, front), post[|post| - 1]);
    }
  }

  lemma SafeCannotFault(s: Dev)
    requires DevOk(s) && Reached(s)
    ensures !CanFault(s)
  {
    forall post | NoFormatChange(post) ensures !M2m.Run(s, post).faulted { SafeStays(s, post); }
  }

  // ---- whole runs ----

  /** Every format change of the run fits the planes waiting when it is made. */
  ghost predicate ChangesFit(d: Dev, es: seq<Event>) {
    es == [] || (
      var front, e := es[..|es| - 1], es[|es| - 1];
      && ChangesFit(d, front)
      && (e.ctx in M2m.Run(d, front).ctxs ==> ChangeFits(M2m.Run(d, front).ctxs[e.ctx], e.act)))
  }

  /** Nowhere along the run can a fault be reached without a further format change. */
  ghost predicate NeverExposed(d: Dev, es: seq<Event>) {
    !CanFault(M2m.Run(d, es)) && (es == [] || NeverExposed(d, es[..|es| - 1]))
  }

  lemma {:induction false} FitKeepsRoom(d: Dev, es: seq<Event>)
    requires Initial(d) && ChangesFit(d, es)
    ensures DevOk(M2m.Run(d, es)) && Reached(M2m.Run(d, es))
  {
    InitialReached(d);
    if es != [] {
      var front := es[..|es| - 1];
      FitKeepsRoom(d, front);
      StepReaches(M2m.Run(d, front), es[|es| - 1]);
      StepSafeExactly(M2m.Run(d, front), es[|es| - 1]);
    }
  }

  /**
   * Memory safety of whole runs, exactly. At no point of a run can a producer or a job leave its
   * planes, now or after any further calls that change no format, if and only if every accepted
   * format change found room for the new image in the planes waiting on the other queue.
   */
  lemma {:induction false} GeometrySafe(d: Dev, es: seq<Event>)
    requires Initial(d)
    ensures NeverExposed(d, es) <==> ChangesFit(d, es)
  {
    if ChangesFit(d, es) {
      FitKeepsRoom(d, es);
      SafeCannotFault(M2m.Run(d, es));
    }
    if es != [] {
      var front, e := es[..|es| - 1], es[|es| - 1];
      GeometrySafe(d, front);
      if ChangesFit(d, front) && !ChangesFit(d, es) {
        FitKeepsRoom(d, front);
        UnfitCanFault(M2m.Run(d, front), e);
      }
    }
  }

  /** In particular, such a run has not faulted. */
  lemma FittingRunHolds(d: Dev, es: seq<Event>)
    requires Initial(d) && ChangesFit(d, es)
    ensures !M2m.Run(d, es).faulted
  {
    FitKeepsRoom(d, es);
  }

  /** Refusing a change while either queue has buffers would be enough. */
  lemma BothQueuesTested(c: Ctx, a: Action)
    requires a.ActSetFmt? ==> c.outBufs == [] && c.capBufs == []
    ensures ChangeFits(c, a)
  {
  }

  lemma FormatStep(c: Ctx, n: nat, now: nat, a: Action)
    requires FormatsOk(c)
    ensures FormatsOk(CtxStep(c, n, now, a).ctx)
  {
    if a.ActSetFmt? { FillPixOk(a.width, a.height); }
    if a.ActStreamOnOut? { HeldFormats(c, c.outQ.held, n, a.mapped, now); }
  }

  lemma {:induction false} HeldFormats(c: Ctx, list: seq<nat>, n: nat, mapped: bool, now: nat)
    ensures var r := QueueHeld(c, list, n, mapped, now).ctx; r.outFmt == c.outFmt && r.capFmt == c.capFmt
    decreases |list|
  {
    if list != [] { HeldFormats(c, list[..|list| - 1], n, mapped, now); }
  }

  /** In every run, safe or not, both formats of every context agree and are well formed. */
  lemma {:induction false} FormatsAlwaysAgree(d: Dev, es: seq<Event>)
    requires Initial(d)
    ensures forall f :: f in M2m.Run(d, es).ctxs ==> FormatsOk(M2m.Run(d, es).ctxs[f])
  {
    if es != [] {
      FormatsAlwaysAgree(d, es[..|es| - 1]);
      var s, e := M2m.Run(d, es[..|es| - 1]), es[|es| - 1];
      if e.ctx in s.ctxs && !s.faulted { FormatStep(s.ctxs[e.ctx], s.sequence, e.now, e.act); }
    }
  }

  // ---- one such run ----

  /** A page, which is what an OUTPUT buffer for a 1x1 image gets. */
  function Page(): Plane { seq(4096, _ => 7) }

  /** Allocate OUTPUT for 1x1 and queue a buffer, then allocate CAPTURE for 4096x2, stream and run. */
  function WidenAcross(): seq<Action> {
    [ActSetFmt(true, 1, 1)] + ([ActReqBufs(true, MMAP, [Page(), Page()])] + ([ActQBufOut(0, None, true)] +
    ([ActSetFmt(false, 4096, 2)] + ServeOutput(8192, 0))))
  }

  lemma NarrowQueued()
    ensures var c := ReqBufsOut(SetFmt(OPENED, true, 1, 1), 0, MMAP, [Page(), Page()]).ctx;
      var r := QBufOut(c, 0, 0, None, true, 0);
      && !r.fault && r.sequence == 0 && r.ctx.outQ == Queue([0], [], [], false)
      && r.ctx.capBufs == [] && r.ctx.capQ == IDLE
      && |r.ctx.outBufs| == 2 && |r.ctx.outBufs[0].plane| == 4096 && r.ctx.src.producer == P.Fixture
  {
    var c := ReqBufsOut(SetFmt(OPENED, true, 1, 1), 0, MMAP, [Page(), Page()]).ctx;
    assert |c.outBufs| == 2 && c.outBufs[0].plane == Page() && c.outFmt.sizeimage == 1;
  }

  /**
   * The change is accepted while a page-sized OUTPUT buffer waits, and the job that follows reads
   * past it: a run of nine calls on any freshly opened context.
   */
  lemma CrossQueueChangeFaults(d: Dev, f: nat)
    requires Initial(d) && f in d.ctxs
    ensures M2m.Run(d, On(f, 0, WidenAcross())).faulted
  {
    var c1 := SetFmt(OPENED, true, 1, 1);
    var c2 := ReqBufsOut(c1, 0, MMAP, [Page(), Page()]).ctx;
    var c3 := QBufOut(c2, 0, 0, None, true, 0).ctx;
    var c4 := SetFmt(c3, false, 4096, 2);
    NarrowQueued();
    WidenedFaults(c4);
    var rest := [ActSetFmt(false, 4096, 2)] + ServeOutput(8192, 0);
    AfterFormat(c3, false, 4096, 2, ServeOutput(8192, 0));
    ActsNext(c2, 0, 0, ActQBufOut(0, None, true), rest);
    AfterRequest(c1, [Page(), Page()], [ActQBufOut(0, None, true)] + rest);
    AfterFormat(OPENED, true, 1, 1, [ActReqBufs(true, MMAP, [Page(), Page()])] + ([ActQBufOut(0, None, true)] + rest));
    RunActs(d, f, 0, WidenAcross());
  }

  lemma WidenedFaults(c: Ctx)
    requires c.outFmt == c.capFmt == Fmt(4096, 2, 4096, 8192) && c.capBufs == [] && c.capQ == IDLE
    requires c.outQ == Queue([0], [], [], false) && |c.outBufs| == 2 && |c.outBufs[0].plane| == 4096
    requires c.src.producer == P.Fixture
    ensures Acts(c, 0, 0, ServeOutput(8192, 0)).fault
  {
    var c2 := WithCapture(c, 0);
    FreshCapture(c, 0);
    HeldOne(c2);
    ServeOutputFaults(c, 0, 0, 0);
  }

  lemma HeldOne(c: Ctx)
    requires c.outFmt == c.capFmt == Fmt(4096, 2, 4096, 8192) && c.src.producer == P.Fixture
    requires c.outQ == Queue([0], [], [], false) && |c.outBufs| == 2 && |c.outBufs[0].plane| == 4096
    ensures SmallOut(StreamOnOut(c, 0, PARAMS, true, 0).ctx, 0)
  {
    assert [0][..0] == [];
    assert QueueHeld(c, [0][..0], 0, true, 0) == Same(c, 0);
    assert QueueHeld(c, [0], 0, true, 0).ctx == BufQueueOut(c, 0, true, 0);
  }

  /** Prepare a page-sized OUTPUT buffer for 1x1 with the synthetic source running, widen CAPTURE, queue it. */
  function PrepareThenWiden(): seq<Action> {
    [ActSetBackend(Source.BACKEND_SYNTHETIC)] + ([ActSetFmt(true, 1, 1)] + ([ActReqBufs(true, MMAP, [Page(), Page()])] +
    ([ActPrepare(true, 0, None)] + StreamWidenQueue())))
  }

  function StreamWidenQueue(): seq<Action> {
    [ActStreamOnOut(PARAMS, true)] + ([ActSetFmt(false, 4096, 2)] + [ActQBufOut(0, None, true)])
  }

  lemma FilledPastEnd(c: Ctx)
    requires |c.outBufs| == 2 && c.outBufs[0].state == PREPARED && |c.outBufs[0].plane| == 4096 && c.outQ == IDLE
    requires c.capBufs == [] && c.src.producer == P.Synthetic(None)
    ensures Acts(c, 0, 0, StreamWidenQueue()).fault
  {
    var c5 := StreamOnOut(c, 0, PARAMS, true, 0).ctx;
    var a6, a7 := ActSetFmt(false, 4096, 2), ActQBufOut(0, None, true);
    WidenedFill(c);
    assert [a7] + [] == [a7];
    ActsNext(SetFmt(c5, false, 4096, 2), 0, 0, a7, []);
    ActsNext(c5, 0, 0, a6, [a7]);
    ActsNext(c, 0, 0, ActStreamOnOut(PARAMS, true), [a6] + [a7]);
  }

  lemma PreparedState()
    ensures var c1 := SetFmt(SetBackend(OPENED, 0, Source.BACKEND_SYNTHETIC).ctx, true, 1, 1);
      var c := ReqBufsOut(c1, 0, MMAP, [Page(), Page()]).ctx;
      var c' := PrepareOut(c, 0, 0, None).ctx;
      && |c'.outBufs| == 2 && c'.outBufs[0].state == PREPARED && |c'.outBufs[0].plane| == 4096 && c'.outQ == IDLE
      && c'.capBufs == [] && c'.src.producer == P.Synthetic(None)
  {
    var c1 := SetFmt(SetBackend(OPENED, 0, Source.BACKEND_SYNTHETIC).ctx, true, 1, 1);
    var c := ReqBufsOut(c1, 0, MMAP, [Page(), Page()]).ctx;
    assert |c.outBufs| == 2 && c.outBufs[0].plane == Page() && c.outFmt.sizeimage == 1;
  }

  lemma WidenedFill(c: Ctx)
    requires |c.outBufs| == 2 && c.outBufs[0].state == PREPARED && |c.outBufs[0].plane| == 4096 && c.outQ == IDLE
    requires c.capBufs == [] && c.src.producer == P.Synthetic(None)
    ensures var r := StreamOnOut(c, 0, PARAMS, true, 0);
      && !r.fault && r.sequence == 0
      && QBufOut(SetFmt(r.ctx, false, 4096, 2), 0, 0, None, true, 0).fault
  {
    assert QueueHeld(c, [], 0, true, 0) == Same(c, 0);
    var c' := SetFmt(StreamOnOut(c, 0, PARAMS, true, 0).ctx, false, 4096, 2);
    assert c'.outFmt == Fmt(4096, 2, 4096, 8192) && PutOut(c', 0, Handed(c'.outBufs[0], None)) == c';
    assert !QueueSafe(c', 0);
  }

  /**
   * A producer can leave its plane too: QBUF does not test a prepared buffer again, so the fill of
   * the wider frame starts in a page that was measured for the old one. Seven calls, no job.
   */
  lemma PreparedFillFaults(d: Dev, f: nat)
    requires Initial(d) && f in d.ctxs
    ensures M2m.Run(d, On(f, 0, PrepareThenWiden())).faulted
  {
    var c1 := SetBackend(OPENED, 0, Source.BACKEND_SYNTHETIC).ctx;
    var c2 := SetFmt(c1, true, 1, 1);
    var c3 := ReqBufsOut(c2, 0, MMAP, [Page(), Page()]).ctx;
    var rest := [ActPrepare(true, 0, None)] + StreamWidenQueue();
    PreparedState();
    FilledPastEnd(PrepareOut(c3, 0, 0, None).ctx);
    AfterPrepare(c3, 0, StreamWidenQueue());
    AfterRequest(c2, [Page(), Page()], rest);
    AfterFormat(c1, true, 1, 1, [ActReqBufs(true, MMAP, [Page(), Page()])] + rest);
    AfterBackend(OPENED, Source.BACKEND_SYNTHETIC,
                 [ActSetFmt(true, 1, 1)] + ([ActReqBufs(true, MMAP, [Page(), Page()])] + rest));
    RunActs(d, f, 0, PrepareThenWiden());
  }

  lemma AfterPrepare(c: Ctx, i: nat, rest: seq<Action>)
    requires Acts(PrepareOut(c, 0, i, None).ctx, 0, 0, rest).fault
    ensures Acts(c, 0, 0, [ActPrepare(true, i, None)] + rest).fault
  {
    ActsNext(c, 0, 0, ActPrepare(true, i, None), rest);
  }

  lemma AfterRequest(c: Ctx, planes: seq<Plane>, rest: seq<Action>)
    requires Acts(ReqBufsOut(c, 0, MMAP, planes).ctx, 0, 0, rest).fault
    ensures Acts(c, 0, 0, [ActReqBufs(true, MMAP, planes)] + rest).fault
  {
    ActsNext(c, 0, 0, ActReqBufs(true, MMAP, planes), rest);
  }

  lemma AfterFormat(c: Ctx, out: bool, w: u32, h: u32, rest: seq<Action>)
    requires Acts(SetFmt(c, out, w, h), 0, 0, rest).fault
    ensures Acts(c, 0, 0, [ActSetFmt(out, w, h)] + rest).fault
  {
    ActsNext(c, 0, 0, ActSetFmt(out, w, h), rest);
  }

  lemma AfterBackend(c: Ctx, backend: nat, rest: seq<Action>)
    requires Acts(SetBackend(c, 0, backend).ctx, 0, 0, rest).fault
    ensures Acts(c, 0, 0, [ActSetBackend(backend)] + rest).fault
  {
    ActsNext(c, 0, 0, ActSetBackend(backend), rest);
  }
}
