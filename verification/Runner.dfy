/**
 * The pipelined runner of user/vpipe-vcam-runner.c (MMAP transport) driving one context of
 * the driver and reading the metadata sideband, end to end. Jobs run between the runner's
 * system calls on a schedule of their own; a blocking dequeue waits for the next job.
 */
module Runner {
  import opened Base
  import opened M2m
  import Crc32
  import Cv
  import ExactlyOnce
  import Gradient
  import Meta
  import P = Producers
  import Provenance
  import Source
  import Vcam

  const MAX_QUEUE_DEPTH := 32
  const SHAPE := Gradient.Shape(640, 480, 640)
  const SIZE := 307200

  /** What frame `i` of a run must look like, in an OUTPUT or a CAPTURE plane. */
  ghost predicate FrameOk(vcam: bool, drop: u32, i: nat, plane: Plane, dropped: bool) {
    && i < TWO32 && SIZE <= |plane| < TWO32
    && if vcam then
         && (dropped <==> P.Multiple(i, drop))
         && (!dropped ==> Gradient.IsPattern(plane, SHAPE, i - P.DropsBy(true, drop, i)))
       else !dropped && Gradient.IsPattern(plane, SHAPE, i)
  }

  /** The producer after `submitted` frames of the run. */
  ghost predicate SourceOk(src: Source.Instance, vcam: bool, drop: u32, submitted: nat) {
    if vcam then src.producer.Vcam? && src.producer.priv.Some?
                 && src.producer.priv.value.counters == P.AfterCalls(true, drop, submitted).0
                 && SIZE <= |src.producer.priv.value.fb|
    else src.producer == P.Fixture
  }

  /**
   * How far a run has come: submissions, jobs, dequeues of either queue, CAPTURE buffers in
   * userspace, and when userspace began each submission.
   */
  datatype Progress = Progress(submitted: nat, jobs: nat, capDq: nat, outDq: nat, user: nat, times: seq<nat>)

  /**
   * A run's fixed parameters: source, drop cadence, queue depth, device sequence at its start,
   * and for each frame the time from userspace's clock read to the driver's in QBUF, and from
   * the driver's clock read in DQBUF back to userspace's.
   */
  datatype Setting = Setting(vcam: bool, drop: u32, depth: nat, base: nat, lag: nat -> nat, back: nat -> nat)

  /** Formats, sizes and controls that a run never changes. */
  ghost predicate StaticOk(c: Ctx, g: Setting) {
    && c.outFmt == DEFAULT_FMT && c.capFmt == DEFAULT_FMT && c.outQ.on && c.capQ.on && c.ctl.algo == 0
    && |c.outBufs| == g.depth && |c.capBufs| == g.depth
    && (forall i :: 0 <= i < g.depth ==> SIZE <= |c.outBufs[i].plane| < TWO32 && SIZE <= |c.capBufs[i].plane| < TWO32)
    && (forall i :: 0 <= i < g.depth ==> c.outBufs[i].memory == MMAP)
  }

  /** Where the buffers are. */
  ghost predicate CountsOk(c: Ctx, g: Setting, p: Progress) {
    && p.outDq <= p.jobs <= p.submitted && p.capDq <= p.jobs
    && |c.outQ.ready| == p.submitted - p.jobs && |c.outQ.done| == p.jobs - p.outDq
    && |c.capQ.done| == p.jobs - p.capDq && |c.capQ.ready| + |c.capQ.done| + p.user == g.depth
    && |p.times| == p.submitted
  }

  /** Position k of a list of buffers passes the test for number start + k. */
  ghost predicate AllAt<T>(bufs: seq<T>, list: seq<nat>, test: (T, nat) -> bool, start: nat) {
    forall k :: 0 <= k < |list| ==> list[k] < |bufs| && test(bufs[list[k]], start + k)
  }

  lemma AllPush<T>(bufs: seq<T>, bufs': seq<T>, list: seq<nat>, test: (T, nat) -> bool, start: nat, i: nat)
    requires AllAt(bufs, list, test, start) && i < |bufs| == |bufs'| && i !in list && test(bufs'[i], start + |list|)
    requires forall j :: 0 <= j < |bufs| && j != i ==> bufs'[j] == bufs[j]
    ensures AllAt(bufs', list + [i], test, start)
  {
  }

  lemma AllPop<T>(bufs: seq<T>, bufs': seq<T>, list: seq<nat>, test: (T, nat) -> bool, start: nat)
    requires AllAt(bufs, list, test, start) && list != [] && |bufs'| == |bufs| && list[0] !in list[1..]
    requires forall j :: 0 <= j < |bufs| && j != list[0] ==> bufs'[j] == bufs[j]
    ensures AllAt(bufs', list[1..], test, start + 1)
  {
    forall k | 0 <= k < |list[1..]|
      ensures list[1..][k] < |bufs'| && test(bufs'[list[1..][k]], start + 1 + k)
    {
      assert list[1..][k] == list[k + 1] && list[k + 1] in list[1..];
      assert test(bufs[list[k + 1]], start + (k + 1));
    }
  }

  lemma AllAside<T>(bufs: seq<T>, bufs': seq<T>, list: seq<nat>, test: (T, nat) -> bool, start: nat, i: nat)
    requires AllAt(bufs, list, test, start) && |bufs'| == |bufs| && i !in list
    requires forall j :: 0 <= j < |bufs| && j != i ==> bufs'[j] == bufs[j]
    ensures AllAt(bufs', list, test, start)
  {
  }

  lemma AllWeaken<T(!new)>(bufs: seq<T>, list: seq<nat>, test: (T, nat) -> bool, test': (T, nat) -> bool, start: nat)
    requires AllAt(bufs, list, test, start) && forall b, i :: test(b, i) ==> test'(b, i)
    ensures AllAt(bufs, list, test', start)
  {
  }

  /** The driver's queue time of frame `i` is the time its own submission began, plus the way there. */
  ghost predicate QueuedAt(g: Setting, times: seq<nat>, i: nat, qbufNs: nat) {
    i < |times| && qbufNs == times[i] + g.lag(i)
  }

  /** An OUTPUT buffer waiting with frame `i`. */
  ghost predicate ReadyFrame(b: OutBuf, g: Setting, times: seq<nat>, i: nat) {
    && b.snap.algo == 0 && b.memory == MMAP && FrameOk(g.vcam, g.drop, i, b.plane, b.desc.dropped)
    && QueuedAt(g, times, i, b.qbufNs)
  }

  /** A completed CAPTURE buffer holding frame `i` and the entry that describes it. */
  ghost predicate DoneFrame(b: CapBuf, g: Setting, times: seq<nat>, i: nat) {
    && b.state == DONE && b.pending.seqNo == g.base + i + 1 && b.pending.bytesused == SIZE <= |b.plane|
    && b.pending.crc32 == Crc32.BitwiseCrc(b.plane[..SIZE]) && b.pending.bufferType == MemoryCode(MMAP)
    && FrameOk(g.vcam, g.drop, i, b.plane, b.pending.flags.dropped) && !b.pending.flags.overrun
    && QueuedAt(g, times, i, b.pending.qbufTs)
  }

  ghost function ReadyTest(g: Setting, times: seq<nat>): (OutBuf, nat) -> bool {
    (b: OutBuf, i: nat) => ReadyFrame(b, g, times, i)
  }

  ghost function DoneTest(g: Setting, times: seq<nat>): (CapBuf, nat) -> bool {
    (b: CapBuf, i: nat) => DoneFrame(b, g, times, i)
  }

  /** Ready OUTPUT buffers hold the frames after those already processed. */
  ghost predicate ReadyFrames(c: Ctx, g: Setting, p: Progress) {
    AllAt(c.outBufs, c.outQ.ready, ReadyTest(g, p.times), p.jobs)
  }

  /** Completed CAPTURE buffers hold the frames after those already dequeued. */
  ghost predicate DoneFrames(c: Ctx, g: Setting, p: Progress) {
    AllAt(c.capBufs, c.capQ.done, DoneTest(g, p.times), p.capDq)
  }

  /** The driver's own invariants. */
  ghost predicate DriverOk(c: Ctx, clock: nat) {
    ExactlyOnce.CtxOk(c) && Provenance.CtxOk(c) && Provenance.TimesOk(c, clock)
  }

  /** Every callback keeps them; `r` is what it returns. */
  lemma DriverKeeps(c: Ctx, n: nat, clock: nat, now: nat, a: Action, r: Result)
    requires DriverOk(c, clock) && clock <= now && r == CtxStep(c, n, now, a)
    ensures DriverOk(r.ctx, now)
    ensures forall e :: e in r.pubs ==> Provenance.TimelineOk(e)
  {
    ExactlyOnce.CtxStepKeeps(c, n, now, a);
    Provenance.CtxStepKeeps(c, n, now, a);
    Provenance.TimesLater(c, clock, now);
    Provenance.StepTimes(c, n, now, a);
  }

  lemma RunKeepsDriver(c: Ctx, n: nat, clock: nat, now: nat, cpu: nat)
    requires DriverOk(c, clock) && clock <= now && CanRun(c)
    ensures DriverOk(DeviceRun(c, n, true, now, cpu).ctx, now)
  {
    DriverKeeps(c, n, clock, now, ActRun(true, cpu), DeviceRun(c, n, true, now, cpu));
  }

  lemma QBufKeepsDriver(c: Ctx, n: nat, clock: nat, now: nat, i: nat, fill: Option<Plane>)
    requires DriverOk(c, clock) && clock <= now
    ensures DriverOk(QBufOut(c, n, i, fill, true, now).ctx, now)
  {
    DriverKeeps(c, n, clock, now, ActQBufOut(i, fill, true), QBufOut(c, n, i, fill, true, now));
  }

  lemma DqKeepsDriver(c: Ctx, n: nat, clock: nat, now: nat)
    requires DriverOk(c, clock) && clock <= now
    ensures DriverOk(DqBufCap(c, n, now).ctx, now)
    ensures forall e :: e in DqBufCap(c, n, now).pubs ==> Provenance.TimelineOk(e)
  {
    DriverKeeps(c, n, clock, now, ActDqBufCap, DqBufCap(c, n, now));
  }

  lemma DqOutKeepsDriver(c: Ctx, n: nat, clock: nat, now: nat)
    requires DriverOk(c, clock) && clock <= now
    ensures DriverOk(DqBufOut(c, n).ctx, now)
  {
    ExactlyOnce.SameCaptureOk(c, DqBufOut(c, n).ctx);
    Provenance.DqBufOutKeeps(c, n);
    Provenance.TimesLater(c, clock, now);
    assert Provenance.QueuedBy(DqBufOut(c, n).ctx.outBufs, now);
  }

  lemma QCapKeepsDriver(c: Ctx, n: nat, clock: nat, now: nat, i: nat)
    requires DriverOk(c, clock) && clock <= now
    ensures DriverOk(QBufCap(c, n, i, None).ctx, now)
  {
    DriverKeeps(c, n, clock, now, ActQBufCap(i, None), QBufCap(c, n, i, None));
  }

  /** The lists of both queues name distinct buffers in the right states. */
  lemma DriverLists(c: Ctx, clock: nat)
    requires DriverOk(c, clock)
    ensures Provenance.Listed(c.outBufs, c.outQ.ready, {ACTIVE})
    ensures Provenance.Listed(c.outBufs, c.outQ.done, {DONE, ERROR})
    ensures ExactlyOnce.Listed(c.capBufs, c.capQ.ready, {ACTIVE})
    ensures ExactlyOnce.Listed(c.capBufs, c.capQ.done, {DONE, ERROR})
  {
  }

  /** A buffer that userspace holds is not in the driver's queues. */
  lemma UserHeld(c: Ctx, clock: nat, i: nat)
    requires DriverOk(c, clock) && i < |c.outBufs| && c.outBufs[i].state == DEQUEUED
    ensures i !in c.outQ.ready
  {
  }

  lemma StreamingKeepsDriver(c: Ctx, n: nat, params: P.Params, now: nat)
    requires DriverOk(c, now)
    ensures DriverOk(Streaming(c, n, params, now), now)
  {
    CapOnKeepsDriver(c, n, now);
    OutOnKeepsDriver(StreamOnCap(c, n).ctx, n, params, now);
  }

  lemma CapOnKeepsDriver(c: Ctx, n: nat, now: nat)
    requires DriverOk(c, now)
    ensures DriverOk(StreamOnCap(c, n).ctx, now)
  {
    DriverKeeps(c, n, now, now, ActStreamOnCap, StreamOnCap(c, n));
  }

  lemma OutOnKeepsDriver(c: Ctx, n: nat, params: P.Params, now: nat)
    requires DriverOk(c, now)
    ensures DriverOk(StreamOnOut(c, n, params, true, now).ctx, now)
  {
    DriverKeeps(c, n, now, now, ActStreamOnOut(params, true), StreamOnOut(c, n, params, true, now));
  }

  ghost predicate PipeOk(c: Ctx, g: Setting, p: Progress, clock: nat) {
    && DriverOk(c, clock)
    && StaticOk(c, g) && CountsOk(c, g, p) && ReadyFrames(c, g, p) && DoneFrames(c, g, p)
    && SourceOk(c.src, g.vcam, g.drop, p.submitted)
  }

  // ---- a job ----

  lemma RunnerGeometry(c: Ctx, g: Setting)
    requires StaticOk(c, g) && CanRun(c)
    ensures RunSafe(c) && JobGeometry(c) == Cv.Geometry(640, 480, 640, 640)
  {
  }

  /** An ALGO_NONE job carries frame `i` from the OUTPUT plane to the CAPTURE plane. */
  lemma FrameCarried(vcam: bool, drop: u32, i: nat, src: Plane, dst: Plane, dropped: bool)
    requires FrameOk(vcam, drop, i, src, dropped) && SIZE <= |dst| < TWO32
    ensures var job := Cv.Geometry(640, 480, 640, 640);
      Cv.Fits(job, |src|, |dst|) && FrameOk(vcam, drop, i, Cv.Copied(src, dst, job), dropped)
  {
    var job := Cv.Geometry(640, 480, 640, 640);
    if vcam {
      if !dropped { Vcam.CopyKeepsPattern(src, dst, SHAPE, job, i - P.DropsBy(true, drop, i)); }
    } else {
      Vcam.CopyKeepsPattern(src, dst, SHAPE, job, i);
    }
  }

  /** A job can run whenever both counts say so: nothing else can hold it up. */
  lemma Runnable(c: Ctx, g: Setting, p: Progress, clock: nat)
    requires PipeOk(c, g, p, clock) && p.jobs < p.submitted && c.capQ.ready != []
    ensures CanRun(c)
  {
  }

  /** What a job of a run does: it succeeds and leaves frame `p.jobs` with its entry. */
  lemma JobResult(c: Ctx, g: Setting, p: Progress, clock: nat, now: nat, n: nat, cpu: nat)
    requires PipeOk(c, g, p, clock) && CanRun(c) && n == g.base + p.jobs
    ensures var r := DeviceRun(c, n, true, now, cpu);
      && !r.fault && r.sequence == n + 1 && r.pubs == []
      && |r.ctx.capBufs| == |c.capBufs| && DoneTest(g, p.times)(r.ctx.capBufs[c.capQ.ready[0]], p.jobs)
  {
    var i, d := c.outQ.ready[0], c.capQ.ready[0];
    RunnerGeometry(c, g);
    var b := c.outBufs[i];
    assert ReadyTest(g, p.times)(b, p.jobs + 0);
    FrameCarried(g.vcam, g.drop, p.jobs, b.plane, c.capBufs[d].plane, b.desc.dropped);
    assert JobOutput(c).Some? && JobOutput(c).value.0 == Cv.Copied(b.plane, c.capBufs[d].plane, JobGeometry(c));
  }

  /** The context after a successful job, field by field. */
  ghost predicate Served(c: Ctx, c': Ctx)
    requires CanRun(c)
  {
    var i, d := c.outQ.ready[0], c.capQ.ready[0];
    && |c'.outBufs| == |c.outBufs| && |c'.capBufs| == |c.capBufs|
    && c'.outFmt == c.outFmt && c'.capFmt == c.capFmt && c'.src == c.src && c'.ctl == c.ctl
    && c'.outQ == c.outQ.(ready := c.outQ.ready[1..], done := c.outQ.done + [i])
    && c'.capQ == c.capQ.(ready := c.capQ.ready[1..], done := c.capQ.done + [d])
    && c'.outBufs == c.outBufs[i := c.outBufs[i].(state := DONE)]
    && c'.capBufs == c.capBufs[d := c'.capBufs[d]] && |c'.capBufs[d].plane| == |c.capBufs[d].plane|
  }

  lemma JobServes(c: Ctx, n: nat, now: nat, cpu: nat)
    requires CanRun(c) && DeviceRun(c, n, true, now, cpu).sequence == n + 1
    ensures Served(c, DeviceRun(c, n, true, now, cpu).ctx)
  {
  }

  lemma ServedStatic(c: Ctx, c': Ctx, g: Setting, p: Progress)
    requires CanRun(c) && Served(c, c') && StaticOk(c, g) && CountsOk(c, g, p)
    ensures StaticOk(c', g) && CountsOk(c', g, p.(jobs := p.jobs + 1))
  {
  }

  lemma ServedReady(c: Ctx, c': Ctx, g: Setting, p: Progress)
    requires CanRun(c) && Served(c, c') && ReadyFrames(c, g, p) && Provenance.Listed(c.outBufs, c.outQ.ready, {ACTIVE})
    ensures ReadyFrames(c', g, p.(jobs := p.jobs + 1))
  {
    AllPop(c.outBufs, c'.outBufs, c.outQ.ready, ReadyTest(g, p.times), p.jobs);
  }

  lemma ServedDone(c: Ctx, c': Ctx, g: Setting, p: Progress)
    requires CanRun(c) && Served(c, c') && DoneFrames(c, g, p) && c.capQ.ready[0] !in c.capQ.done
    requires |c.capQ.done| == p.jobs - p.capDq && DoneTest(g, p.times)(c'.capBufs[c.capQ.ready[0]], p.jobs)
    ensures DoneFrames(c', g, p.(jobs := p.jobs + 1))
  {
    AllPush(c.capBufs, c'.capBufs, c.capQ.done, DoneTest(g, p.times), p.capDq, c.capQ.ready[0]);
  }

  lemma JobStep(c: Ctx, g: Setting, p: Progress, clock: nat, now: nat, n: nat, cpu: nat)
    requires PipeOk(c, g, p, clock) && clock <= now && CanRun(c) && n == g.base + p.jobs
    ensures var r := DeviceRun(c, n, true, now, cpu);
      !r.fault && r.sequence == n + 1 && r.pubs == [] && PipeOk(r.ctx, g, p.(jobs := p.jobs + 1), now)
  {
    var c' := DeviceRun(c, n, true, now, cpu).ctx;
    JobResult(c, g, p, clock, now, n, cpu);
    JobServes(c, n, now, cpu);
    ServedStatic(c, c', g, p);
    ExactlyOnce.ListsAfterRun(c.capBufs, c.capQ, c'.capBufs[c.capQ.ready[0]]);
    ServedReady(c, c', g, p);
    ServedDone(c, c', g, p);
    RunKeepsDriver(c, n, clock, now, cpu);
  }

  // ---- dequeuing and requeuing ----

  /** The context after DQBUF of CAPTURE, field by field. */
  ghost predicate CapLeft(c: Ctx, c': Ctx)
    requires c.capQ.done != []
  {
    var i := c.capQ.done[0];
    && i < |c.capBufs| == |c'.capBufs| && c'.capBufs[i].plane == c.capBufs[i].plane && c'.capBufs[i].state == DEQUEUED
    && (forall j :: 0 <= j < |c.capBufs| && j != i ==> c'.capBufs[j] == c.capBufs[j])
    && c'.capQ == c.capQ.(done := c.capQ.done[1..])
    && c'.outBufs == c.outBufs && c'.outQ == c.outQ && c'.src == c.src && c'.ctl == c.ctl
    && c'.outFmt == c.outFmt && c'.capFmt == c.capFmt
  }

  /** What DQBUF of CAPTURE hands out: the oldest completed frame, and its entry. */
  lemma DqCapResult(c: Ctx, g: Setting, p: Progress, now: nat, n: nat)
    requires DoneFrames(c, g, p) && c.capQ.done != []
    ensures var r, i := DqBufCap(c, n, now), c.capQ.done[0];
      && i < |c.capBufs| && DoneTest(g, p.times)(c.capBufs[i], p.capDq) && r.sequence == n && !r.fault
      && r.pubs == [c.capBufs[i].pending.(dqbufTs := now)] && CapLeft(c, r.ctx)
  {
    assert DoneTest(g, p.times)(c.capBufs[c.capQ.done[0]], p.capDq + 0);
  }

  /** The parts of the invariant that do not come from the driver's own invariants. */
  ghost predicate FramesOk(c: Ctx, g: Setting, p: Progress) {
    StaticOk(c, g) && CountsOk(c, g, p) && ReadyFrames(c, g, p) && DoneFrames(c, g, p)
  }

  lemma DqCapFrames(c: Ctx, c': Ctx, g: Setting, p: Progress, p': Progress)
    requires FramesOk(c, g, p) && c.capQ.done != [] && c.capQ.done[0] !in c.capQ.done[1..] && CapLeft(c, c')
    requires p' == p.(capDq := p.capDq + 1, user := p.user + 1)
    ensures FramesOk(c', g, p')
  {
    DqCapDone(c, c', g, p, p');
    DqCapReady(c, c', g, p, p');
    DqCapStatic(c, c', g, p, p');
  }

  lemma DqCapDone(c: Ctx, c': Ctx, g: Setting, p: Progress, p': Progress)
    requires DoneFrames(c, g, p) && c.capQ.done != [] && c.capQ.done[0] !in c.capQ.done[1..] && CapLeft(c, c')
    requires p'.capDq == p.capDq + 1 && p'.times == p.times
    ensures DoneFrames(c', g, p')
  {
    AllPop(c.capBufs, c'.capBufs, c.capQ.done, DoneTest(g, p.times), p.capDq);
  }

  lemma DqCapReady(c: Ctx, c': Ctx, g: Setting, p: Progress, p': Progress)
    requires ReadyFrames(c, g, p) && c.capQ.done != [] && CapLeft(c, c') && p'.jobs == p.jobs && p'.times == p.times
    ensures ReadyFrames(c', g, p')
  {
  }

  lemma DqCapStatic(c: Ctx, c': Ctx, g: Setting, p: Progress, p': Progress)
    requires StaticOk(c, g) && CountsOk(c, g, p) && c.capQ.done != [] && CapLeft(c, c')
    requires p' == p.(capDq := p.capDq + 1, user := p.user + 1)
    ensures StaticOk(c', g) && CountsOk(c', g, p')
  {
    StaticKept(c, c', g);
  }

  lemma DqCapStep(c: Ctx, g: Setting, p: Progress, clock: nat, now: nat, n: nat)
    requires PipeOk(c, g, p, clock) && clock <= now && c.capQ.done != []
    ensures PipeOk(DqBufCap(c, n, now).ctx, g, p.(capDq := p.capDq + 1, user := p.user + 1), now)
    ensures forall e :: e in DqBufCap(c, n, now).pubs ==> Provenance.TimelineOk(e)
  {
    ExactlyOnce.ListsAfterDq(c.capBufs, c.capQ, c.capBufs[c.capQ.done[0]]);
    DqCapResult(c, g, p, now, n);
    DqCapFrames(c, DqBufCap(c, n, now).ctx, g, p, p.(capDq := p.capDq + 1, user := p.user + 1));
    DqKeepsDriver(c, n, clock, now);
  }

  lemma StaticKept(c: Ctx, c': Ctx, g: Setting)
    requires StaticOk(c, g) && |c'.outBufs| == |c.outBufs| && |c'.capBufs| == |c.capBufs| && c'.ctl == c.ctl
    requires c'.outFmt == c.outFmt && c'.capFmt == c.capFmt && c'.outQ.on == c.outQ.on && c'.capQ.on == c.capQ.on
    requires forall j :: 0 <= j < |c.capBufs| ==> c'.capBufs[j].plane == c.capBufs[j].plane
    requires forall j :: 0 <= j < |c.outBufs| ==>
      |c'.outBufs[j].plane| == |c.outBufs[j].plane| && c'.outBufs[j].memory == c.outBufs[j].memory
    ensures StaticOk(c', g)
  {
  }

  /** Requeuing a CAPTURE buffer that userspace holds. */
  lemma QCapResult(c: Ctx, n: nat, i: nat)
    requires i < |c.capBufs| && c.capBufs[i].state == DEQUEUED && c.capQ.on && c.capFmt == DEFAULT_FMT
    requires SIZE <= |c.capBufs[i].plane| < TWO32
    ensures var r := QBufCap(c, n, i, None);
      && r.sequence == n && !r.fault && r.pubs == []
      && r.ctx == c.(capBufs := c.capBufs[i := c.capBufs[i].(state := ACTIVE)],
                     capQ := c.capQ.(ready := c.capQ.ready + [i]))
  {
  }

  lemma QCapStep(c: Ctx, g: Setting, p: Progress, clock: nat, now: nat, n: nat, i: nat)
    requires PipeOk(c, g, p, clock) && clock <= now && i < |c.capBufs| && c.capBufs[i].state == DEQUEUED && p.user > 0
    ensures var r := QBufCap(c, n, i, None);
      r.sequence == n && !r.fault && r.pubs == [] && PipeOk(r.ctx, g, p.(user := p.user - 1), now)
  {
    var c', p' := QBufCap(c, n, i, None).ctx, p.(user := p.user - 1);
    QCapResult(c, n, i);
    DriverLists(c, clock);
    QCapKeepsDriver(c, n, clock, now, i);
    AllAside(c.capBufs, c'.capBufs, c.capQ.done, DoneTest(g, p.times), p.capDq, i);
    StaticKept(c, c', g);
  }

  /** DQBUF of OUTPUT returns a buffer the driver is done with. */
  lemma DqOutResult(c: Ctx, n: nat)
    requires c.outQ.done != [] && c.outQ.done[0] < |c.outBufs|
    ensures var r, i := DqBufOut(c, n), c.outQ.done[0];
      && r.sequence == n && !r.fault && r.pubs == []
      && r.ctx == c.(outBufs := c.outBufs[i := c.outBufs[i].(state := DEQUEUED)],
                     outQ := c.outQ.(done := c.outQ.done[1..]))
  {
  }

  lemma DqOutStep(c: Ctx, g: Setting, p: Progress, clock: nat, now: nat, n: nat)
    requires PipeOk(c, g, p, clock) && clock <= now && c.outQ.done != []
    ensures var r, i := DqBufOut(c, n), c.outQ.done[0];
      && i < |c.outBufs| && r.sequence == n && !r.fault && r.pubs == []
      && |r.ctx.outBufs| == |c.outBufs| && r.ctx.outBufs[i].state == DEQUEUED
      && PipeOk(r.ctx, g, p.(outDq := p.outDq + 1), now)
  {
    var i, c', p' := c.outQ.done[0], DqBufOut(c, n).ctx, p.(outDq := p.outDq + 1);
    DqOutResult(c, n);
    DriverLists(c, clock);
    DqOutKeepsDriver(c, n, clock, now);
    AllAside(c.outBufs, c'.outBufs, c.outQ.ready, ReadyTest(g, p.times), p.jobs, i);
    StaticKept(c, c', g);
    assert DoneFrames(c', g, p');
  }

  // ---- submitting ----

  /** What the runner writes into an OUTPUT buffer before queueing frame `i`: only the fixture needs it. */
  function UserFill(vcam: bool, plane: Plane, i: u32): Option<Plane> {
    if vcam then None else Some(Gradient.Filled(plane, SHAPE, i))
  }

  function Given(plane: Plane, fill: Option<Plane>): Plane { if fill.Some? then fill.value else plane }

  /** Queueing frame `i` leaves that frame in the plane, stamped by the producer. */
  lemma NextIsFrame(src: Source.Instance, vcam: bool, drop: u32, plane: Plane, i: nat, now: nat)
    requires i + 1 < TWO32 && SourceOk(src, vcam, drop, i) && SIZE <= |plane| < TWO32
    ensures var given := Given(plane, UserFill(vcam, plane, i));
      P.CallFits(SHAPE, given) && |given| == |plane|
    ensures var s := Source.Next(src, SHAPE, Given(plane, UserFill(vcam, plane, i)), true, now);
      FrameOk(vcam, drop, i, s.plane, s.desc.dropped) && SourceOk(s.src, vcam, drop, i + 1)
  {
    if vcam {
      P.VcamFrame(src.producer.priv.value, SHAPE, plane, drop, i);
    } else {
      var given := Gradient.Filled(plane, SHAPE, i);
      Gradient.CopiedPattern(plane, given, SHAPE, i);
    }
  }

  /** The context after QBUF of OUTPUT buffer `i`, field by field. */
  ghost predicate OutQueued(c: Ctx, c': Ctx, i: nat)
    requires i < |c.outBufs|
  {
    && |c'.outBufs| == |c.outBufs| && (forall j :: 0 <= j < |c.outBufs| && j != i ==> c'.outBufs[j] == c.outBufs[j])
    && |c'.outBufs[i].plane| == |c.outBufs[i].plane| && c'.outBufs[i].snap == c.ctl
    && c'.outBufs[i].memory == c.outBufs[i].memory
    && c'.outQ == c.outQ.(ready := c.outQ.ready + [i])
    && c'.capBufs == c.capBufs && c'.capQ == c.capQ && c'.ctl == c.ctl
    && c'.outFmt == c.outFmt && c'.capFmt == c.capFmt
    && c'.numbers == c.numbers && c'.published == c.published && c'.fifo == c.fifo
  }

  lemma QOutResult(c: Ctx, g: Setting, p: Progress, now: nat, n: nat, i: nat)
    requires StaticOk(c, g) && SourceOk(c.src, g.vcam, g.drop, p.submitted) && p.submitted + 1 < TWO32
    requires i < |c.outBufs| && c.outBufs[i].state == DEQUEUED
    ensures var r := QBufOut(c, n, i, UserFill(g.vcam, c.outBufs[i].plane, p.submitted), true, now);
      && !r.fault && r.sequence == n && r.pubs == [] && OutQueued(c, r.ctx, i)
      && FrameOk(g.vcam, g.drop, p.submitted, r.ctx.outBufs[i].plane, r.ctx.outBufs[i].desc.dropped)
      && r.ctx.outBufs[i].qbufNs == now && SourceOk(r.ctx.src, g.vcam, g.drop, p.submitted + 1)
  {
    var fill := UserFill(g.vcam, c.outBufs[i].plane, p.submitted);
    var given := Given(c.outBufs[i].plane, fill);
    NextIsFrame(c.src, g.vcam, g.drop, c.outBufs[i].plane, p.submitted, now);
    var b := Handed(c.outBufs[i], fill);
    assert b.plane == given && Shape(c.outFmt) == SHAPE;
    var c1 := PutOut(c, i, b);
    assert QueueSafe(c1, i);
    assert QBufOut(c, n, i, fill, true, now) == Same(BufQueueOut(c1, i, true, now), n);
  }

  lemma LaterTimes(c: Ctx, g: Setting, p: Progress, p': Progress)
    requires ReadyFrames(c, g, p) && DoneFrames(c, g, p) && p.times <= p'.times && p'.jobs == p.jobs
    requires p'.capDq == p.capDq
    ensures ReadyFrames(c, g, p') && DoneFrames(c, g, p')
  {
    AllWeaken(c.outBufs, c.outQ.ready, ReadyTest(g, p.times), ReadyTest(g, p'.times), p.jobs);
    AllWeaken(c.capBufs, c.capQ.done, DoneTest(g, p.times), DoneTest(g, p'.times), p.capDq);
  }

  /** One more submission, begun at `at`. */
  function Submitted(p: Progress, at: nat): Progress { p.(submitted := p.submitted + 1, times := p.times + [at]) }

  lemma QOutFrames(c: Ctx, c': Ctx, g: Setting, p: Progress, i: nat, at: nat)
    requires FramesOk(c, g, p) && i < |c.outBufs| && i !in c.outQ.ready && OutQueued(c, c', i)
    requires FrameOk(g.vcam, g.drop, p.submitted, c'.outBufs[i].plane, c'.outBufs[i].desc.dropped)
    requires c'.outBufs[i].qbufNs == at + g.lag(p.submitted)
    ensures FramesOk(c', g, Submitted(p, at))
  {
    var p' := Submitted(p, at);
    LaterTimes(c, g, p, p');
    assert ReadyTest(g, p'.times)(c'.outBufs[i], p.submitted);
    AllPush(c.outBufs, c'.outBufs, c.outQ.ready, ReadyTest(g, p'.times), p.jobs, i);
    StaticKept(c, c', g);
  }

  lemma QOutStep(c: Ctx, g: Setting, p: Progress, clock: nat, at: nat, now: nat, n: nat, i: nat)
    requires PipeOk(c, g, p, clock) && clock <= at && now == at + g.lag(p.submitted) && p.submitted + 1 < TWO32
    requires i < |c.outBufs| && c.outBufs[i].state == DEQUEUED
    ensures var r := QBufOut(c, n, i, UserFill(g.vcam, c.outBufs[i].plane, p.submitted), true, now);
      && !r.fault && r.sequence == n && r.pubs == [] && OutQueued(c, r.ctx, i)
      && PipeOk(r.ctx, g, Submitted(p, at), now)
  {
    var fill := UserFill(g.vcam, c.outBufs[i].plane, p.submitted);
    QOutResult(c, g, p, now, n, i);
    UserHeld(c, clock, i);
    QOutFrames(c, QBufOut(c, n, i, fill, true, now).ctx, g, p, i, at);
    QBufKeepsDriver(c, n, clock, now, i, fill);
  }

  // ---- the kernel as the runner meets it ----

  /** One context, the device sequence, the clock, the metadata device and the runner's cursor in it. */
  datatype Kernel = Kernel(c: Ctx, n: nat, now: nat, dev: Meta.Device, tail: nat)

  ghost predicate KernelOk(k: Kernel, g: Setting, p: Progress) {
    && PipeOk(k.c, g, p, k.now) && k.n == g.base + p.jobs
    && |k.dev.ring| == Meta.RING_SIZE && !k.dev.dying && k.tail <= k.dev.head
  }

  /** Buffers userspace holds are not touched. */
  ghost predicate UserKept(c: Ctx, c': Ctx) {
    && |c'.outBufs| == |c.outBufs| && |c'.capBufs| == |c.capBufs|
    && (forall i :: 0 <= i < |c.outBufs| && c.outBufs[i].state == DEQUEUED ==> c'.outBufs[i] == c.outBufs[i])
    && (forall i :: 0 <= i < |c.capBufs| && c.capBufs[i].state == DEQUEUED ==> c'.capBufs[i] == c.capBufs[i])
  }

  lemma JobKeepsUser(c: Ctx, clock: nat, n: nat, now: nat)
    requires DriverOk(c, clock) && CanRun(c) && DeviceRun(c, n, true, now, 0).sequence == n + 1
    ensures UserKept(c, DeviceRun(c, n, true, now, 0).ctx)
  {
    JobServes(c, n, now, 0);
    DriverLists(c, clock);
    ServedKeepsUser(c, DeviceRun(c, n, true, now, 0).ctx);
  }

  lemma ServedKeepsUser(c: Ctx, c': Ctx)
    requires CanRun(c) && Served(c, c')
    requires c.outBufs[c.outQ.ready[0]].state == ACTIVE && c.capBufs[c.capQ.ready[0]].state == ACTIVE
    ensures UserKept(c, c')
  {
  }

  /** The driver's worker runs one job. */
  method OneJob(k: Kernel, dt: nat, ghost g: Setting, ghost p: Progress) returns (k': Kernel)
    requires KernelOk(k, g, p) && CanRun(k.c)
    ensures KernelOk(k', g, p.(jobs := p.jobs + 1)) && k'.dev == k.dev && k'.tail == k.tail
    ensures UserKept(k.c, k'.c) && k'.now >= k.now
  {
    var now := k.now + dt;
    var r := DeviceRun(k.c, k.n, true, now, 0);
    JobStep(k.c, g, p, k.now, now, k.n, 0);
    JobKeepsUser(k.c, k.now, k.n, now);
    k' := k.(c := r.ctx, n := r.sequence, now := now);
  }

  /** The driver's worker runs up to `m` jobs between two system calls. */
  method RunJobs(k: Kernel, m: nat, dt: nat, ghost g: Setting, ghost p: Progress)
    returns (k': Kernel, ghost p': Progress)
    requires KernelOk(k, g, p)
    ensures KernelOk(k', g, p') && p' == p.(jobs := p'.jobs) && p.jobs <= p'.jobs
    ensures k'.dev == k.dev && k'.tail == k.tail && UserKept(k.c, k'.c) && k'.now >= k.now
  {
    k', p' := k, p;
    var left := m;
    while left > 0 && CanRun(k'.c)
      invariant KernelOk(k', g, p') && p' == p.(jobs := p'.jobs) && p.jobs <= p'.jobs
      invariant k'.dev == k.dev && k'.tail == k.tail && UserKept(k.c, k'.c) && k'.now >= k.now
    {
      k' := OneJob(k', dt, g, p');
      p' := p'.(jobs := p'.jobs + 1);
      left := left - 1;
    }
  }

  /** A CAPTURE dequeue that has waited for a completed buffer. */
  method AwaitCapture(k: Kernel, dt: nat, ghost g: Setting, ghost p: Progress) returns (k': Kernel, ghost p': Progress)
    requires KernelOk(k, g, p) && p.user == 0 && p.capDq < p.submitted && g.depth > 0
    ensures KernelOk(k', g, p') && p' == p.(jobs := p'.jobs) && p.jobs <= p'.jobs
    ensures k'.c.capQ.done != [] && k'.dev == k.dev && k'.tail == k.tail && UserKept(k.c, k'.c)
  {
    k', p' := k, p;
    if k.c.capQ.done == [] {
      // never a deadlock: a job can always run here
      Runnable(k.c, g, p, k.now);
      k' := OneJob(k, dt, g, p);
      p' := p.(jobs := p.jobs + 1);
    }
  }

  /** What the runner gets from DQBUF of CAPTURE. */
  datatype Captured = Captured(index: nat, bytesused: nat, plane: Plane)

  method DqCapture(k: Kernel, dt: nat, ghost g: Setting, ghost p: Progress)
    returns (k': Kernel, cap: Captured, ghost e: Meta.Entry)
    requires KernelOk(k, g, p) && k.c.capQ.done != []
    ensures KernelOk(k', g, p.(capDq := p.capDq + 1, user := p.user + 1)) && k'.tail == k.tail
    ensures k'.dev == Meta.AfterPublish(k.dev, e) && e.dqbufTs == k'.now && Provenance.TimelineOk(e)
    ensures cap.index < g.depth && k'.c.capBufs[cap.index].state == DEQUEUED
    ensures DoneFrame(CapBuf(DONE, cap.plane, e), g, p.times, p.capDq) && cap.bytesused == SIZE
  {
    var now, i := k.now + dt, k.c.capQ.done[0];
    DqCapResult(k.c, g, p, now, k.n);
    DqCapStep(k.c, g, p, k.now, now, k.n);
    var b := k.c.capBufs[i];
    assert DoneFrame(b, g, p.times, p.capDq);
    var r := DqBufCap(k.c, k.n, now);
    e := r.pubs[0];
    cap := Captured(i, b.pending.bytesused, b.plane);
    k' := k.(c := r.ctx, n := r.sequence, now := now, dev := Meta.AfterPublish(k.dev, r.pubs[0]));
  }

  /**
   * A reader that was level with the head, one publish later: it is one entry behind, so the
   * read neither blocks nor overruns, and hands out exactly that entry.
   */
  lemma ReadAfterPublish(d: Meta.Device, e: Meta.Entry)
    requires |d.ring| == Meta.RING_SIZE && !d.dying
    ensures Meta.LockRead(Meta.AfterPublish(d, e), d.head) == Meta.Got(d.head, Meta.Normalized(e))
  {
  }

  // ---- occupancy ----

  /** Sum of the frames in flight at completions 0..c-1. */
  function OccSum(depth: nat, frames: nat, c: nat): int {
    if c == 0 then 0 else OccSum(depth, frames, c - 1) + Min(depth, frames - (c - 1))
  }

  /** Frames in flight summed over the last `r` completions of a run. */
  function LastOccupancies(depth: nat, r: nat): nat {
    if r == 0 then 0 else LastOccupancies(depth, r - 1) + Min(depth, r)
  }

  lemma {:induction false} OccSumSplits(depth: nat, frames: nat, c: nat)
    requires c <= frames
    ensures OccSum(depth, frames, c) + LastOccupancies(depth, frames - c) == LastOccupancies(depth, frames)
  {
    if c > 0 { OccSumSplits(depth, frames, c - 1); }
  }

  lemma {:induction false} LastOccupanciesClosed(depth: nat, r: nat)
    requires 1 <= depth
    ensures r <= depth ==> 2 * LastOccupancies(depth, r) == r * (r + 1)
    ensures r >= depth ==> 2 * LastOccupancies(depth, r) == 2 * (depth * r) - depth * (depth - 1)
  {
    if r > 0 {
      LastOccupanciesClosed(depth, r - 1);
      Triangle(r, depth);
    }
  }

  lemma Triangle(r: nat, depth: nat)
    requires r > 0
    ensures r * (r + 1) == (r - 1) * r + 2 * r && depth * r == depth * (r - 1) + depth
    ensures r == depth ==> r * (r + 1) == 2 * (depth * r) - depth * (depth - 1)
  {
  }

  /** Total occupancy of a run: full depth for every frame less the ramp at the end. */
  lemma TotalOccupancy(depth: nat, frames: nat)
    requires 1 <= depth
    ensures var d := Min(depth, frames); 2 * OccSum(depth, frames, frames) == 2 * (d * frames) - d * (d - 1)
  {
    OccSumSplits(depth, frames, frames);
    LastOccupanciesClosed(depth, frames);
    FewFrames(frames);
  }

  lemma FewFrames(f: nat)
    ensures f * (f + 1) == 2 * (f * f) - f * (f - 1)
  {
  }

  // ---- the runner ----

  /** One line of the CSV: userspace's own times and the metadata entry it read. */
  datatype Row = Row(frame: nat, usQbuf: nat, usDqbuf: nat, latency: int, meta: Meta.Entry,
                     crcUser: Crc32.Word, dropped: bool, verified: Option<bool>)

  /**
   * What a correct line for frame `i` says: its own entry, equal checksums, and one timeline from
   * the clock read of that very submission through the driver's three stamps to the clock read
   * after its dequeue, whose ends the latency measures.
   */
  ghost predicate RowOk(row: Row, i: nat, g: Setting, verify: bool) {
    && row.frame == i && row.meta.seqNo == g.base + i + 1 && row.meta.crc32 == row.crcUser
    && row.meta.qbufTs == row.usQbuf + g.lag(i) && Provenance.TimelineOk(row.meta)
    && row.usDqbuf == row.meta.dqbufTs + g.back(i) && row.latency == row.usDqbuf - row.usQbuf
    && row.meta.bufferType == MemoryCode(MMAP) && !row.meta.flags.overrun
    && row.dropped == row.meta.flags.dropped == (g.vcam && P.Multiple(i, g.drop))
    && row.verified == if verify && g.vcam && !row.dropped then Some(true) else None
  }

  /** The checks on one dequeued frame: checksum, metadata, pattern. */
  method CheckFrame(k: Kernel, cap: Captured, i: nat, vcam: bool, verify: bool, crc: Crc32.Crc32Table,
                    ghost before: Meta.Device, ghost e: Meta.Entry, ghost g: Setting, ghost times: seq<nat>)
    returns (k': Kernel, meta: Meta.Entry, crcUser: Crc32.Word, dropped: bool, verified: Option<bool>)
    requires |before.ring| == Meta.RING_SIZE && !before.dying && k.dev == Meta.AfterPublish(before, e)
    requires k.tail == before.head
    requires DoneFrame(CapBuf(DONE, cap.plane, e), g, times, i) && cap.bytesused == SIZE && g.vcam == vcam
    requires crc.Valid()
    modifies crc, crc.table
    ensures crc.Valid() && k' == k.(tail := k.dev.head)
    ensures meta == Meta.Normalized(e) && meta.crc32 == crcUser
    ensures dropped == meta.flags.dropped == (vcam && P.Multiple(i, g.drop))
    ensures verified == if verify && vcam && !dropped then Some(true) else None
  {
    crcUser := crc.Checksum(cap.plane[..cap.bytesused]);
    ReadAfterPublish(before, e);
    var got := Meta.LockRead(k.dev, k.tail);
    k' := k.(tail := got.tail + 1);
    meta, dropped := got.entry, got.entry.flags.dropped;
    verified := None;
    if verify && vcam && !dropped {
      assert Gradient.IsPattern(cap.plane, SHAPE, i - P.DropsBy(true, g.drop, i));
      var good := Gradient.Verify(cap.plane, SHAPE);
      verified := Some(good);
    }
  }

  /** `submit_output` on the MMAP transport: note the time, fill if the fixture needs it, queue. */
  method SubmitOutput(k: Kernel, dt: nat, lag: nat, vcam: bool, depth: nat, frame: nat, index: nat,
                      qbufRing: array<nat>,
                      ghost g: Setting, ghost p: Progress)
    returns (k': Kernel, ghost at: nat)
    requires KernelOk(k, g, p) && g.vcam == vcam && p.submitted == frame && frame + 1 < TWO32 && lag == g.lag(frame)
    requires 0 < depth <= qbufRing.Length && index < |k.c.outBufs| && k.c.outBufs[index].state == DEQUEUED
    modifies qbufRing
    ensures KernelOk(k', g, Submitted(p, at)) && k.now <= at <= k'.now && k'.dev == k.dev && k'.tail == k.tail
    ensures OutQueued(k.c, k'.c, index)
    ensures qbufRing[frame % depth] == at
    ensures forall j :: 0 <= j < qbufRing.Length && j != frame % depth ==> qbufRing[j] == old(qbufRing[j])
  {
    qbufRing[frame % depth] := k.now + dt;
    at := k.now + dt;
    var now := k.now + dt + lag;
    var fill := UserFill(vcam, k.c.outBufs[index].plane, frame);
    var r := QBufOut(k.c, k.n, index, fill, true, now);
    QOutStep(k.c, g, p, k.now, at, now, k.n, index);
    k' := k.(c := r.ctx, n := r.sequence, now := now);
  }

  /** The ring slots of frames `lo..hi` still hold their submission times. */
  ghost predicate RingHolds(ring: seq<nat>, depth: nat, times: seq<nat>, lo: nat, hi: nat)
    requires 0 < depth <= |ring| && hi <= |times|
  {
    forall i :: lo <= i < hi ==> ring[i % depth] == times[i]
  }

  /** Recording a new submission evicts none of fewer than `depth` frames in flight. */
  lemma RingRecords(ring: seq<nat>, ring': seq<nat>, depth: nat, times: seq<nat>, lo: nat, hi: nat, t: nat)
    requires 0 < depth <= |ring| == |ring'| && hi == |times| && lo <= hi < lo + depth
    requires RingHolds(ring, depth, times, lo, hi)
    requires ring'[hi % depth] == t && forall j :: 0 <= j < |ring| && j != hi % depth ==> ring'[j] == ring[j]
    ensures RingHolds(ring', depth, times + [t], lo, hi + 1)
  {
    forall i | lo <= i < hi + 1
      ensures ring'[i % depth] == (times + [t])[i]
    {
      if i < hi { SlotsDiffer(i, hi, depth); }
    }
  }

  lemma SlotsDiffer(i: nat, j: nat, depth: nat)
    requires i < j < i + depth
    ensures i % depth != j % depth
  {
    var a := i / depth;
    Cv.RowOfIndex(i, a, depth);
    Cv.RowOfIndex(j, a, depth);
    Cv.RowOfIndex(j, a + 1, depth);
    Cv.OneMoreRow(a, depth);
  }

  /** The second half of an iteration: give the CAPTURE buffer back, take an OUTPUT buffer back. */
  method Recycle(k: Kernel, index: nat, at: nat, jobs: nat -> nat, tick: nat -> nat, ghost g: Setting,
                 ghost p: Progress)
    returns (k': Kernel, outIndex: nat, ghost p': Progress)
    requires KernelOk(k, g, p) && p.user == 1 && index < |k.c.capBufs| && k.c.capBufs[index].state == DEQUEUED
    requires p.outDq < p.jobs
    ensures p' == p.(jobs := p'.jobs, outDq := p.outDq + 1, user := 0) && p.jobs <= p'.jobs
    ensures KernelOk(k', g, p') && k'.dev == k.dev && k'.tail == k.tail && k'.now >= k.now
    ensures outIndex < |k'.c.outBufs| && k'.c.outBufs[outIndex].state == DEQUEUED
  {
    k', p' := RunJobs(k, jobs(at), tick(at), g, p);
    assert k'.c.capBufs[index].state == DEQUEUED;
    QCapStep(k'.c, g, p', k'.now, k'.now, k'.n, index);
    k' := k'.(c := QBufCap(k'.c, k'.n, index, None).ctx);
    p' := p'.(user := 0);
    k', p' := RunJobs(k', jobs(at + 1), tick(at + 1), g, p');
    outIndex := k'.c.outQ.done[0];
    DqOutStep(k'.c, g, p', k'.now, k'.now, k'.n);
    k' := k'.(c := DqBufOut(k'.c, k'.n).ctx);
    p' := p'.(outDq := p'.outDq + 1);
  }

  // ---- setting up ----

  /** Userspace holds every CAPTURE buffer from `i` on; the others wait for STREAMON in order. */
  ghost predicate CapturesHeld(c: Ctx, i: nat) {
    && c.capQ == Queue(ExactlyOnce.Range(i), [], [], false)
    && (forall j :: i <= j < |c.capBufs| ==> c.capBufs[j].state == DEQUEUED)
    && (forall j :: 0 <= j < |c.capBufs| ==> SIZE <= |c.capBufs[j].plane| < TWO32)
  }

  /** A context set up for a run, before its CAPTURE buffers are queued. */
  ghost predicate OutputReady(c: Ctx, vcam: bool, depth: nat) {
    && c.outFmt == DEFAULT_FMT && c.capFmt == DEFAULT_FMT && c.ctl.algo == 0
    && c.outQ == IDLE && |c.outBufs| == depth && |c.capBufs| == depth
    && (forall j :: 0 <= j < depth ==> c.outBufs[j].state == DEQUEUED && SIZE <= |c.outBufs[j].plane| < TWO32)
    && (forall j :: 0 <= j < depth ==> c.outBufs[j].memory == MMAP)
    && (if vcam then c.src.producer.Vcam? else c.src.producer == P.Fixture)
  }

  function Backend(vcam: bool): nat { if vcam then Source.BACKEND_VCAM else Source.BACKEND_FIXTURE }

  /** Open, select the source, set both formats, allocate both queues, select no algorithm. */
  function Configured(vcam: bool, outPlanes: seq<Plane>, capPlanes: seq<Plane>): Ctx {
    var c1 := SetBackend(OPENED, 0, Backend(vcam)).ctx;
    var c2 := SetFmt(SetFmt(c1, true, 640, 480), false, 640, 480);
    var c3 := ReqBufsCap(ReqBufsOut(c2, 0, MMAP, outPlanes).ctx, 0, capPlanes).ctx;
    c3.(ctl := SetControl(c3.ctl, Algo, 0))
  }

  ghost predicate PlanesOk(planes: seq<Plane>, depth: nat) {
    |planes| == depth >= 2 && forall j :: 0 <= j < depth ==> SIZE <= |planes[j]| < TWO32
  }

  /** The two queues of a configured context are empty and hold the given planes. */
  lemma ConfiguredShape(vcam: bool, outPlanes: seq<Plane>, capPlanes: seq<Plane>)
    requires |outPlanes| >= 2 && |capPlanes| >= 2
    ensures var c := Configured(vcam, outPlanes, capPlanes);
      && c.outFmt == DEFAULT_FMT && c.capFmt == DEFAULT_FMT && c.ctl.algo == 0 && c.outQ == IDLE && c.capQ == IDLE
      && c.src == Source.Create(1, Backend(vcam)).value
      && |c.outBufs| == |outPlanes| && |c.capBufs| == |capPlanes|
      && (forall j :: 0 <= j < |outPlanes| ==>
            c.outBufs[j].state == DEQUEUED && c.outBufs[j].plane == outPlanes[j] && c.outBufs[j].memory == MMAP)
      && (forall j :: 0 <= j < |capPlanes| ==> c.capBufs[j] == CapBuf(DEQUEUED, capPlanes[j], BLANK))
      && c.numbers == [] && c.published == [] && c.fifo && c.jobs == [] && c.tickets == 0
  {
    var c1 := SetBackend(OPENED, 0, Backend(vcam)).ctx;
    assert SetFmt(c1, true, 640, 480).outFmt == DEFAULT_FMT;
  }

  lemma IdleCaptureOk(c: Ctx)
    requires c.capQ == IDLE && c.numbers == [] && c.published == [] && c.fifo
    requires forall j :: 0 <= j < |c.capBufs| ==> c.capBufs[j].state == DEQUEUED && c.capBufs[j].pending == BLANK
    ensures ExactlyOnce.CtxOk(c)
  {
    forall k | k > 0 ensures ExactlyOnce.Pending(c.capBufs, k) == 0 { ExactlyOnce.PendingZero(c.capBufs, k); }
  }

  lemma IdleOutputOk(c: Ctx, clock: nat)
    requires c.outQ == IDLE && c.jobs == [] && Source.Numbered(c.src) && Provenance.SourceRuns(c)
    requires forall j :: 0 <= j < |c.outBufs| ==> c.outBufs[j].state == DEQUEUED
    requires forall j :: 0 <= j < |c.capBufs| ==> c.capBufs[j].pending == BLANK
    ensures Provenance.CtxOk(c) && Provenance.TimesOk(c, clock)
  {
  }

  lemma ConfiguredOk(vcam: bool, depth: nat, outPlanes: seq<Plane>, capPlanes: seq<Plane>, clock: nat)
    requires PlanesOk(outPlanes, depth) && PlanesOk(capPlanes, depth)
    ensures var c := Configured(vcam, outPlanes, capPlanes);
      OutputReady(c, vcam, depth) && CapturesHeld(c, 0) && DriverOk(c, clock)
  {
    var c := Configured(vcam, outPlanes, capPlanes);
    ConfiguredShape(vcam, outPlanes, capPlanes);
    IdleCaptureOk(c);
    IdleOutputOk(c, clock);
    assert ExactlyOnce.Range(0) == [];
  }

  lemma HoldShape(c: Ctx, n: nat, i: nat)
    requires CapturesHeld(c, i) && i < |c.capBufs| && c.capFmt == DEFAULT_FMT
    ensures var c' := QBufCap(c, n, i, None).ctx;
      && CapturesHeld(c', i + 1) && c'.capBufs == c.capBufs[i := c.capBufs[i].(state := QUEUED)]
      && c' == c.(capBufs := c'.capBufs, capQ := c'.capQ)
  {
    assert ExactlyOnce.Range(i + 1) == ExactlyOnce.Range(i) + [i];
  }

  lemma HoldCapture(c: Ctx, n: nat, i: nat, vcam: bool, depth: nat, clock: nat)
    requires OutputReady(c, vcam, depth) && CapturesHeld(c, i) && DriverOk(c, clock) && i < depth
    ensures var c' := QBufCap(c, n, i, None).ctx;
      OutputReady(c', vcam, depth) && CapturesHeld(c', i + 1) && DriverOk(c', clock)
  {
    HoldShape(c, n, i);
    DriverKeeps(c, n, clock, clock, ActQBufCap(i, None), QBufCap(c, n, i, None));
  }

  const FRESH := Progress(0, 0, 0, 0, 0, [])

  /** STREAMON of both queues, CAPTURE first. */
  function Streaming(c: Ctx, n: nat, params: P.Params, now: nat): Ctx {
    StreamOnOut(StreamOnCap(c, n).ctx, n, params, true, now).ctx
  }

  lemma StreamingShape(c: Ctx, n: nat, params: P.Params, now: nat, vcam: bool, depth: nat)
    requires OutputReady(c, vcam, depth) && CapturesHeld(c, depth) && depth > 0
    ensures var c' := Streaming(c, n, params, now);
      && c'.outQ == Queue([], [], [], true) && c'.capQ == Queue([], ExactlyOnce.Range(depth), [], true)
      && c'.outBufs == c.outBufs && c'.capBufs == Activated(c.capBufs) && c'.ctl == c.ctl
      && c'.outFmt == DEFAULT_FMT && c'.capFmt == DEFAULT_FMT
      && c'.src == c.src.(producer := P.Started(c.src.producer, SIZE, params, now))
  {
    var c1 := StreamOnCap(c, n).ctx;
    assert [] + c.capQ.held == c.capQ.held;
    assert QueueHeld(c1, [], n, true, now) == Same(c1, n);
  }

  lemma StreamingFrames(c: Ctx, n: nat, params: P.Params, now: nat, g: Setting)
    requires OutputReady(c, g.vcam, g.depth) && CapturesHeld(c, g.depth) && g.depth > 0
    ensures FramesOk(Streaming(c, n, params, now), g, FRESH)
  {
    StreamingShape(c, n, params, now, g.vcam, g.depth);
  }

  lemma StreamingSource(c: Ctx, n: nat, params: P.Params, now: nat, vcam: bool, depth: nat)
    requires OutputReady(c, vcam, depth) && CapturesHeld(c, depth) && depth > 0
    ensures SourceOk(Streaming(c, n, params, now).src, vcam, params.vcamDropEvery, 0)
  {
    StreamingShape(c, n, params, now, vcam, depth);
    assert P.PageAlign(SIZE) == SIZE;
  }

  lemma StreamingOk(c: Ctx, n: nat, params: P.Params, now: nat, g: Setting)
    requires OutputReady(c, g.vcam, g.depth) && CapturesHeld(c, g.depth) && g.depth > 0 && DriverOk(c, now)
    requires g.drop == params.vcamDropEvery
    ensures PipeOk(Streaming(c, n, params, now), g, FRESH, now)
  {
    StreamingFrames(c, n, params, now, g);
    StreamingSource(c, n, params, now, g.vcam, g.depth);
    StreamingKeepsDriver(c, n, params, now);
  }

  /** Everything `run_one` does before its first submission. */
  method Setup(vcam: bool, depth: nat, outPlanes: seq<Plane>, capPlanes: seq<Plane>, params: P.Params, k0: Kernel,
               ghost g: Setting)
    returns (k: Kernel)
    requires k0.c == OPENED && PlanesOk(outPlanes, depth) && PlanesOk(capPlanes, depth)
    requires |k0.dev.ring| == Meta.RING_SIZE && !k0.dev.dying
    requires g.vcam == vcam && g.drop == params.vcamDropEvery && g.depth == depth && g.base == k0.n
    ensures KernelOk(k, g, FRESH)
    ensures k.dev == k0.dev && k.tail == k0.dev.head
    ensures forall j :: 0 <= j < depth ==> k.c.outBufs[j].state == DEQUEUED
  {
    var c := Configured(vcam, outPlanes, capPlanes);
    ConfiguredOk(vcam, depth, outPlanes, capPlanes, k0.now);
    for i := 0 to depth
      invariant OutputReady(c, vcam, depth) && CapturesHeld(c, i) && DriverOk(c, k0.now)
    {
      HoldCapture(c, k0.n, i, vcam, depth, k0.now);
      c := QBufCap(c, k0.n, i, None).ctx;
    }
    StreamingShape(c, k0.n, params, k0.now, vcam, depth);
    StreamingOk(c, k0.n, params, k0.now, g);
    k := k0.(c := Streaming(c, k0.n, params, k0.now), tail := k0.dev.head);
  }

  // ---- run_one ----

  datatype Config = Config(frames: nat, queueDepth: nat, vcam: bool, verifyPattern: bool)

  /** Occupancy statistics of a run. */
  datatype Occupancy = Occupancy(sum: int, max: int)

  /** Everything known at the head of the completion loop. */
  ghost predicate LoopOk(k: Kernel, g: Setting, p: Progress, cfg: Config, depth: nat, submitted: nat, completed: nat) {
    && KernelOk(k, g, p) && k.tail == k.dev.head
    && p.submitted == submitted && p.capDq == p.outDq == completed && p.user == 0
    && submitted == Min(cfg.frames, completed + depth) && completed <= cfg.frames
  }

  /** The clock's behaviour: jobs between calls, time passing, and the two ways between user and driver. */
  datatype Schedule = Schedule(jobs: nat -> nat, tick: nat -> nat, lag: nat -> nat, back: nat -> nat)

  /** One pass of the completion loop up to the next submission. */
  method CompleteOne(k: Kernel, cfg: Config, completed: nat, usQbuf: nat, at: nat, sched: Schedule,
                     crc: Crc32.Crc32Table,
                     ghost g: Setting, ghost p: Progress)
    returns (k': Kernel, row: Row, outIndex: nat, ghost p': Progress)
    requires KernelOk(k, g, p) && k.tail == k.dev.head && crc.Valid() && g.depth > 0 && g.vcam == cfg.vcam
    requires g.back == sched.back
    requires p.capDq == p.outDq == completed < p.submitted && p.user == 0 && usQbuf == p.times[completed]
    modifies crc, crc.table
    ensures crc.Valid()
    ensures KernelOk(k', g, p') && k'.tail == k'.dev.head == k.dev.head + 1 && k'.now >= row.usDqbuf
    ensures p' == p.(jobs := p'.jobs, capDq := completed + 1, outDq := completed + 1)
    ensures RowOk(row, completed, g, cfg.verifyPattern) && row.usQbuf == usQbuf
    ensures outIndex < |k'.c.outBufs| && k'.c.outBufs[outIndex].state == DEQUEUED
  {
    var index;
    k', row, index, p' := FinishFrame(k, cfg, completed, usQbuf, at, sched, crc, g, p);
    k', outIndex, p' := Recycle(k', index, at + 3, sched.jobs, sched.tick, g, p');
  }

  /** The first half of an iteration: wait for a completed frame and turn it into a line. */
  method FinishFrame(k: Kernel, cfg: Config, completed: nat, usQbuf: nat, at: nat, sched: Schedule,
                     crc: Crc32.Crc32Table, ghost g: Setting, ghost p: Progress)
    returns (k': Kernel, row: Row, index: nat, ghost p': Progress)
    requires KernelOk(k, g, p) && k.tail == k.dev.head && crc.Valid() && g.depth > 0 && g.vcam == cfg.vcam
    requires g.back == sched.back && p.capDq == completed < p.submitted && p.user == 0
    requires completed < |p.times| && usQbuf == p.times[completed]
    modifies crc, crc.table
    ensures crc.Valid() && KernelOk(k', g, p') && k'.tail == k'.dev.head == k.dev.head + 1 && k'.now == row.usDqbuf
    ensures p' == p.(jobs := p'.jobs, capDq := completed + 1, user := 1) && completed < p'.jobs
    ensures RowOk(row, completed, g, cfg.verifyPattern) && row.usQbuf == usQbuf
    ensures index < |k'.c.capBufs| && k'.c.capBufs[index].state == DEQUEUED
  {
    k', p' := WaitForFrame(k, sched.jobs(at), sched.tick(at), sched.tick(at + 1), g, p);
    k', row, index := TakeFrame(k', cfg, completed, usQbuf, sched.tick(at + 2), sched.back(completed), crc, g, p');
    p' := p'.(capDq := p'.capDq + 1, user := 1);
  }

  method WaitForFrame(k: Kernel, m: nat, dt: nat, wait: nat, ghost g: Setting, ghost p: Progress)
    returns (k': Kernel, ghost p': Progress)
    requires KernelOk(k, g, p) && p.user == 0 && p.capDq < p.submitted && g.depth > 0
    ensures KernelOk(k', g, p') && p' == p.(jobs := p'.jobs) && p.jobs <= p'.jobs
    ensures k'.c.capQ.done != [] && k'.dev == k.dev && k'.tail == k.tail
  {
    k', p' := RunJobs(k, m, dt, g, p);
    k', p' := AwaitCapture(k', wait, g, p');
  }

  /** Dequeue a completed frame, read the clock and the metadata, check, and write the line. */
  method TakeFrame(k: Kernel, cfg: Config, i: nat, usQbuf: nat, dt: nat, back: nat, crc: Crc32.Crc32Table,
                   ghost g: Setting, ghost p: Progress)
    returns (k': Kernel, row: Row, index: nat)
    requires KernelOk(k, g, p) && k.c.capQ.done != [] && k.tail == k.dev.head && crc.Valid() && g.vcam == cfg.vcam
    requires p.capDq == i < |p.times| && usQbuf == p.times[i] && back == g.back(i)
    modifies crc, crc.table
    ensures crc.Valid() && KernelOk(k', g, p.(capDq := p.capDq + 1, user := p.user + 1))
    ensures k'.tail == k'.dev.head == k.dev.head + 1 && k'.now == row.usDqbuf
    ensures RowOk(row, i, g, cfg.verifyPattern) && row.usQbuf == usQbuf
    ensures index < |k'.c.capBufs| && k'.c.capBufs[index].state == DEQUEUED
  {
    ghost var p' := p.(capDq := p.capDq + 1, user := p.user + 1);
    var cap: Captured;
    ghost var e: Meta.Entry;
    k', cap, e := DqCapture(k, dt, g, p);
    k' := Elapsed(k', back, g, p');
    var dq := k'.now;
    var meta, crcUser, dropped, verified;
    k', meta, crcUser, dropped, verified :=
      CheckFrame(k', cap, i, cfg.vcam, cfg.verifyPattern, crc, k.dev, e, g, p.times);
    row := Row(i, usQbuf, dq, dq - usQbuf, meta, crcUser, dropped, verified);
    index := cap.index;
  }

  /** Nothing but time passes. */
  method Elapsed(k: Kernel, dt: nat, ghost g: Setting, ghost p: Progress) returns (k': Kernel)
    requires KernelOk(k, g, p)
    ensures KernelOk(k', g, p) && k' == k.(now := k.now + dt)
  {
    Provenance.TimesLater(k.c, k.now, k.now + dt);
    k' := k.(now := k.now + dt);
  }

  /** Fill the OUTPUT pipeline before draining it; jobs may already run meanwhile. */
  method FillPipeline(k0: Kernel, cfg: Config, depth: nat, sched: Schedule, qbufRing: array<nat>, ghost g: Setting)
    returns (k: Kernel, submitted: nat, ghost p: Progress)
    requires KernelOk(k0, g, FRESH) && g.vcam == cfg.vcam && g.depth == cfg.queueDepth == |k0.c.outBufs|
    requires g.lag == sched.lag
    requires 1 <= depth <= cfg.queueDepth <= qbufRing.Length && cfg.frames < TWO32
    requires forall j :: 0 <= j < |k0.c.outBufs| ==> k0.c.outBufs[j].state == DEQUEUED
    modifies qbufRing
    ensures submitted == Min(cfg.frames, depth) && p == FRESH.(submitted := submitted, jobs := p.jobs, times := p.times)
    ensures KernelOk(k, g, p) && k.dev == k0.dev && k.tail == k0.tail
    ensures |p.times| == submitted && RingHolds(qbufRing[..], cfg.queueDepth, p.times, 0, submitted)
  {
    k, submitted, p := k0, 0, FRESH;
    while submitted < cfg.frames && submitted < depth
      invariant submitted <= cfg.frames && submitted <= depth
      invariant p == FRESH.(submitted := submitted, jobs := p.jobs, times := p.times)
      invariant KernelOk(k, g, p) && k.dev == k0.dev && k.tail == k0.tail && |k.c.outBufs| == cfg.queueDepth
      invariant forall j :: submitted <= j < |k.c.outBufs| ==> k.c.outBufs[j].state == DEQUEUED
      invariant |p.times| == submitted && RingHolds(qbufRing[..], cfg.queueDepth, p.times, 0, submitted)
    {
      k, p := SubmitNext(k, cfg, sched.tick(submitted), sched.lag(submitted), submitted, submitted, 0, qbufRing, g, p);
      k, p := RunJobs(k, sched.jobs(submitted), sched.tick(submitted), g, p);
      submitted := submitted + 1;
    }
  }

  /** One iteration of the completion loop: complete a frame, then submit the next one if any is left. */
  method Iterate(k: Kernel, cfg: Config, depth: nat, submitted: nat, completed: nat, at: nat, sched: Schedule,
                 qbufRing: array<nat>, crc: Crc32.Crc32Table, ghost g: Setting, ghost p: Progress)
    returns (k': Kernel, submitted': nat, row: Row, ghost p': Progress)
    requires LoopOk(k, g, p, cfg, depth, submitted, completed) && completed < cfg.frames < TWO32 && crc.Valid()
    requires 1 <= depth <= cfg.queueDepth == g.depth <= qbufRing.Length && g.vcam == cfg.vcam
    requires g.lag == sched.lag && g.back == sched.back
    requires RingHolds(qbufRing[..], cfg.queueDepth, p.times, completed, submitted)
    requires qbufRing as object != crc.table as object
    modifies crc, crc.table, qbufRing
    ensures crc.Valid() && LoopOk(k', g, p', cfg, depth, submitted', completed + 1)
    ensures p.times <= p'.times && forall i :: submitted <= i < submitted' ==> row.usDqbuf <= p'.times[i]
    ensures RingHolds(qbufRing[..], cfg.queueDepth, p'.times, completed + 1, submitted')
    ensures RowOk(row, completed, g, cfg.verifyPattern) && row.usQbuf == p.times[completed]
  {
    var outIndex: nat;
    k', row, outIndex, p' := CompleteOne(k, cfg, completed, qbufRing[completed % cfg.queueDepth], at, sched, crc, g, p);
    submitted' := submitted;
    if submitted < cfg.frames {
      k', p' := SubmitNext(k', cfg, sched.tick(at + 5), sched.lag(submitted), submitted, outIndex, completed + 1,
                           qbufRing, g, p');
      submitted' := submitted + 1;
    }
  }

  /** A further submission while frames from `lo` on are in flight. */
  method SubmitNext(k: Kernel, cfg: Config, dt: nat, lag: nat, frame: nat, index: nat, ghost lo: nat,
                    qbufRing: array<nat>,
                    ghost g: Setting, ghost p: Progress)
    returns (k': Kernel, ghost p': Progress)
    requires KernelOk(k, g, p) && g.vcam == cfg.vcam && p.submitted == frame && frame + 1 < TWO32 && lag == g.lag(frame)
    requires 0 < cfg.queueDepth <= qbufRing.Length && index < |k.c.outBufs| && k.c.outBufs[index].state == DEQUEUED
    requires lo <= frame < lo + cfg.queueDepth && |p.times| == frame
    requires RingHolds(qbufRing[..], cfg.queueDepth, p.times, lo, frame)
    modifies qbufRing
    ensures KernelOk(k', g, p') && k'.dev == k.dev && k'.tail == k.tail && OutQueued(k.c, k'.c, index)
    ensures |p'.times| == frame + 1 && p' == Submitted(p, p'.times[frame]) && k.now <= p'.times[frame]
    ensures RingHolds(qbufRing[..], cfg.queueDepth, p'.times, lo, frame + 1)
  {
    ghost var ring := qbufRing[..];
    ghost var began;
    k', began := SubmitOutput(k, dt, lag, cfg.vcam, cfg.queueDepth, frame, index, qbufRing, g, p);
    RingRecords(ring, qbufRing[..], cfg.queueDepth, p.times, lo, frame, began);
    p' := Submitted(p, began);
  }

  /** Setup and the first submissions. */
  method Begin(cfg: Config, depth: nat, outPlanes: seq<Plane>, capPlanes: seq<Plane>, params: P.Params,
               sched: Schedule, k0: Kernel, qbufRing: array<nat>, ghost g: Setting)
    returns (k: Kernel, submitted: nat, ghost p: Progress)
    requires 1 <= cfg.frames < TWO32 && 1 <= depth <= cfg.queueDepth <= qbufRing.Length
    requires k0.c == OPENED && |k0.dev.ring| == Meta.RING_SIZE && !k0.dev.dying
    requires PlanesOk(outPlanes, cfg.queueDepth) && PlanesOk(capPlanes, cfg.queueDepth)
    requires g == Setting(cfg.vcam, params.vcamDropEvery, cfg.queueDepth, k0.n, sched.lag, sched.back)
    modifies qbufRing
    ensures LoopOk(k, g, p, cfg, depth, submitted, 0)
    ensures RingHolds(qbufRing[..], cfg.queueDepth, p.times, 0, submitted)
  {
    k := Setup(cfg.vcam, cfg.queueDepth, outPlanes, capPlanes, params, k0, g);
    k, submitted, p := FillPipeline(k, cfg, depth, sched, qbufRing, g);
  }

  /** Every line written so far is right and begins with its own frame's submission. */
  ghost predicate RowsOk(rows: seq<Row>, times: seq<nat>, g: Setting, verify: bool) {
    |rows| <= |times| && forall i :: 0 <= i < |rows| ==> RowOk(rows[i], i, g, verify) && rows[i].usQbuf == times[i]
  }

  /** Frame i + depth is submitted only after frame i has been dequeued. */
  ghost predicate Paced(rows: seq<Row>, times: seq<nat>, depth: nat) {
    forall i, j :: 0 <= i < |rows| && j == i + depth < |times| ==> rows[i].usDqbuf <= times[j]
  }

  /** A whole run's lines: each right, and each submission after the dequeue that made room for it. */
  ghost predicate LinesOk(rows: seq<Row>, g: Setting, verify: bool, depth: nat) {
    && (forall i :: 0 <= i < |rows| ==> RowOk(rows[i], i, g, verify))
    && (forall i, j :: 0 <= i < |rows| && j == i + depth < |rows| ==> rows[i].usDqbuf <= rows[j].usQbuf)
  }

  lemma RowsPush(rows: seq<Row>, row: Row, times: seq<nat>, times': seq<nat>, g: Setting, verify: bool, depth: nat)
    requires RowsOk(rows, times, g, verify) && Paced(rows, times, depth) && |rows| < |times| && times <= times'
    requires RowOk(row, |rows|, g, verify) && row.usQbuf == times[|rows|] && |times| <= |rows| + depth
    requires |times| < |times'| ==> |times| == |rows| + depth
    requires forall i :: |times| <= i < |times'| ==> row.usDqbuf <= times'[i]
    ensures RowsOk(rows + [row], times', g, verify) && Paced(rows + [row], times', depth)
  {
  }

  lemma RowsPaced(rows: seq<Row>, times: seq<nat>, g: Setting, verify: bool, depth: nat)
    requires RowsOk(rows, times, g, verify) && Paced(rows, times, depth)
    ensures LinesOk(rows, g, verify, depth)
  {
  }

  /** Occupancy statistics after `c` completions. */
  ghost predicate OccupancyOk(occ: Occupancy, depth: nat, frames: nat, c: nat) {
    occ.sum == OccSum(depth, frames, c) && occ.max == if c == 0 then 0 else Min(depth, frames)
  }

  lemma OccupancyStep(occ: Occupancy, depth: nat, frames: nat, c: nat, flying: nat)
    requires OccupancyOk(occ, depth, frames, c) && c < frames && flying == Min(depth, frames - c)
    ensures OccupancyOk(Occupancy(occ.sum + flying, Max(occ.max, flying)), depth, frames, c + 1)
  {
  }

  /** The completion loop. */
  method Drain(k0: Kernel, cfg: Config, depth: nat, submitted0: nat, sched: Schedule,
               qbufRing: array<nat>, crc: Crc32.Crc32Table, ghost g: Setting, ghost p0: Progress)
    returns (rows: seq<Row>, occ: Occupancy, submitted: nat, completed: nat)
    requires LoopOk(k0, g, p0, cfg, depth, submitted0, 0) && 1 <= cfg.frames < TWO32 && crc.Valid()
    requires 1 <= depth <= cfg.queueDepth == g.depth <= qbufRing.Length && g.vcam == cfg.vcam
    requires g.lag == sched.lag && g.back == sched.back
    requires RingHolds(qbufRing[..], cfg.queueDepth, p0.times, 0, submitted0)
    requires qbufRing as object != crc.table as object
    modifies crc, crc.table, qbufRing
    ensures submitted == completed == |rows| == cfg.frames
    ensures LinesOk(rows, g, cfg.verifyPattern, depth) && OccupancyOk(occ, depth, cfg.frames, cfg.frames)
  {
    var k;
    ghost var p;
    k, submitted, p := k0, submitted0, p0;
    rows, occ, completed := [], Occupancy(0, 0), 0;
    while completed < cfg.frames
      invariant LoopOk(k, g, p, cfg, depth, submitted, completed) && crc.Valid()
      invariant RingHolds(qbufRing[..], cfg.queueDepth, p.times, completed, submitted)
      invariant |rows| == completed && RowsOk(rows, p.times, g, cfg.verifyPattern) && Paced(rows, p.times, depth)
      invariant OccupancyOk(occ, depth, cfg.frames, completed)
    {
      // frames between QBUF and DQBUF: min(depth, frames left)
      var flying := submitted - completed;
      OccupancyStep(occ, depth, cfg.frames, completed, flying);
      occ := Occupancy(occ.sum + flying, Max(occ.max, flying));
      var row: Row;
      ghost var before := p.times;
      k, submitted, row, p :=
        Iterate(k, cfg, depth, submitted, completed, cfg.frames + 6 * completed, sched, qbufRing, crc, g, p);
      RowsPush(rows, row, before, p.times, g, cfg.verifyPattern, depth);
      rows := rows + [row];
      completed := completed + 1;
    }
    RowsPaced(rows, p.times, g, cfg.verifyPattern, depth);
  }

  /**
   * `run_one`, end to end, for every job schedule, every clock and every drop cadence. Each line
   * describes its own frame: the metadata read right after the i-th dequeue is that frame's
   * entry, both checksums agree, and the latency runs from the clock read of that frame's own
   * submission, which the driver's queue stamp follows by the time QBUF took, to the clock read
   * after its own dequeue. Frame i + depth is submitted only after frame i came back. Dropped
   * frames are the ones at multiples of N and every other vcam frame passes the pattern test.
   * The loop never deadlocks, ends with all frames submitted and completed, and the summed
   * occupancy is full depth for every frame less the ramp at the end.
   */
  method RunOne(cfg: Config, inflight: nat, outPlanes: seq<Plane>, capPlanes: seq<Plane>, params: P.Params,
                sched: Schedule, k0: Kernel, crc: Crc32.Crc32Table)
    returns (rows: seq<Row>, occ: Occupancy, submitted: nat, completed: nat)
    requires 1 <= cfg.frames < TWO32 && 2 <= cfg.queueDepth <= MAX_QUEUE_DEPTH
    requires k0.c == OPENED && |k0.dev.ring| == Meta.RING_SIZE && !k0.dev.dying
    requires PlanesOk(outPlanes, cfg.queueDepth) && PlanesOk(capPlanes, cfg.queueDepth) && crc.Valid()
    modifies crc, crc.table
    ensures submitted == completed == |rows| == cfg.frames
    ensures var g := Setting(cfg.vcam, params.vcamDropEvery, cfg.queueDepth, k0.n, sched.lag, sched.back);
      var depth := if inflight == 0 then 1 else if inflight <= cfg.queueDepth then inflight else cfg.queueDepth;
      var d := if depth <= cfg.frames then depth else cfg.frames;
      && LinesOk(rows, g, cfg.verifyPattern, depth)
      && 2 * occ.sum == 2 * (d * cfg.frames) - d * (d - 1) && occ.max == d
  {
    var depth := inflight;
    if depth > cfg.queueDepth {
      depth := cfg.queueDepth;
    }
    if depth < 1 {
      depth := 1;
    }
    var qbufRing := new nat[MAX_QUEUE_DEPTH](_ => 0);
    ghost var g := Setting(cfg.vcam, params.vcamDropEvery, cfg.queueDepth, k0.n, sched.lag, sched.back);
    var k;
    ghost var p;
    k, submitted, p := Begin(cfg, depth, outPlanes, capPlanes, params, sched, k0, qbufRing, g);
    rows, occ, submitted, completed := Drain(k, cfg, depth, submitted, sched, qbufRing, crc, g, p);
    TotalOccupancy(depth, cfg.frames);
  }

  /** The OUTPUT buffers in flight are distinct: no index is queued twice. */
  lemma InFlightDistinct(c: Ctx, g: Setting, p: Progress, clock: nat, i: nat, j: nat)
    requires PipeOk(c, g, p, clock) && i < j < |c.outQ.ready + c.outQ.done|
    ensures (c.outQ.ready + c.outQ.done)[i] != (c.outQ.ready + c.outQ.done)[j]
    ensures |c.outQ.ready + c.outQ.done| == p.submitted - p.outDq
  {
    var r := |c.outQ.ready|;
    if i < r <= j {
      assert c.outBufs[c.outQ.ready[i]].state == ACTIVE && c.outBufs[c.outQ.done[j - r]].state in {DONE, ERROR};
    }
  }
}
