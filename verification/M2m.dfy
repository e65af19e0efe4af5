/**
 * The mem2mem driver of kmod/vpipe-m2m.c as a state machine over its callbacks, for any
 * number of contexts. The V4L2 framework around it is assumed: ready queues and done lists
 * are first-in first-out, a job runs only when both ready queues hold a buffer, `buf_finish`
 * runs once for each buffer that leaves the driver (at STREAMOFF in index order), buffers
 * queued before STREAMON reach `buf_queue` just before `start_streaming`, and callbacks are
 * serialised.
 */
module M2m {
  import opened Base
  import Crc32
  import Cv
  import Gradient
  import Meta
  import P = Producers
  import Source

  type Plane = P.Plane

  // ---- formats ----

  /** `struct vpipe_q_data`; the pixel format is always GREY. */
  datatype Fmt = Fmt(width: nat, height: nat, stride: nat, sizeimage: nat)

  /** `vpipe_fill_pix_format` */
  function FillPix(width: u32, height: u32): Fmt {
    var w, h := Clamp(width, 1, Cv.MAX_DIM), Clamp(height, 1, Cv.MAX_DIM);
    Fmt(w, h, w, w * h)
  }

  const DEFAULT_FMT := Fmt(640, 480, 640, 307200)

  // ---- controls ----

  datatype Controls = Controls(srcSequence: u32, algo: u32, threshold: u32, roi: Cv.Roi)

  datatype ControlId = SrcSequence | Algo | RoiLeft | RoiTop | RoiWidth | RoiHeight | Threshold | OtherControl

  function ToU32(v: s32): u32 { v % TWO32 }

  /** `vpipe_s_ctrl`; an unknown id is refused. */
  function SetControl(c: Controls, id: ControlId, v: s32): Controls {
    match id
    case SrcSequence => c.(srcSequence := ToU32(v))
    case Algo => c.(algo := ToU32(v))
    case RoiLeft => c.(roi := c.roi.(left := v))
    case RoiTop => c.(roi := c.roi.(top := v))
    case RoiWidth => c.(roi := c.roi.(width := v))
    case RoiHeight => c.(roi := c.roi.(height := v))
    case Threshold => c.(threshold := ToU32(v))
    case OtherControl => c
  }

  const DEFAULT_CONTROLS := Controls(0, 0, 127, Cv.Roi(0, 0, 640, 480))

  // ---- buffers and contexts ----

  const BLANK := Meta.Entry(
    0, 0, Meta.Flags(false, false, false), 0, 0, 0, 0, 0, 0, 0, 0, Crc32.Zeros(32), 0, 0, 0, 0, 0, 0, 0, 0, 0, 0, 0, 0)

  /**
   * The framework's state of a buffer: VB2_BUF_STATE_DEQUEUED, _QUEUED, _ACTIVE, _DONE, _ERROR.
   * PREPARED is a dequeued buffer whose `prepared` flag is set: it passed `buf_prepare` in
   * VIDIOC_PREPARE_BUF and will not be tested again when it is queued.
   */
  datatype BufState = DEQUEUED | PREPARED | QUEUED | ACTIVE | DONE | ERROR

  /** Userspace has the buffer and may queue it. */
  predicate InUser(s: BufState) { s == DEQUEUED || s == PREPARED }

  /** How a queue's buffers got their memory: V4L2_MEMORY_MMAP, V4L2_MEMORY_DMABUF. */
  datatype Memory = MMAP | DMABUF

  function MemoryCode(m: Memory): nat { if m == MMAP then 1 else 4 }

  /**
   * How a buffer met its source in `buf_queue`: before `start_streaming` or after it, with or
   * without a kernel address, and whether the source could hold the frame.
   */
  datatype Call = Call(early: bool, mapped: bool, fits: bool)

  /**
   * An OUTPUT `struct vpipe_buffer`. `ticket` numbers the context's OUTPUT `buf_queue` calls,
   * `origin` names the source instance and the number of its call, `call` says how that call was
   * made; all three are history.
   */
  datatype OutBuf = OutBuf(
    state: BufState, memory: Memory, plane: Plane, snap: Controls, desc: Source.FrameDesc, qbufNs: nat,
    ticket: nat, origin: (nat, nat), call: Call)

  /** A CAPTURE `struct vpipe_buffer`; `pending.seqNo` is 0 when nothing is pending. */
  datatype CapBuf = CapBuf(state: BufState, plane: Plane, pending: Meta.Entry)

  /**
   * What a device run finds (history): the OUTPUT buffer it serves, the CAPTURE buffer's index and
   * plane, the formats in force, how many OUTPUT buffers are left, the time, the processor, and
   * whether both planes are mapped.
   */
  datatype Given = Given(
    src: OutBuf, index: nat, was: Plane, outFmt: Fmt, capFmt: Fmt, left: nat, now: nat, cpu: nat, mapped: bool)

  /** One device run (history): what it found, whether it succeeded, the bytes and the unnumbered entry it left. */
  datatype Job = Job(given: Given, ok: bool, bytes: Plane, entry: Meta.Entry)

  /** One queue of a context; `held` are buffers queued before STREAMON. */
  datatype Queue = Queue(held: seq<nat>, ready: seq<nat>, done: seq<nat>, on: bool)

  const IDLE := Queue([], [], [], false)

  /**
   * `struct vpipe_ctx` and its two vb2 queues. `tickets`, `jobs`, `numbers`, `published` and
   * `fifo` are history: OUTPUT buffers queued, jobs run, sequence numbers taken, sequence
   * numbers published, and whether every CAPTURE stream-off so far found its completed buffers
   * in index order.
   */
  datatype Ctx = Ctx(
    outFmt: Fmt, capFmt: Fmt, ctl: Controls, src: Source.Instance,
    outBufs: seq<OutBuf>, capBufs: seq<CapBuf>, outQ: Queue, capQ: Queue,
    tickets: nat, jobs: seq<Job>, numbers: seq<nat>, published: seq<nat>, fifo: bool)

  /** `vpipe_open` */
  const OPENED :=
    Ctx(DEFAULT_FMT, DEFAULT_FMT, DEFAULT_CONTROLS, Source.Instance(0, Source.BACKEND_FIXTURE, P.Fixture, 0, 0),
        [], [], IDLE, IDLE, 0, [], [], [], true)

  /** What a callback leaves: the context, the device sequence, entries published, memory fault. */
  datatype Result = Result(ctx: Ctx, sequence: nat, pubs: seq<Meta.Entry>, fault: bool)

  function Same(c: Ctx, n: nat): Result { Result(c, n, [], false) }

  // ---- callbacks ----

  /** `vpipe_s_fmt`: only the named queue is tested for being busy, both formats are set. */
  function SetFmt(c: Ctx, out: bool, w: u32, h: u32): Ctx {
    if (if out then c.outBufs != [] else c.capBufs != []) then c
    else c.(outFmt := FillPix(w, h), capFmt := FillPix(w, h))
  }

  function Shape(f: Fmt): Gradient.Shape { Gradient.Shape(f.width, f.height, f.stride) }

  /** Whether the producer's writes stay inside the plane. */
  predicate QueueSafe(c: Ctx, i: nat)
    requires i < |c.outBufs|
  {
    var g := Shape(c.outFmt);
    !P.Writes(c.src.producer) || P.NoGeometry(g) || (g.width <= g.stride && g.height * g.stride <= |c.outBufs[i].plane|)
  }

  /** `vpipe_buf_queue` on OUTPUT: snapshot the controls, stamp the frame, make it ready. */
  function BufQueueOut(c: Ctx, i: nat, mapped: bool, now: nat): Ctx
    requires i < |c.outBufs| && QueueSafe(c, i)
  {
    var s := Source.Next(c.src, Shape(c.outFmt), c.outBufs[i].plane, mapped, now);
    var b := OutBuf(ACTIVE, c.outBufs[i].memory, s.plane, c.ctl, s.desc, now, c.tickets,
                    (c.src.id, c.src.stamped), Call(!c.outQ.on, mapped, P.HoldsFrame(c.src.producer, Shape(c.outFmt))));
    c.(src := s.src, outBufs := c.outBufs[i := b], outQ := c.outQ.(ready := c.outQ.ready + [i]),
       tickets := c.tickets + 1)
  }

  /** `vpipe_buf_finish` on CAPTURE: publish what is pending, once. */
  function BufFinish(bufs: seq<CapBuf>, i: nat, now: nat): (r: (seq<CapBuf>, seq<Meta.Entry>))
    requires i < |bufs|
    ensures |r.0| == |bufs|
  {
    var e := bufs[i].pending;
    if e.seqNo == 0 then (bufs, [])
    else (bufs[i := bufs[i].(pending := e.(dqbufTs := now, seqNo := 0))], [e.(dqbufTs := now)])
  }

  /** The first `k` buffers leave the driver in index order, as the framework cancels a queue. */
  function FinishFirst(bufs: seq<CapBuf>, k: nat, now: nat): (r: (seq<CapBuf>, seq<Meta.Entry>))
    requires k <= |bufs|
    ensures |r.0| == |bufs|
  {
    if k == 0 then (bufs, []) else
      var (b1, p1) := FinishFirst(bufs, k - 1, now);
      var (b2, p2) := BufFinish(b1, k - 1, now);
      (b2, p1 + p2)
  }

  function JobGeometry(c: Ctx): Cv.Geometry
    requires 1 <= c.outFmt.width <= Cv.MAX_DIM && 1 <= c.outFmt.height <= Cv.MAX_DIM
  {
    Cv.Geometry(c.outFmt.width, c.outFmt.height, c.outFmt.stride, c.capFmt.stride)
  }

  /** Both ready queues hold a buffer and both queues stream. */
  predicate CanRun(c: Ctx) {
    && c.outQ.on && c.capQ.on && c.outQ.ready != [] && c.capQ.ready != []
    && c.outQ.ready[0] < |c.outBufs| && c.capQ.ready[0] < |c.capBufs|
  }

  /** Whether a job's accesses stay inside both planes. */
  predicate RunSafe(c: Ctx)
    requires CanRun(c)
  {
    var src, dst := c.outBufs[c.outQ.ready[0]].plane, c.capBufs[c.capQ.ready[0]].plane;
    && 1 <= c.outFmt.width <= Cv.MAX_DIM && 1 <= c.outFmt.height <= Cv.MAX_DIM
    && Cv.Fits(JobGeometry(c), |src|, |dst|) && c.capFmt.sizeimage <= |dst|
  }

  /** The job's image work on its two planes. */
  function JobOutput(c: Ctx): (r: Option<(Plane, Cv.CvResult)>)
    requires CanRun(c) && RunSafe(c)
    ensures r.Some? ==> |r.value.0| == |c.capBufs[c.capQ.ready[0]].plane|
  {
    var src := c.outBufs[c.outQ.ready[0]];
    Cv.Processed(src.plane, c.capBufs[c.capQ.ready[0]].plane, JobGeometry(c),
                 src.snap.algo, src.snap.threshold, Some(src.snap.roi))
  }

  /** The metadata entry of a successful job, still without its dequeue time. */
  function JobEntry(c: Ctx, sequence: nat, out: Plane, r: Cv.CvResult, now: nat, cpu: nat): Meta.Entry
    requires CanRun(c) && c.capFmt.sizeimage <= |out|
  {
    var src := c.outBufs[c.outQ.ready[0]];
    Meta.Entry(
      Meta.META_VERSION, Meta.ENTRY_SIZE, Meta.Flags(false, false, src.desc.dropped),
      sequence, src.snap.srcSequence, c.capQ.ready[0],
      src.desc.sourceTs, src.qbufNs, now, 0,
      c.capFmt.sizeimage, Crc32.BitwiseCrc(out[..c.capFmt.sizeimage]),
      src.snap.algo, r.status, r.roi.left, r.roi.top, r.roi.width, r.roi.height, r.value0, r.value1,
      src.desc.backend, MemoryCode(src.memory), |c.outQ.ready| - 1, cpu)
  }

  /** Both buffers move from ready to done, with the same state. */
  function Complete(c: Ctx, st: BufState): Ctx
    requires CanRun(c)
  {
    var i, d := c.outQ.ready[0], c.capQ.ready[0];
    c.(outBufs := c.outBufs[i := c.outBufs[i].(state := st)],
       outQ := c.outQ.(ready := c.outQ.ready[1..], done := c.outQ.done + [i]),
       capBufs := c.capBufs[d := c.capBufs[d].(state := st)],
       capQ := c.capQ.(ready := c.capQ.ready[1..], done := c.capQ.done + [d]))
  }

  function JobGiven(c: Ctx, mapped: bool, now: nat, cpu: nat): Given
    requires CanRun(c)
  {
    var d := c.capQ.ready[0];
    Given(c.outBufs[c.outQ.ready[0]], d, c.capBufs[d].plane, c.outFmt, c.capFmt, |c.outQ.ready| - 1, now, cpu, mapped)
  }

  function FailedJob(c: Ctx, mapped: bool, now: nat, cpu: nat): Ctx
    requires CanRun(c)
  {
    Complete(c, ERROR).(jobs := c.jobs + [Job(JobGiven(c, mapped, now, cpu), false, [], BLANK)])
  }

  /** `vpipe_device_run` */
  function DeviceRun(c: Ctx, n: nat, mapped: bool, now: nat, cpu: nat): Result
    requires CanRun(c)
  {
    var given, d := JobGiven(c, mapped, now, cpu), c.capQ.ready[0];
    if !mapped then Same(FailedJob(c, mapped, now, cpu), n)
    else if !RunSafe(c) then Result(c, n, [], true)
    else
      match JobOutput(c)
      case None => Same(FailedJob(c, mapped, now, cpu), n)
      case Some((out, r)) =>
        var e := JobEntry(c, n + 1, out, r, now, cpu);
        var c' := Complete(c, DONE);
        Same(c'.(capBufs := c'.capBufs[d := CapBuf(DONE, out, e)],
                 jobs := c.jobs + [Job(given, true, out, e.(seqNo := 0))],
                 numbers := c.numbers + [n + 1]),
             n + 1)
  }

  /**
   * A buffer as userspace hands it in, with whatever it wrote or attached. The memory of a
   * prepared buffer is already fixed, so only its contents can change.
   */
  function Handed(b: OutBuf, plane: Option<Plane>): OutBuf {
    if plane.Some? && (b.state != PREPARED || |plane.value| == |b.plane|) then b.(plane := plane.value) else b
  }

  function HandedCap(b: CapBuf, plane: Option<Plane>): CapBuf {
    if plane.Some? && (b.state != PREPARED || |plane.value| == |b.plane|) then b.(plane := plane.value) else b
  }

  /** `vpipe_buf_prepare` accepts a plane that holds the image; plane sizes are 32-bit. */
  predicate Prepared(f: Fmt, plane: Plane) { f.sizeimage <= |plane| < TWO32 }

  /** QBUF skips `vpipe_buf_prepare` for a buffer that is already prepared. */
  predicate Passes(f: Fmt, s: BufState, plane: Plane) { s == PREPARED || Prepared(f, plane) }

  function HoldOut(c: Ctx, i: nat, b: OutBuf): Ctx
    requires i < |c.outBufs|
  {
    c.(outBufs := c.outBufs[i := b.(state := QUEUED)], outQ := c.outQ.(held := c.outQ.held + [i]))
  }

  function PutOut(c: Ctx, i: nat, b: OutBuf): Ctx
    requires i < |c.outBufs|
  {
    c.(outBufs := c.outBufs[i := b])
  }

  /** QBUF of an OUTPUT buffer: `buf_prepare`, then `buf_queue` or hold it until STREAMON. */
  function QBufOut(c: Ctx, n: nat, i: nat, plane: Option<Plane>, mapped: bool, now: nat): Result {
    if i >= |c.outBufs| || !InUser(c.outBufs[i].state) then Same(c, n) else
      var b := Handed(c.outBufs[i], plane);
      var c1 := PutOut(c, i, b);
      if !Passes(c.outFmt, b.state, b.plane) then Same(c1, n)
      else if !c.outQ.on then Same(HoldOut(c, i, b), n)
      else if QueueSafe(c1, i) then Same(BufQueueOut(c1, i, mapped, now), n)
      else Result(c1, n, [], true)
  }

  /** A CAPTURE buffer changes, and the queue with it. */
  function PutCap(c: Ctx, i: nat, b: CapBuf, q: Queue): Ctx
    requires i < |c.capBufs|
  {
    c.(capBufs := c.capBufs[i := b], capQ := q)
  }

  /** QBUF of a CAPTURE buffer. */
  function QBufCap(c: Ctx, n: nat, i: nat, plane: Option<Plane>): Result {
    if i >= |c.capBufs| || !InUser(c.capBufs[i].state) then Same(c, n) else
      var b := HandedCap(c.capBufs[i], plane);
      if !Passes(c.capFmt, b.state, b.plane) then Same(PutCap(c, i, b, c.capQ), n)
      else if !c.capQ.on then Same(PutCap(c, i, b.(state := QUEUED), c.capQ.(held := c.capQ.held + [i])), n)
      else Same(PutCap(c, i, b.(state := ACTIVE), c.capQ.(ready := c.capQ.ready + [i])), n)
  }

  /** PREPARE_BUF: `vpipe_buf_prepare` now, so that QBUF will skip it. */
  function PrepareOut(c: Ctx, n: nat, i: nat, plane: Option<Plane>): Result {
    if i >= |c.outBufs| || c.outBufs[i].state != DEQUEUED then Same(c, n) else
      var b := Handed(c.outBufs[i], plane);
      Same(PutOut(c, i, if Prepared(c.outFmt, b.plane) then b.(state := PREPARED) else b), n)
  }

  function PrepareCap(c: Ctx, n: nat, i: nat, plane: Option<Plane>): Result {
    if i >= |c.capBufs| || c.capBufs[i].state != DEQUEUED then Same(c, n) else
      var b := HandedCap(c.capBufs[i], plane);
      Same(PutCap(c, i, if Prepared(c.capFmt, b.plane) then b.(state := PREPARED) else b, c.capQ), n)
  }

  /** The held OUTPUT buffers reach `buf_queue` in the order they were queued. */
  function QueueHeld(c: Ctx, list: seq<nat>, n: nat, mapped: bool, now: nat): Result
    decreases |list|
  {
    if list == [] then Same(c, n)
    else
      var r := QueueHeld(c, list[..|list| - 1], n, mapped, now);
      var i := list[|list| - 1];
      if r.fault || i >= |r.ctx.outBufs| then r
      else if QueueSafe(r.ctx, i) then Same(BufQueueOut(r.ctx, i, mapped, now), n)
      else r.(fault := true)
  }

  /** STREAMON of OUTPUT: queue what is held, then `start_streaming`. */
  function StreamOnOut(c: Ctx, n: nat, params: P.Params, mapped: bool, now: nat): Result {
    if c.outQ.on || c.outBufs == [] then Same(c, n) else
      var r := QueueHeld(c, c.outQ.held, n, mapped, now);
      var started := P.Started(r.ctx.src.producer, c.outFmt.sizeimage, params, now);
      r.(ctx := r.ctx.(src := r.ctx.src.(producer := started), outQ := r.ctx.outQ.(held := [], on := true)))
  }

  /** Every buffer the framework holds back becomes active. */
  function Activated(bufs: seq<CapBuf>): (r: seq<CapBuf>)
    ensures |r| == |bufs|
  {
    seq(|bufs|, k requires 0 <= k < |bufs| => if bufs[k].state == QUEUED then bufs[k].(state := ACTIVE) else bufs[k])
  }

  function StreamOnCap(c: Ctx, n: nat): Result {
    if c.capQ.on || c.capBufs == [] then Same(c, n)
    else Same(c.(capBufs := Activated(c.capBufs), capQ := Queue([], c.capQ.ready + c.capQ.held, c.capQ.done, true)), n)
  }

  function ReleasedOut(bufs: seq<OutBuf>): (r: seq<OutBuf>)
    ensures |r| == |bufs|
  {
    seq(|bufs|, k requires 0 <= k < |bufs| => bufs[k].(state := DEQUEUED))
  }

  /** STREAMOFF of OUTPUT: stop the source and hand every buffer back; OUTPUT has nothing to publish. */
  function StreamOffOut(c: Ctx, n: nat): Result {
    Same(c.(outBufs := ReleasedOut(c.outBufs), outQ := IDLE,
            src := if c.outQ.on then c.src.(producer := P.Stopped(c.src.producer)) else c.src), n)
  }

  function Released(bufs: seq<CapBuf>): (r: seq<CapBuf>)
    ensures |r| == |bufs|
  {
    seq(|bufs|, k requires 0 <= k < |bufs| => bufs[k].(state := DEQUEUED))
  }

  /** The sequence numbers owed by a list of finished CAPTURE buffers, in list order. */
  function Owed(bufs: seq<CapBuf>, done: seq<nat>): seq<nat> {
    if done == [] then []
    else
      var i := done[0];
      (if i < |bufs| && bufs[i].state == DONE then [bufs[i].pending.seqNo] else []) + Owed(bufs, done[1..])
  }

  /** Completed buffers stand on the done list in increasing index order. */
  predicate DoneByIndex(bufs: seq<CapBuf>, done: seq<nat>) {
    forall i, j | 0 <= i < j < |done| && done[i] < |bufs| && done[j] < |bufs| ::
      bufs[done[i]].state == DONE && bufs[done[j]].state == DONE ==> done[i] < done[j]
  }

  /** STREAMOFF of CAPTURE: ready buffers are handed back, then all leave in index order. */
  function StreamOffCap(c: Ctx, n: nat, now: nat): Result {
    var (bufs, pubs) := FinishFirst(c.capBufs, |c.capBufs|, now);
    Result(c.(capQ := IDLE, capBufs := Released(bufs), published := c.published + Seqs(pubs),
              fifo := c.fifo && DoneByIndex(c.capBufs, c.capQ.done)),
           n, pubs, false)
  }

  function Seqs(es: seq<Meta.Entry>): (r: seq<nat>)
    ensures |r| == |es|
  {
    seq(|es|, k requires 0 <= k < |es| => es[k].seqNo)
  }

  function DqBufOut(c: Ctx, n: nat): Result {
    if c.outQ.done == [] || c.outQ.done[0] >= |c.outBufs| then Same(c, n) else
      var i := c.outQ.done[0];
      Same(c.(outBufs := c.outBufs[i := c.outBufs[i].(state := DEQUEUED)],
              outQ := c.outQ.(done := c.outQ.done[1..])), n)
  }

  /** DQBUF of CAPTURE: the oldest done buffer passes `buf_finish`. */
  function DqBufCap(c: Ctx, n: nat, now: nat): Result {
    if c.capQ.done == [] || c.capQ.done[0] >= |c.capBufs| then Same(c, n) else
      var i := c.capQ.done[0];
      var (bufs, pubs) := BufFinish(c.capBufs, i, now);
      Result(c.(capQ := c.capQ.(done := c.capQ.done[1..]), capBufs := bufs[i := bufs[i].(state := DEQUEUED)],
                published := c.published + Seqs(pubs)),
             n, pubs, false)
  }

  /** `vpipe_queue_setup` raises a request to two buffers; a request for none only frees. */
  function AtLeastTwo(planes: seq<Plane>): seq<Plane> { if |planes| == 1 then planes + planes else planes }

  function FreshOut(memory: Memory, planes: seq<Plane>): (r: seq<OutBuf>)
    ensures |r| == |planes|
  {
    seq(|planes|, k requires 0 <= k < |planes| =>
      OutBuf(DEQUEUED, memory, planes[k], DEFAULT_CONTROLS, Source.EmptyDesc(Gradient.Shape(0, 0, 0)), 0, 0, (0, 0),
             Call(false, false, false)))
  }

  function FreshCap(planes: seq<Plane>): (r: seq<CapBuf>)
    ensures |r| == |planes|
  {
    seq(|planes|, k requires 0 <= k < |planes| => CapBuf(DEQUEUED, planes[k], BLANK))
  }

  /** REQBUFS: a queue that is not streaming gets fresh buffers. */
  function ReqBufsOut(c: Ctx, n: nat, memory: Memory, planes: seq<Plane>): Result {
    if c.outQ.on then Same(c, n)
    else Same(c.(outBufs := FreshOut(memory, AtLeastTwo(planes)), outQ := IDLE), n)
  }

  function ReqBufsCap(c: Ctx, n: nat, planes: seq<Plane>): Result {
    if c.capQ.on then Same(c, n)
    else Same(c.(capBufs := FreshCap(AtLeastTwo(planes)), capQ := IDLE), n)
  }

  /** `vpipe_queue_setup` for CREATE_BUFS refuses planes that do not hold the image. */
  predicate AllHold(f: Fmt, planes: seq<Plane>) { forall k :: 0 <= k < |planes| ==> f.sizeimage <= |planes[k]| }

  /** CREATE_BUFS: further buffers, also while streaming; one queue keeps one kind of memory. */
  function CreateOut(c: Ctx, n: nat, memory: Memory, planes: seq<Plane>): Result {
    if !AllHold(c.outFmt, planes) || (c.outBufs != [] && c.outBufs[0].memory != memory) then Same(c, n)
    else Same(c.(outBufs := c.outBufs + FreshOut(memory, AtLeastTwo(planes))), n)
  }

  function CreateCap(c: Ctx, n: nat, planes: seq<Plane>): Result {
    if !AllHold(c.capFmt, planes) then Same(c, n)
    else Same(c.(capBufs := c.capBufs + FreshCap(AtLeastTwo(planes))), n)
  }

  /** VPIPE_IOC_SET_BACKEND: refused while streaming, otherwise a new instance replaces the old. */
  function SetBackend(c: Ctx, n: nat, backend: nat): Result {
    if c.outQ.on || c.capQ.on then Same(c, n) else
      match Source.Create(c.src.id + 1, backend)
      case None => Same(c, n)
      case Some(src) => Same(c.(src := src), n)
  }

  datatype Action =
    | ActSetFmt(out: bool, width: u32, height: u32)
    | ActSetCtl(id: ControlId, value: s32)
    | ActReqBufs(out: bool, memory: Memory, planes: seq<Plane>)
    | ActCreateBufs(out: bool, memory: Memory, planes: seq<Plane>)
    | ActPrepare(out: bool, index: nat, plane: Option<Plane>)
    | ActQBufOut(index: nat, plane: Option<Plane>, mapped: bool)
    | ActQBufCap(index: nat, plane: Option<Plane>)
    | ActStreamOnOut(params: P.Params, mapped: bool)
    | ActStreamOnCap
    | ActStreamOffOut
    | ActStreamOffCap
    | ActRun(mapped: bool, cpu: nat)
    | ActDqBufOut
    | ActDqBufCap
    | ActSetBackend(backend: nat)

  function CtxStep(c: Ctx, n: nat, now: nat, a: Action): Result {
    match a
    case ActSetFmt(out, w, h) => Same(SetFmt(c, out, w, h), n)
    case ActSetCtl(id, v) => Same(c.(ctl := SetControl(c.ctl, id, v)), n)
    case ActReqBufs(out, memory, planes) => if out then ReqBufsOut(c, n, memory, planes) else ReqBufsCap(c, n, planes)
    case ActCreateBufs(out, memory, planes) => if out then CreateOut(c, n, memory, planes) else CreateCap(c, n, planes)
    case ActPrepare(out, i, plane) => if out then PrepareOut(c, n, i, plane) else PrepareCap(c, n, i, plane)
    case ActQBufOut(i, plane, mapped) => QBufOut(c, n, i, plane, mapped, now)
    case ActQBufCap(i, plane) => QBufCap(c, n, i, plane)
    case ActStreamOnOut(params, mapped) => StreamOnOut(c, n, params, mapped, now)
    case ActStreamOnCap => StreamOnCap(c, n)
    case ActStreamOffOut => StreamOffOut(c, n)
    case ActStreamOffCap => StreamOffCap(c, n, now)
    case ActRun(mapped, cpu) => if CanRun(c) then DeviceRun(c, n, mapped, now, cpu) else Same(c, n)
    case ActDqBufOut => DqBufOut(c, n)
    case ActDqBufCap => DqBufCap(c, n, now)
    case ActSetBackend(backend) => SetBackend(c, n, backend)
  }

  // ---- the device ----

  /**
   * `struct vpipe_dev` with its open contexts. `log` is everything published, with the context
   * it came from; `owner[k]` is the context that took sequence number k + 1 (history).
   */
  datatype Dev = Dev(
    sequence: nat, ctxs: map<nat, Ctx>, log: seq<(nat, Meta.Entry)>, owner: seq<nat>, clock: nat, faulted: bool)

  /** `act` on context `ctx` at time `now`. */
  datatype Event = Event(ctx: nat, now: nat, act: Action)

  function Tagged(f: nat, es: seq<Meta.Entry>): (r: seq<(nat, Meta.Entry)>)
    ensures |r| == |es|
  {
    seq(|es|, k requires 0 <= k < |es| => (f, es[k]))
  }

  /** The device after a callback of context `e.ctx` left `r`. */
  function Applied(d: Dev, e: Event, r: Result): Dev {
    Dev(r.sequence, d.ctxs[e.ctx := r.ctx], d.log + Tagged(e.ctx, r.pubs),
        d.owner + (if r.sequence > d.sequence then [e.ctx] else []), e.now, r.fault)
  }

  function Step(d: Dev, e: Event): Dev {
    if e.ctx !in d.ctxs || d.faulted then d.(clock := e.now)
    else Applied(d, e, CtxStep(d.ctxs[e.ctx], d.sequence, e.now, e.act))
  }

  function Run(d: Dev, es: seq<Event>): Dev {
    if es == [] then d else Step(Run(d, es[..|es| - 1]), es[|es| - 1])
  }

  /** A freshly loaded module with any set of freshly opened contexts. */
  ghost predicate Initial(d: Dev) {
    && d.sequence == 0 && d.log == [] && d.owner == [] && d.clock == 0 && !d.faulted
    && forall f :: f in d.ctxs ==> d.ctxs[f] == OPENED
  }
}
