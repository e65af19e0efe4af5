/**
 * The driver as objects: kmod/vpipe-m2m.c and kmod/vpipe-source.c with the fields they change
 * step by step, producers, image work and checksum done by their own loops on arrays, and the
 * queue handling of the framework around them. A whole run of calls on these objects is proved
 * to be the run of the state machine of module M2m.
 */
module Driver {
  import opened Base
  import opened M2m
  import Crc32
  import Cv
  import ExactlyOnce
  import Geometry
  import Gradient
  import Meta
  import P = Producers
  import Provenance
  import Source
  import Vcam

  // ---- the source ----

  /** `struct vpipe_source` with the private data of its backend. */
  class SourceObject {
    const backend: nat
    const vcam: Vcam.VcamSource
    const synthetic: Vcam.SyntheticSource
    var seqNo: u32
    ghost const id: nat
    ghost var stamped: nat

    ghost function Repr(): set<object>
      reads this, vcam
    {
      {this, vcam, synthetic} + if vcam.fb == null then {} else {vcam.fb, vcam.fb.mem}
    }

    ghost predicate Valid()
      reads Repr()
    {
      Source.BACKEND_NONE < backend <= Source.BACKEND_VCAM && (vcam.fb != null ==> vcam.fb.refs > 0)
    }

    ghost function Producer(): P.Producer
      reads Repr()
    {
      if backend == Source.BACKEND_FIXTURE then P.Fixture
      else if backend == Source.BACKEND_SYNTHETIC then P.Synthetic(synthetic.counters)
      else P.Vcam(if vcam.fb == null then None else Some(vcam.Value()))
    }

    ghost function Value(): Source.Instance
      reads Repr()
    {
      Source.Instance(id, backend, Producer(), seqNo, stamped)
    }

    /** `vpipe_source_create` for a registered backend. */
    constructor (backend: nat, ghost id: nat)
      requires Source.BACKEND_NONE < backend <= Source.BACKEND_VCAM
      ensures Valid() && fresh(Repr()) && Source.Create(id, backend) == Some(Value())
    {
      this.backend, seqNo := backend, 0;
      this.id, stamped := id, 0;
      vcam := new Vcam.VcamSource();
      synthetic := new Vcam.SyntheticSource();
    }

    /** `vpipe_source_start` */
    method Start(sizeimage: nat, params: P.Params, now: nat)
      requires Valid() && sizeimage > 0
      modifies Repr()
      ensures Valid() && fresh(Repr() - old(Repr()))
      ensures Value() == old(Value()).(producer := P.Started(old(Producer()), sizeimage, params, now))
    {
      if backend == Source.BACKEND_SYNTHETIC {
        synthetic.Start(params, now);
      } else if backend == Source.BACKEND_VCAM {
        var _ := vcam.Start(sizeimage, params, now);
      }
    }

    /** `vpipe_source_stop` */
    method Stop()
      requires Valid()
      modifies Repr()
      ensures Valid() && Repr() <= old(Repr())
      ensures Value() == old(Value()).(producer := P.Stopped(old(Producer())))
    {
      if backend == Source.BACKEND_SYNTHETIC {
        synthetic.Stop();
      } else if backend == Source.BACKEND_VCAM {
        vcam.Stop();
      }
    }

    /** The backend's own call. */
    method Backend(dst: array<u8>, shape: Gradient.Shape, mapped: bool) returns (err: Option<Errno>, r: Vcam.Stamp)
      requires Valid() && dst !in Repr()
      requires P.Writes(Producer()) && !P.NoGeometry(shape) ==> P.CallFits(shape, dst[..])
      modifies Repr(), dst
      ensures Valid() && Repr() == old(Repr()) && seqNo == old(seqNo) && stamped == old(stamped)
      ensures P.NextFrame(old(Producer()), shape, old(dst[..]), mapped)
           == (Producer(), if err.Some? then P.Refused(err.value)
                           else P.Made(P.Frame(dst[..], r.ts, r.byteused, r.dropped)))
      ensures err.Some? ==> dst[..] == old(dst[..])
    {
      err, r := None, Vcam.Stamp(0, 0, false);
      if backend == Source.BACKEND_SYNTHETIC {
        err, r := synthetic.NextFrame(dst, shape, mapped);
      } else if backend == Source.BACKEND_VCAM {
        err, r := vcam.NextFrame(dst, shape, mapped);
      }
    }

    /** `vpipe_source_next_frame`: reset the descriptor, keep its geometry, let the backend fill it. */
    method NextFrame(dst: array<u8>, shape: Gradient.Shape, mapped: bool, now: nat)
      returns (desc: Source.FrameDesc, err: Option<Errno>)
      requires Valid() && dst !in Repr()
      requires P.Writes(Producer()) && !P.NoGeometry(shape) ==> P.CallFits(shape, dst[..])
      modifies Repr(), dst
      ensures Valid() && Repr() == old(Repr())
      ensures Source.Stamped(Value(), desc, dst[..]) == Source.Next(old(Value()), shape, old(dst[..]), mapped, now)
      ensures var o := P.NextFrame(old(Producer()), shape, old(dst[..]), mapped).1;
        err == if o.Refused? then Some(o.err) else None
    {
      desc := Source.FrameDesc(0, 0, 0, 0, false, shape);
      var r;
      err, r := Backend(dst, shape, mapped);
      if err.Some? { return; }
      desc := desc.(sourceTs := r.ts, byteused := r.byteused, dropped := r.dropped);
      if desc.sourceTs == 0 {
        desc := desc.(sourceTs := now);
      }
      desc := desc.(backend := backend, sequence := seqNo);
      seqNo := P.Inc32(seqNo);
      stamped := stamped + 1;
    }
  }

  // ---- buffers ----

  /** An OUTPUT `struct vpipe_buffer`. */
  datatype OutSlot =
    OutSlot(state: BufState, memory: Memory, plane: Plane, snap: Controls, desc: Source.FrameDesc, qbufNs: nat)

  /** A buffer's history: the ticket of its last `buf_queue`, the source call that stamped it and how it was made. */
  type Mark = (nat, (nat, nat), Call)

  ghost function OutAt(s: OutSlot, m: Mark): OutBuf {
    OutBuf(s.state, s.memory, s.plane, s.snap, s.desc, s.qbufNs, m.0, m.1, m.2)
  }

  ghost function OutValues(slots: seq<OutSlot>, marks: seq<Mark>): (r: seq<OutBuf>)
    requires |slots| == |marks|
    ensures |r| == |slots| && forall i :: 0 <= i < |r| ==> r[i] == OutAt(slots[i], marks[i])
  {
    seq(|slots|, i requires 0 <= i < |slots| => OutAt(slots[i], marks[i]))
  }

  lemma PutSlot(slots: seq<OutSlot>, marks: seq<Mark>, i: nat, s: OutSlot, m: Mark)
    requires |slots| == |marks| && i < |slots|
    ensures OutValues(slots[i := s], marks[i := m]) == OutValues(slots, marks)[i := OutAt(s, m)]
  {
  }

  lemma PutSameMark(slots: seq<OutSlot>, marks: seq<Mark>, i: nat, s: OutSlot)
    requires |slots| == |marks| && i < |slots|
    ensures OutValues(slots[i := s], marks) == OutValues(slots, marks)[i := OutAt(s, marks[i])]
  {
    assert marks[i := marks[i]] == marks;
    PutSlot(slots, marks, i, s, marks[i]);
  }

  /** The metadata device after publishing some entries. */
  ghost function PublishAll(g: Meta.Device, es: seq<Meta.Entry>): (r: Meta.Device)
    requires |g.ring| == Meta.RING_SIZE
    ensures |r.ring| == Meta.RING_SIZE
  {
    if es == [] then g else Meta.AfterPublish(PublishAll(g, es[..|es| - 1]), es[|es| - 1])
  }

  lemma PublishOne(g: Meta.Device, e: Meta.Entry)
    requires |g.ring| == Meta.RING_SIZE
    ensures PublishAll(g, [e]) == Meta.AfterPublish(g, e)
  {
    assert [e][..0] == [];
  }

  lemma {:induction false} PublishConcat(g: Meta.Device, a: seq<Meta.Entry>, b: seq<Meta.Entry>)
    requires |g.ring| == Meta.RING_SIZE
    ensures PublishAll(g, a + b) == PublishAll(PublishAll(g, a), b)
  {
    if b == [] {
      assert a + b == a;
    } else {
      assert (a + b)[..|a + b| - 1] == a + b[..|b| - 1];
      PublishConcat(g, a, b[..|b| - 1]);
    }
  }

  function FreshSlots(memory: Memory, planes: seq<Plane>): (r: seq<OutSlot>)
    ensures |r| == |planes|
  {
    seq(|planes|, k requires 0 <= k < |planes| =>
      OutSlot(DEQUEUED, memory, planes[k], DEFAULT_CONTROLS, Source.EmptyDesc(Gradient.Shape(0, 0, 0)), 0))
  }

  ghost function NoMarks(m: nat): (r: seq<Mark>)
    ensures |r| == m
  {
    seq(m, _ => (0, (0, 0), Call(false, false, false)))
  }

  lemma FreshValues(memory: Memory, planes: seq<Plane>)
    ensures OutValues(FreshSlots(memory, planes), NoMarks(|planes|)) == FreshOut(memory, planes)
  {
  }

  lemma AppendValues(slots: seq<OutSlot>, marks: seq<Mark>, more: seq<OutSlot>, moreMarks: seq<Mark>)
    requires |slots| == |marks| && |more| == |moreMarks|
    ensures OutValues(slots + more, marks + moreMarks) == OutValues(slots, marks) + OutValues(more, moreMarks)
  {
  }

  /** A plane as the memory a producer or a job works on. */
  method Mapped(p: Plane) returns (a: array<u8>)
    ensures fresh(a) && a[..] == p
  {
    a := new u8[|p|](i requires 0 <= i < |p| => p[i]);
  }

  /** Buffers that may differ in state only. */
  ghost predicate SamePending(a: seq<CapBuf>, b: seq<CapBuf>) {
    |a| == |b| && forall i :: 0 <= i < |a| ==> a[i].pending == b[i].pending && a[i].plane == b[i].plane
  }

  /** The listed buffers returned as errors. */
  function ErrorSlots(slots: seq<OutSlot>, list: seq<nat>): (r: seq<OutSlot>)
    ensures |r| == |slots|
  {
    seq(|slots|, i requires 0 <= i < |slots| => if i in list then slots[i].(state := ERROR) else slots[i])
  }

  function ErrorBufs(bufs: seq<CapBuf>, list: seq<nat>): (r: seq<CapBuf>)
    ensures |r| == |bufs|
  {
    seq(|bufs|, i requires 0 <= i < |bufs| => if i in list then bufs[i].(state := ERROR) else bufs[i])
  }

  function ReleasedSlots(slots: seq<OutSlot>): (r: seq<OutSlot>)
    ensures |r| == |slots|
  {
    seq(|slots|, i requires 0 <= i < |slots| => slots[i].(state := DEQUEUED))
  }

  lemma EmptiedValues(slots: seq<OutSlot>, marks: seq<Mark>, list: seq<nat>)
    requires |slots| == |marks|
    ensures OutValues(ReleasedSlots(ErrorSlots(slots, list)), marks) == ReleasedOut(OutValues(slots, marks))
  {
  }

  lemma ErrorsPending(bufs: seq<CapBuf>, list: seq<nat>)
    ensures SamePending(bufs, ErrorBufs(bufs, list))
  {
  }

  lemma NextErrorSlot(slots: seq<OutSlot>, list: seq<nat>, m: nat)
    requires m < |list| && list[m] < |slots|
    ensures var e := ErrorSlots(slots, list[..m]);
      ErrorSlots(slots, list[..m + 1]) == e[list[m] := e[list[m]].(state := ERROR)]
  {
    assert list[..m + 1] == list[..m] + [list[m]];
  }

  lemma NextErrorBuf(bufs: seq<CapBuf>, list: seq<nat>, m: nat)
    requires m < |list| && list[m] < |bufs|
    ensures var e := ErrorBufs(bufs, list[..m]);
      ErrorBufs(bufs, list[..m + 1]) == e[list[m] := e[list[m]].(state := ERROR)]
  {
    assert list[..m + 1] == list[..m] + [list[m]];
  }

  lemma NextDrained(q: Queue, m: nat)
    requires m < |q.ready|
    ensures q.ready[m..] != [] && q.ready[m..][0] == q.ready[m] && q.ready[m..][1..] == q.ready[m + 1..]
    ensures q.done + q.ready[..m] + [q.ready[m]] == q.done + q.ready[..m + 1]
  {
  }

  lemma FinishOneMore(was: seq<CapBuf>, cur: seq<CapBuf>, k: nat, now: nat)
    requires k < |was| && SamePending(FinishFirst(was, k, now).0, cur)
    ensures var f, next := BufFinish(cur, k, now), FinishFirst(was, k + 1, now);
      SamePending(next.0, f.0) && next.1 == FinishFirst(was, k, now).1 + f.1
  {
  }

  lemma SameReleased(a: seq<CapBuf>, b: seq<CapBuf>)
    requires SamePending(a, b)
    ensures Released(a) == Released(b)
  {
  }

  lemma {:induction false} HeldPrefix(c: Ctx, held: seq<nat>, k: nat, n: nat, mapped: bool, now: nat)
    requires k <= |held| && !QueueHeld(c, held, n, mapped, now).fault
    ensures !QueueHeld(c, held[..k], n, mapped, now).fault
    decreases |held|
  {
    if k == |held| {
      assert held[..k] == held;
    } else {
      var front := held[..|held| - 1];
      HeldPrefix(c, front, k, n, mapped, now);
      assert front[..k] == held[..k];
    }
  }

  /** One held buffer after the other reaches `buf_queue`. */
  lemma HeldStep(c: Ctx, held: seq<nat>, k: nat, n: nat, mapped: bool, now: nat)
    requires k < |held| && !QueueHeld(c, held, n, mapped, now).fault
    requires forall j :: 0 <= j < |held| ==> held[j] < |c.outBufs|
    ensures var r := QueueHeld(c, held[..k], n, mapped, now);
      && held[k] < |r.ctx.outBufs| && QueueSafe(r.ctx, held[k])
      && QueueHeld(c, held[..k + 1], n, mapped, now).ctx == BufQueueOut(r.ctx, held[k], mapped, now)
  {
    HeldPrefix(c, held, k, n, mapped, now);
    HeldPrefix(c, held, k + 1, n, mapped, now);
    Geometry.HeldPlaced(c, held[..k], n, mapped, now);
    assert held[..k + 1][..k] == held[..k] && held[..k + 1][k] == held[k];
  }

  /** A context whose first job has succeeded. */
  ghost function AfterSuccess(c: Ctx, out: Plane, meta: Meta.Entry, given: Given): Ctx
    requires CanRun(c)
  {
    var c' := Complete(c, DONE);
    c'.(capBufs := c'.capBufs[c.capQ.ready[0] := CapBuf(DONE, out, meta)],
        jobs := c.jobs + [Job(given, true, out, meta.(seqNo := 0))],
        numbers := c.numbers + [meta.seqNo])
  }

  lemma RunFails(c: Ctx, n: nat, mapped: bool, now: nat, cpu: nat)
    requires CanRun(c) && (!mapped || (RunSafe(c) && JobOutput(c).None?))
    ensures DeviceRun(c, n, mapped, now, cpu) == Same(FailedJob(c, mapped, now, cpu), n)
  {
  }

  lemma RunSucceeds(c: Ctx, n: nat, now: nat, cpu: nat, out: Plane, r: Cv.CvResult)
    requires CanRun(c) && RunSafe(c) && JobOutput(c) == Some((out, r))
    ensures DeviceRun(c, n, true, now, cpu)
         == Same(AfterSuccess(c, out, JobEntry(c, n + 1, out, r, now, cpu), JobGiven(c, true, now, cpu)), n + 1)
  {
  }

  // ---- a context ----

  /** `struct vpipe_ctx` with its two queues and their buffers. */
  class Context {
    var outFmt: Fmt
    var capFmt: Fmt
    var ctl: Controls
    var src: SourceObject
    var outBufs: seq<OutSlot>
    var capBufs: seq<CapBuf>
    var outQ: Queue
    var capQ: Queue
    ghost var marks: seq<Mark>
    ghost var tickets: nat
    ghost var jobs: seq<Job>
    ghost var numbers: seq<nat>
    ghost var published: seq<nat>
    ghost var fifo: bool

    ghost function Repr(): set<object>
      reads this, src, src.vcam
    {
      {this} + src.Repr()
    }

    ghost predicate Valid()
      reads Repr()
    {
      src.Valid() && this !in src.Repr() && |outBufs| == |marks| && outFmt.sizeimage > 0
    }

    ghost function Value(): Ctx
      requires Valid()
      reads Repr()
    {
      Ctx(outFmt, capFmt, ctl, src.Value(), OutValues(outBufs, marks), capBufs,
          outQ, capQ, tickets, jobs, numbers, published, fifo)
    }

    /** `vpipe_open` */
    constructor ()
      ensures Valid() && fresh(Repr()) && Value() == OPENED
    {
      ctl := Controls(0, 0, 127, Cv.Roi(0, 0, 640, 480));
      outFmt := Fmt(640, 480, 640, 640 * 480);
      capFmt := Fmt(640, 480, 640, 640 * 480);
      src := new SourceObject(Source.BACKEND_FIXTURE, 0);
      outBufs, capBufs, outQ, capQ := [], [], IDLE, IDLE;
      marks, tickets, jobs, numbers, published, fifo := [], 0, [], [], [], true;
    }

    /** `vpipe_s_fmt` */
    method SetFormat(out: bool, width: u32, height: u32) returns (err: Option<Errno>)
      requires Valid()
      modifies this
      ensures Valid() && Repr() == old(Repr()) && Value() == SetFmt(old(Value()), out, width, height)
      ensures err == if (if out then outBufs != [] else capBufs != []) then Some(EBUSY) else None
    {
      if out && outBufs != [] { return Some(EBUSY); }
      if !out && capBufs != [] { return Some(EBUSY); }
      Geometry.FillPixOk(width, height);
      var f := FillPix(width, height);
      if out {
        outFmt := f;
        capFmt := outFmt;
      } else {
        capFmt := f;
        outFmt := capFmt;
      }
      return None;
    }

    /** `vpipe_s_ctrl` */
    method SetCtrl(id: ControlId, v: s32) returns (err: Option<Errno>)
      requires Valid()
      modifies this
      ensures Valid() && Repr() == old(Repr()) && Value() == old(Value()).(ctl := SetControl(old(ctl), id, v))
      ensures err == if id == OtherControl then Some(EINVAL) else None
    {
      err := if id == OtherControl then Some(EINVAL) else None;
      var c := ctl;
      match id {
        case SrcSequence => c := c.(srcSequence := ToU32(v));
        case Algo => c := c.(algo := ToU32(v));
        case RoiLeft => c := c.(roi := c.roi.(left := v));
        case RoiTop => c := c.(roi := c.roi.(top := v));
        case RoiWidth => c := c.(roi := c.roi.(width := v));
        case RoiHeight => c := c.(roi := c.roi.(height := v));
        case Threshold => c := c.(threshold := ToU32(v));
        case OtherControl =>
      }
      ctl := c;
    }

    /** `vpipe_source_next_frame` on the plane of OUTPUT buffer `i`. */
    method Stamp(i: nat, shape: Gradient.Shape, mapped: bool, now: nat) returns (desc: Source.FrameDesc, plane: Plane)
      requires Valid() && i < |outBufs|
      requires P.Writes(src.Producer()) && !P.NoGeometry(shape) ==> P.CallFits(shape, outBufs[i].plane)
      modifies src.Repr()
      ensures Valid() && Repr() == old(Repr())
      ensures Source.Stamped(src.Value(), desc, plane)
           == Source.Next(old(src.Value()), shape, outBufs[i].plane, mapped, now)
    {
      var a := Mapped(outBufs[i].plane);
      var err;
      desc, err := src.NextFrame(a, shape, mapped, now);
      plane := a[..];
    }

    /** `vpipe_buf_queue` on OUTPUT */
    method BufQueueOutput(i: nat, mapped: bool, now: nat)
      requires Valid() && i < |outBufs| && QueueSafe(Value(), i)
      modifies Repr()
      ensures Valid() && Repr() == old(Repr()) && Value() == BufQueueOut(old(Value()), i, mapped, now)
    {
      var slot := outBufs[i];
      slot := slot.(snap := ctl);
      slot := slot.(desc := slot.desc.(shape := Gradient.Shape(outFmt.width, outFmt.height, outFmt.stride)));
      slot := slot.(qbufNs := now);
      ghost var call := Call(!outQ.on, mapped, P.HoldsFrame(src.Producer(), slot.desc.shape));
      ghost var mark := (tickets, (src.id, src.stamped), call);
      var desc, plane := Stamp(i, slot.desc.shape, mapped, now);
      slot := slot.(desc := desc, plane := plane, state := ACTIVE);
      Enqueue(i, slot, mark);
    }

    /** `v4l2_m2m_buf_queue` */
    method Enqueue(i: nat, slot: OutSlot, ghost mark: Mark)
      requires Valid() && i < |outBufs|
      modifies this
      ensures Valid() && Repr() == old(Repr())
      ensures Value() == old(Value()).(outBufs := old(Value()).outBufs[i := OutAt(slot, mark)],
                                       outQ := old(outQ).(ready := old(outQ.ready) + [i]), tickets := old(tickets) + 1)
    {
      PutSlot(outBufs, marks, i, slot, mark);
      outBufs := outBufs[i := slot];
      outQ := outQ.(ready := outQ.ready + [i]);
      marks := marks[i := mark];
      tickets := tickets + 1;
    }

    /** REQBUFS of OUTPUT, with `vpipe_queue_setup` */
    method RequestOutput(memory: Memory, planes: seq<Plane>, ghost n: nat) returns (err: Option<Errno>)
      requires Valid()
      modifies this
      ensures Valid() && Repr() == old(Repr()) && Value() == ReqBufsOut(old(Value()), n, memory, planes).ctx
      ensures err == if old(outQ.on) then Some(EBUSY) else None
    {
      if outQ.on { return Some(EBUSY); }
      var two := AtLeastTwo(planes);
      outBufs, marks, outQ := FreshSlots(memory, two), NoMarks(|two|), IDLE;
      FreshValues(memory, two);
      return None;
    }

    /** CREATE_BUFS of OUTPUT, with `vpipe_queue_setup` */
    method CreateOutput(memory: Memory, planes: seq<Plane>, ghost n: nat)
      requires Valid()
      modifies this
      ensures Valid() && Repr() == old(Repr()) && Value() == CreateOut(old(Value()), n, memory, planes).ctx
    {
      if !AllHold(outFmt, planes) || (outBufs != [] && outBufs[0].memory != memory) { return; }
      var two := AtLeastTwo(planes);
      FreshValues(memory, two);
      AppendValues(outBufs, marks, FreshSlots(memory, two), NoMarks(|two|));
      outBufs, marks := outBufs + FreshSlots(memory, two), marks + NoMarks(|two|);
    }

    method CreateCapture(planes: seq<Plane>, ghost n: nat)
      requires Valid()
      modifies this
      ensures Valid() && Repr() == old(Repr()) && Value() == CreateCap(old(Value()), n, planes).ctx
    {
      if !AllHold(capFmt, planes) { return; }
      capBufs := capBufs + FreshCap(AtLeastTwo(planes));
    }

    /** PREPARE_BUF of OUTPUT: `vpipe_buf_prepare` only. */
    method PrepareOutput(i: nat, plane: Option<Plane>, ghost n: nat)
      requires Valid()
      modifies this
      ensures Valid() && Repr() == old(Repr()) && Value() == PrepareOut(old(Value()), n, i, plane).ctx
    {
      if i >= |outBufs| || outBufs[i].state != DEQUEUED { return; }
      var slot := outBufs[i];
      if plane.Some? {
        slot := slot.(plane := plane.value);
      }
      if outFmt.sizeimage <= |slot.plane| < TWO32 {
        slot := slot.(state := PREPARED);
      }
      Put(i, slot);
    }

    method PrepareCapture(i: nat, plane: Option<Plane>, ghost n: nat)
      requires Valid()
      modifies this
      ensures Valid() && Repr() == old(Repr()) && Value() == PrepareCap(old(Value()), n, i, plane).ctx
    {
      if i >= |capBufs| || capBufs[i].state != DEQUEUED { return; }
      var b := capBufs[i];
      if plane.Some? {
        b := b.(plane := plane.value);
      }
      if capFmt.sizeimage <= |b.plane| < TWO32 {
        b := b.(state := PREPARED);
      }
      capBufs := capBufs[i := b];
    }

    method RequestCapture(planes: seq<Plane>, ghost n: nat) returns (err: Option<Errno>)
      requires Valid()
      modifies this
      ensures Valid() && Repr() == old(Repr()) && Value() == ReqBufsCap(old(Value()), n, planes).ctx
      ensures err == if old(capQ.on) then Some(EBUSY) else None
    {
      if capQ.on { return Some(EBUSY); }
      var two := AtLeastTwo(planes);
      capBufs, capQ := FreshCap(two), IDLE;
      return None;
    }

    /** QBUF of OUTPUT: `vpipe_buf_prepare`, then `vpipe_buf_queue` or hold the buffer until STREAMON. */
    method QueueOutput(i: nat, plane: Option<Plane>, mapped: bool, now: nat, ghost n: nat)
      requires Valid() && !QBufOut(Value(), n, i, plane, mapped, now).fault
      modifies Repr()
      ensures Valid() && Repr() == old(Repr()) && Value() == QBufOut(old(Value()), n, i, plane, mapped, now).ctx
    {
      if i >= |outBufs| || !InUser(outBufs[i].state) { return; }
      var slot := outBufs[i];
      if plane.Some? && (slot.state != PREPARED || |plane.value| == |slot.plane|) {
        slot := slot.(plane := plane.value);
      }
      if slot.state != PREPARED && (|slot.plane| < outFmt.sizeimage || |slot.plane| >= TWO32) {
        Put(i, slot);
      } else if outQ.on {
        Put(i, slot);
        BufQueueOutput(i, mapped, now);
      } else {
        Hold(i, slot);
      }
    }

    method Put(i: nat, slot: OutSlot)
      requires Valid() && i < |outBufs|
      modifies this
      ensures Valid() && Repr() == old(Repr()) && Value() == PutOut(old(Value()), i, OutAt(slot, old(marks[i])))
    {
      PutSameMark(outBufs, marks, i, slot);
      outBufs := outBufs[i := slot];
    }

    method Hold(i: nat, slot: OutSlot)
      requires Valid() && i < |outBufs|
      modifies this
      ensures Valid() && Repr() == old(Repr()) && Value() == HoldOut(old(Value()), i, OutAt(slot, old(marks[i])))
    {
      PutSameMark(outBufs, marks, i, slot.(state := QUEUED));
      outBufs := outBufs[i := slot.(state := QUEUED)];
      outQ := outQ.(held := outQ.held + [i]);
    }

    method QueueCapture(i: nat, plane: Option<Plane>, ghost n: nat)
      requires Valid()
      modifies this
      ensures Valid() && Repr() == old(Repr()) && Value() == QBufCap(old(Value()), n, i, plane).ctx
    {
      if i >= |capBufs| || !InUser(capBufs[i].state) { return; }
      var b := capBufs[i];
      if plane.Some? && (b.state != PREPARED || |plane.value| == |b.plane|) {
        b := b.(plane := plane.value);
      }
      if b.state == PREPARED || capFmt.sizeimage <= |b.plane| < TWO32 {
        if capQ.on {
          b := b.(state := ACTIVE);
          capQ := capQ.(ready := capQ.ready + [i]);
        } else {
          b := b.(state := QUEUED);
          capQ := capQ.(held := capQ.held + [i]);
        }
      }
      capBufs := capBufs[i := b];
    }

    method DequeueOutput(ghost n: nat)
      requires Valid() && (outQ.done != [] ==> outQ.done[0] < |outBufs|)
      modifies this
      ensures Valid() && Repr() == old(Repr()) && Value() == DqBufOut(old(Value()), n).ctx
    {
      if outQ.done == [] { return; }
      var i := outQ.done[0];
      PutSameMark(outBufs, marks, i, outBufs[i].(state := DEQUEUED));
      outBufs := outBufs[i := outBufs[i].(state := DEQUEUED)];
      outQ := outQ.(done := outQ.done[1..]);
    }

    /** `vpipe_buf_finish` on CAPTURE: publish what is pending, once. */
    method BufFinishCapture(i: nat, now: nat, g: Meta.MetaDevice)
      requires Valid() && i < |capBufs| && g.Valid() && {g, g.ring} !! Repr()
      modifies this, g, g.ring
      ensures Valid() && Repr() == old(Repr())
      ensures var (bufs, pubs) := BufFinish(old(capBufs), i, now);
        && Value() == old(Value()).(capBufs := bufs, published := old(published) + Seqs(pubs))
        && g.Value() == PublishAll(old(g.Value()), pubs)
    {
      var e := capBufs[i].pending;
      if e.seqNo == 0 {
        assert published + Seqs([]) == published;
        return;
      }
      e := e.(dqbufTs := now);
      g.Publish(e);
      PublishOne(old(g.Value()), e);
      published := published + [e.seqNo];
      assert Seqs([e]) == [e.seqNo];
      capBufs := capBufs[i := capBufs[i].(pending := e.(seqNo := 0))];
    }

    /** DQBUF of CAPTURE: the oldest done buffer passes `vpipe_buf_finish`. */
    method DequeueCapture(now: nat, g: Meta.MetaDevice, ghost n: nat)
      requires Valid() && (capQ.done != [] ==> capQ.done[0] < |capBufs|) && g.Valid() && {g, g.ring} !! Repr()
      modifies this, g, g.ring
      ensures Valid() && Repr() == old(Repr())
      ensures var r := DqBufCap(old(Value()), n, now);
        Value() == r.ctx && g.Value() == PublishAll(old(g.Value()), r.pubs)
    {
      if capQ.done == [] { return; }
      var i := capQ.done[0];
      BufFinishCapture(i, now, g);
      capBufs := capBufs[i := capBufs[i].(state := DEQUEUED)];
      capQ := capQ.(done := capQ.done[1..]);
    }

    /** VPIPE_IOC_SET_BACKEND */
    method SwitchBackend(backend: nat, ghost n: nat) returns (err: Option<Errno>)
      requires Valid()
      modifies this
      ensures Valid() && fresh(Repr() - old(Repr())) && Value() == SetBackend(old(Value()), n, backend).ctx
      ensures err == if outQ.on || capQ.on then Some(EBUSY) else if 1 <= backend <= 3 then None else Some(EINVAL)
    {
      if outQ.on || capQ.on { return Some(EBUSY); }
      if !(Source.BACKEND_NONE < backend <= Source.BACKEND_VCAM) { return Some(EINVAL); }
      src := new SourceObject(backend, src.id + 1);
      return None;
    }

    /** STREAMON of OUTPUT: held buffers reach `vpipe_buf_queue`, then `vpipe_start_streaming`. */
    method StreamOnOutput(params: P.Params, mapped: bool, now: nat, ghost n: nat)
      requires Valid() && !StreamOnOut(Value(), n, params, mapped, now).fault
      requires forall k :: 0 <= k < |outQ.held| ==> outQ.held[k] < |outBufs|
      modifies Repr()
      ensures Valid() && fresh(Repr() - old(Repr())) && Value() == StreamOnOut(old(Value()), n, params, mapped, now).ctx
    {
      if outQ.on || outBufs == [] { return; }
      Geometry.HeldFormats(Value(), outQ.held, n, mapped, now);
      QueueHeldOutput(mapped, now, n);
      src.Start(outFmt.sizeimage, params, now);
      outQ := outQ.(held := [], on := true);
    }

    method QueueHeldOutput(mapped: bool, now: nat, ghost n: nat)
      requires Valid() && !QueueHeld(Value(), outQ.held, n, mapped, now).fault
      requires forall k :: 0 <= k < |outQ.held| ==> outQ.held[k] < |outBufs|
      modifies Repr()
      ensures Valid() && Repr() == old(Repr()) && Value() == QueueHeld(old(Value()), old(outQ.held), n, mapped, now).ctx
    {
      var held := outQ.held;
      ghost var c := Value();
      for k := 0 to |held|
        invariant Valid() && Repr() == old(Repr()) && Value() == QueueHeld(c, held[..k], n, mapped, now).ctx
      {
        HeldStep(c, held, k, n, mapped, now);
        BufQueueOutput(held[k], mapped, now);
      }
      assert held[..|held|] == held;
    }

    method StreamOnCapture(ghost n: nat)
      requires Valid()
      modifies this
      ensures Valid() && Repr() == old(Repr()) && Value() == StreamOnCap(old(Value()), n).ctx
    {
      if capQ.on || capBufs == [] { return; }
      capBufs := Activated(capBufs);
      capQ := Queue([], capQ.ready + capQ.held, capQ.done, true);
    }

    /** `vpipe_return_all_buffers` on OUTPUT: the ready queue is drained into the done list as errors. */
    method ReturnAllOutput()
      requires Valid() && forall k :: 0 <= k < |outQ.ready| ==> outQ.ready[k] < |outBufs|
      modifies this`outQ, this`outBufs
      ensures outQ == old(outQ).(ready := [], done := old(outQ.done + outQ.ready))
      ensures outBufs == ErrorSlots(old(outBufs), old(outQ.ready))
    {
      ghost var q, slots, m := outQ, outBufs, 0;
      assert ErrorSlots(slots, q.ready[..0]) == slots;
      while outQ.ready != []
        invariant m <= |q.ready| && outQ == q.(ready := q.ready[m..], done := q.done + q.ready[..m])
        invariant outBufs == ErrorSlots(slots, q.ready[..m])
        decreases |outQ.ready|
      {
        NextDrained(q, m);
        NextErrorSlot(slots, q.ready, m);
        var i := outQ.ready[0];
        outQ := outQ.(ready := outQ.ready[1..]);
        outBufs := outBufs[i := outBufs[i].(state := ERROR)];
        outQ := outQ.(done := outQ.done + [i]);
        m := m + 1;
      }
      assert q.ready[..m] == q.ready;
    }

    /** STREAMOFF of OUTPUT: `vpipe_stop_streaming`, then the framework takes every buffer back. */
    method StreamOffOutput(ghost n: nat)
      requires Valid() && forall k :: 0 <= k < |outQ.ready| ==> outQ.ready[k] < |outBufs|
      modifies Repr()
      ensures Valid() && Repr() <= old(Repr()) && Value() == StreamOffOut(old(Value()), n).ctx
    {
      if outQ.on {
        src.Stop();
      }
      EmptyOutput();
    }

    method EmptyOutput()
      requires Valid() && forall k :: 0 <= k < |outQ.ready| ==> outQ.ready[k] < |outBufs|
      modifies this
      ensures Valid() && Repr() == old(Repr())
      ensures Value() == StreamOffOut(old(Value()), 0).ctx.(src := old(Value()).src)
    {
      EmptiedValues(outBufs, marks, outQ.ready);
      ReturnAllOutput();
      outBufs := ReleasedSlots(outBufs);
      outQ := IDLE;
    }

    /** `vpipe_return_all_buffers` on CAPTURE */
    method ReturnAllCapture()
      requires Valid() && forall k :: 0 <= k < |capQ.ready| ==> capQ.ready[k] < |capBufs|
      modifies this`capQ, this`capBufs
      ensures capQ == old(capQ).(ready := [], done := old(capQ.done + capQ.ready))
      ensures capBufs == ErrorBufs(old(capBufs), old(capQ.ready))
    {
      ghost var q, bufs, m := capQ, capBufs, 0;
      assert ErrorBufs(bufs, q.ready[..0]) == bufs;
      while capQ.ready != []
        invariant m <= |q.ready| && capQ == q.(ready := q.ready[m..], done := q.done + q.ready[..m])
        invariant capBufs == ErrorBufs(bufs, q.ready[..m])
        decreases |capQ.ready|
      {
        NextDrained(q, m);
        NextErrorBuf(bufs, q.ready, m);
        var i := capQ.ready[0];
        capQ := capQ.(ready := capQ.ready[1..]);
        capBufs := capBufs[i := capBufs[i].(state := ERROR)];
        capQ := capQ.(done := capQ.done + [i]);
        m := m + 1;
      }
      assert q.ready[..m] == q.ready;
    }

    /** The first `k` buffers of `was` have left: what that published, and nothing else, has happened to `c` and `m`. */
    ghost predicate Left(c: Ctx, m: Meta.Device, was: seq<CapBuf>, k: nat, now: nat, g: Meta.MetaDevice)
      requires k <= |was| && |m.ring| == Meta.RING_SIZE
      reads Repr(), g, g.ring
    {
      && Valid() && g.Valid() && SamePending(FinishFirst(was, k, now).0, capBufs)
      && g.Value() == PublishAll(m, FinishFirst(was, k, now).1)
      && Value() == c.(capBufs := capBufs, published := c.published + Seqs(FinishFirst(was, k, now).1))
    }

    method FinishNext(now: nat, g: Meta.MetaDevice, ghost was: seq<CapBuf>, k: nat, ghost c: Ctx, ghost m: Meta.Device)
      requires k < |was| && |m.ring| == Meta.RING_SIZE && Left(c, m, was, k, now, g) && {g, g.ring} !! Repr()
      modifies this, g, g.ring
      ensures Left(c, m, was, k + 1, now, g) && Repr() == old(Repr()) && |capBufs| == old(|capBufs|)
    {
      ghost var pubs, more := FinishFirst(was, k, now).1, BufFinish(capBufs, k, now).1;
      FinishOneMore(was, capBufs, k, now);
      PublishConcat(m, pubs, more);
      ExactlyOnce.SeqsConcat(pubs, more);
      assert c.published + Seqs(pubs) + Seqs(more) == c.published + (Seqs(pubs) + Seqs(more));
      BufFinishCapture(k, now, g);
    }

    /** Every CAPTURE buffer leaves the driver, in index order. */
    method FinishAll(now: nat, g: Meta.MetaDevice, ghost was: seq<CapBuf>)
      requires Valid() && g.Valid() && {g, g.ring} !! Repr() && SamePending(was, capBufs)
      modifies this, g, g.ring
      ensures Left(old(Value()), old(g.Value()), was, |was|, now, g) && Repr() == old(Repr())
    {
      assert published + Seqs([]) == published;
      for k := 0 to |capBufs|
        invariant |capBufs| == |was| && Repr() == old(Repr()) && Left(old(Value()), old(g.Value()), was, k, now, g)
      {
        FinishNext(now, g, was, k, old(Value()), old(g.Value()));
      }
    }

    /** STREAMOFF of CAPTURE: `vpipe_stop_streaming`, then every buffer passes `vpipe_buf_finish`. */
    method StreamOffCapture(now: nat, g: Meta.MetaDevice, ghost n: nat)
      requires Valid() && g.Valid() && {g, g.ring} !! Repr()
      requires forall k :: 0 <= k < |capQ.ready| ==> capQ.ready[k] < |capBufs|
      modifies this, g, g.ring
      ensures Valid() && Repr() == old(Repr())
      ensures var r := StreamOffCap(old(Value()), n, now);
        Value() == r.ctx && g.Value() == PublishAll(old(g.Value()), r.pubs)
    {
      ghost var c, was := Value(), capBufs;
      StopCapture();
      FinishAll(now, g, was);
      Release(c, n, now);
    }

    /** `vpipe_stop_streaming` on CAPTURE */
    method StopCapture()
      requires Valid() && forall k :: 0 <= k < |capQ.ready| ==> capQ.ready[k] < |capBufs|
      modifies this
      ensures Valid() && Repr() == old(Repr()) && SamePending(old(capBufs), capBufs)
      ensures Value() == old(Value()).(capBufs := capBufs, capQ := capQ)
    {
      ErrorsPending(capBufs, capQ.ready);
      ReturnAllCapture();
    }

    /** The framework marks every CAPTURE buffer as userspace's. */
    method Release(ghost c: Ctx, ghost n: nat, now: nat)
      requires Valid() && SamePending(FinishFirst(c.capBufs, |c.capBufs|, now).0, capBufs)
      requires Value() == c.(capBufs := capBufs, capQ := capQ,
                             published := c.published + Seqs(FinishFirst(c.capBufs, |c.capBufs|, now).1))
      modifies this
      ensures Valid() && Repr() == old(Repr()) && Value() == StreamOffCap(c, n, now).ctx
    {
      SameReleased(FinishFirst(c.capBufs, |c.capBufs|, now).0, capBufs);
      capBufs := Released(capBufs);
      capQ := IDLE;
      fifo := c.fifo && DoneByIndex(c.capBufs, c.capQ.done);
    }

    /** Both buffers leave their ready queues and are marked done. */
    method Finish(i: nat, d: nat, st: BufState)
      requires Valid() && CanRun(Value()) && i == outQ.ready[0] && d == capQ.ready[0]
      modifies this
      ensures Valid() && Repr() == old(Repr()) && Value() == Complete(old(Value()), st)
    {
      PutSameMark(outBufs, marks, i, outBufs[i].(state := st));
      outQ := outQ.(ready := outQ.ready[1..], done := outQ.done + [i]);
      capQ := capQ.(ready := capQ.ready[1..], done := capQ.done + [d]);
      outBufs := outBufs[i := outBufs[i].(state := st)];
      capBufs := capBufs[d := capBufs[d].(state := st)];
    }

    /** Whether the framework may run a job. */
    method Ready() returns (r: bool)
      requires Valid()
      ensures r == CanRun(Value())
    {
      return outQ.on && capQ.on && outQ.ready != [] && capQ.ready != []
             && outQ.ready[0] < |outBufs| && capQ.ready[0] < |capBufs|;
    }

    /** The image work of a job, on the memory of its two planes. */
    method Work(i: nat, d: nat) returns (ok: bool, out: Plane, res: Cv.CvResult)
      requires Valid() && CanRun(Value()) && RunSafe(Value()) && i == outQ.ready[0] && d == capQ.ready[0]
      ensures JobOutput(Value()) == if ok then Some((out, res)) else None
    {
      var src := Mapped(outBufs[i].plane);
      var dst := Mapped(capBufs[d].plane);
      var snap := outBufs[i].snap;
      var g := Cv.Geometry(outFmt.width, outFmt.height, outFmt.stride, capFmt.stride);
      ok, res := Cv.Process(src, dst, g, snap.algo, snap.threshold, Some(snap.roi));
      out := dst[..];
    }

    /** `vpipe_device_run`; `sequence` is the device's atomic counter. */
    method DeviceRunJob(sequence: nat, mapped: bool, now: nat, cpu: nat, crc: Crc32.Crc32Table) returns (sequence': nat)
      requires Valid() && CanRun(Value()) && !DeviceRun(Value(), sequence, mapped, now, cpu).fault
      requires crc.Valid() && {crc, crc.table} !! Repr()
      modifies this, crc, crc.table
      ensures Valid() && Repr() == old(Repr()) && crc.Valid()
      ensures var r := DeviceRun(old(Value()), sequence, mapped, now, cpu);
        Value() == r.ctx && sequence' == r.sequence && r.pubs == []
    {
      var i, d := outQ.ready[0], capQ.ready[0];
      ghost var c := Value();
      sequence' := sequence;
      var ok, out, res := false, [], Cv.CvResult(0, 0, 0, Cv.Roi(0, 0, 0, 0));
      if mapped {
        ok, out, res := Work(i, d);
      }
      if !ok {
        RunFails(c, sequence, mapped, now, cpu);
        Fail(i, d, mapped, now, cpu);
        return;
      }
      RunSucceeds(c, sequence, now, cpu, out, res);
      var meta := Describe(i, d, sequence + 1, out, res, now, cpu, crc);
      Succeed(i, d, out, meta, JobGiven(c, true, now, cpu));
      sequence' := sequence + 1;
    }

    method Fail(i: nat, d: nat, mapped: bool, ghost now: nat, ghost cpu: nat)
      requires Valid() && CanRun(Value()) && i == outQ.ready[0] && d == capQ.ready[0]
      modifies this
      ensures Valid() && Repr() == old(Repr()) && Value() == FailedJob(old(Value()), mapped, now, cpu)
    {
      ghost var given := JobGiven(Value(), mapped, now, cpu);
      Finish(i, d, ERROR);
      jobs := jobs + [Job(given, false, [], BLANK)];
    }

    /** A finished job hands its CAPTURE buffer the bytes and the entry. */
    method Succeed(i: nat, d: nat, out: Plane, meta: Meta.Entry, ghost given: Given)
      requires Valid() && CanRun(Value()) && i == outQ.ready[0] && d == capQ.ready[0]
      modifies this
      ensures Valid() && Repr() == old(Repr()) && Value() == AfterSuccess(old(Value()), out, meta, given)
    {
      Finish(i, d, DONE);
      capBufs := capBufs[d := CapBuf(DONE, out, meta)];
      jobs := jobs + [Job(given, true, out, meta.(seqNo := 0))];
      numbers := numbers + [meta.seqNo];
    }

    /** The sideband entry of a job. */
    method Describe(i: nat, d: nat, seqNo: nat, out: Plane, res: Cv.CvResult, now: nat, cpu: nat, crc: Crc32.Crc32Table)
      returns (meta: Meta.Entry)
      requires Valid() && CanRun(Value()) && i == outQ.ready[0] && d == capQ.ready[0] && capFmt.sizeimage <= |out|
      requires crc.Valid() && {crc, crc.table} !! Repr()
      modifies crc, crc.table
      ensures Valid() && Value() == old(Value()) && crc.Valid() && meta == JobEntry(Value(), seqNo, out, res, now, cpu)
    {
      var b := outBufs[i];
      meta := BLANK.(version := Meta.META_VERSION, entrySize := Meta.ENTRY_SIZE, seqNo := seqNo,
                     srcSequence := b.snap.srcSequence, bufferIndex := d);
      meta := meta.(sourceTs := b.desc.sourceTs, qbufTs := b.qbufNs, captureDoneTs := now, dqbufTs := 0);
      var sum := crc.Checksum(out[..capFmt.sizeimage]);
      meta := meta.(bytesused := capFmt.sizeimage, crc32 := sum);
      meta := meta.(algoId := b.snap.algo, algoStatus := res.status, roiLeft := res.roi.left, roiTop := res.roi.top,
                    roiWidth := res.roi.width, roiHeight := res.roi.height, value0 := res.value0, value1 := res.value1);
      meta := meta.(sourceBackend := b.desc.backend, bufferType := MemoryCode(b.memory),
                    queueDepth := |outQ.ready| - 1, cpuId := cpu);
      if b.desc.dropped {
        meta := meta.(flags := meta.flags.(dropped := true));
      }
    }
  }

  // ---- whole runs ----

  /** The lists of both queues name real buffers, as in every reachable state. */
  ghost predicate QueuesOk(c: Ctx) { Provenance.CtxOk(c) && ExactlyOnce.CtxOk(c) }

  ghost function Entries(log: seq<(nat, Meta.Entry)>): seq<Meta.Entry> {
    seq(|log|, k requires 0 <= k < |log| => log[k].1)
  }

  /** `struct vpipe_dev` with one open context, the metadata device and the checksum table. */
  class Device {
    const ctx: Context
    const meta: Meta.MetaDevice
    const crc: Crc32.Crc32Table
    var sequence: nat

    ghost var repr: set<object>

    ghost predicate Valid()
      reads this, repr
    {
      && {this, meta, meta.ring, crc, crc.table, ctx} <= repr && {ctx.src} <= repr && {ctx.src.vcam} <= repr
      && ctx.Repr() <= repr && {this, meta, meta.ring, crc, crc.table} !! ctx.Repr()
      && ctx.Valid() && meta.Valid() && crc.Valid() && meta.ring as object != crc.table as object
    }

    constructor (ctx: Context, meta: Meta.MetaDevice, crc: Crc32.Crc32Table)
      requires ctx.Valid() && meta.Valid() && crc.Valid()
      requires {meta, meta.ring, crc, crc.table} !! ctx.Repr() && meta.ring as object != crc.table as object
      ensures Valid() && this.ctx == ctx && this.meta == meta && this.crc == crc && sequence == 0
      ensures repr == {this, meta, meta.ring, crc, crc.table} + ctx.Repr()
    {
      this.ctx, this.meta, this.crc, sequence := ctx, meta, crc, 0;
      repr := {this, meta, meta.ring, crc, crc.table} + ctx.Repr();
    }

    /** The objects hold what a step of the machine left, and published what it published to metadata `m`. */
    ghost predicate Performed(r: Result, m: Meta.Device)
      requires |m.ring| == Meta.RING_SIZE
      reads this, repr
    {
      Valid() && ctx.Value() == r.ctx && sequence == r.sequence && meta.Value() == PublishAll(m, r.pubs)
    }

    method Format(out: bool, w: u32, h: u32)
      requires Valid()
      modifies repr
      ensures Performed(Same(SetFmt(old(ctx.Value()), out, w, h), old(sequence)), old(meta.Value()))
      ensures fresh(repr - old(repr))
    {
      var _ := ctx.SetFormat(out, w, h);
    }

    method Control(id: ControlId, v: s32)
      requires Valid()
      modifies repr
      ensures var c := old(ctx.Value()).(ctl := SetControl(old(ctx.ctl), id, v));
        Performed(Same(c, old(sequence)), old(meta.Value()))
      ensures fresh(repr - old(repr))
    {
      var _ := ctx.SetCtrl(id, v);
    }

    method AllocateOutput(memory: Memory, planes: seq<Plane>)
      requires Valid()
      modifies repr
      ensures Performed(ReqBufsOut(old(ctx.Value()), old(sequence), memory, planes), old(meta.Value()))
      ensures fresh(repr - old(repr))
    {
      var _ := ctx.RequestOutput(memory, planes, sequence);
    }

    method AllocateCapture(planes: seq<Plane>)
      requires Valid()
      modifies repr
      ensures Performed(ReqBufsCap(old(ctx.Value()), old(sequence), planes), old(meta.Value()))
      ensures fresh(repr - old(repr))
    {
      var _ := ctx.RequestCapture(planes, sequence);
    }

    method AddOutput(memory: Memory, planes: seq<Plane>)
      requires Valid()
      modifies repr
      ensures Performed(CreateOut(old(ctx.Value()), old(sequence), memory, planes), old(meta.Value()))
      ensures fresh(repr - old(repr))
    {
      ctx.CreateOutput(memory, planes, sequence);
    }

    method AddCapture(planes: seq<Plane>)
      requires Valid()
      modifies repr
      ensures Performed(CreateCap(old(ctx.Value()), old(sequence), planes), old(meta.Value()))
      ensures fresh(repr - old(repr))
    {
      ctx.CreateCapture(planes, sequence);
    }

    method TestOutput(i: nat, plane: Option<Plane>)
      requires Valid()
      modifies repr
      ensures Performed(PrepareOut(old(ctx.Value()), old(sequence), i, plane), old(meta.Value()))
      ensures fresh(repr - old(repr))
    {
      ctx.PrepareOutput(i, plane, sequence);
    }

    method TestCapture(i: nat, plane: Option<Plane>)
      requires Valid()
      modifies repr
      ensures Performed(PrepareCap(old(ctx.Value()), old(sequence), i, plane), old(meta.Value()))
      ensures fresh(repr - old(repr))
    {
      ctx.PrepareCapture(i, plane, sequence);
    }

    method Switch(backend: nat)
      requires Valid()
      modifies repr
      ensures Performed(SetBackend(old(ctx.Value()), old(sequence), backend), old(meta.Value()))
      ensures fresh(repr - old(repr))
    {
      var _ := ctx.SwitchBackend(backend, sequence);
      repr := repr + ctx.Repr();
    }

    method OutputIn(i: nat, plane: Option<Plane>, mapped: bool, now: nat)
      requires Valid() && !QBufOut(ctx.Value(), sequence, i, plane, mapped, now).fault
      modifies repr
      ensures Performed(QBufOut(old(ctx.Value()), old(sequence), i, plane, mapped, now), old(meta.Value()))
      ensures fresh(repr - old(repr))
    {
      ExactlyOnce.QBufOutLeaves(ctx.Value(), sequence, i, plane, mapped, now);
      ctx.QueueOutput(i, plane, mapped, now, sequence);
    }

    method OutputOn(params: P.Params, mapped: bool, now: nat)
      requires Valid() && QueuesOk(ctx.Value()) && !StreamOnOut(ctx.Value(), sequence, params, mapped, now).fault
      modifies repr
      ensures Performed(StreamOnOut(old(ctx.Value()), old(sequence), params, mapped, now), old(meta.Value()))
      ensures fresh(repr - old(repr))
    {
      ExactlyOnce.HeldUntouched(ctx.Value(), ctx.outQ.held, sequence, mapped, now);
      ctx.StreamOnOutput(params, mapped, now, sequence);
      repr := repr + ctx.Repr();
    }

    method OutputOff()
      requires Valid() && QueuesOk(ctx.Value())
      modifies repr
      ensures Performed(StreamOffOut(old(ctx.Value()), old(sequence)), old(meta.Value())) && fresh(repr - old(repr))
    {
      ctx.StreamOffOutput(sequence);
    }

    method OutputOut()
      requires Valid() && QueuesOk(ctx.Value())
      modifies repr
      ensures Performed(DqBufOut(old(ctx.Value()), old(sequence)), old(meta.Value())) && fresh(repr - old(repr))
    {
      ctx.DequeueOutput(sequence);
    }

    method CaptureIn(i: nat, plane: Option<Plane>)
      requires Valid()
      modifies repr
      ensures Performed(QBufCap(old(ctx.Value()), old(sequence), i, plane), old(meta.Value()))
      ensures fresh(repr - old(repr))
    {
      ctx.QueueCapture(i, plane, sequence);
    }

    method CaptureOn()
      requires Valid()
      modifies repr
      ensures Performed(StreamOnCap(old(ctx.Value()), old(sequence)), old(meta.Value())) && fresh(repr - old(repr))
    {
      ctx.StreamOnCapture(sequence);
    }

    method CaptureOff(now: nat)
      requires Valid() && QueuesOk(ctx.Value())
      modifies repr
      ensures Performed(StreamOffCap(old(ctx.Value()), old(sequence), now), old(meta.Value()))
      ensures fresh(repr - old(repr))
    {
      ctx.StreamOffCapture(now, meta, sequence);
    }

    method CaptureOut(now: nat)
      requires Valid() && QueuesOk(ctx.Value())
      modifies repr
      ensures Performed(DqBufCap(old(ctx.Value()), old(sequence), now), old(meta.Value())) && fresh(repr - old(repr))
    {
      ctx.DequeueCapture(now, meta, sequence);
    }

    method RunJob(mapped: bool, now: nat, cpu: nat)
      requires Valid() && CanRun(ctx.Value()) && !DeviceRun(ctx.Value(), sequence, mapped, now, cpu).fault
      modifies repr
      ensures Performed(DeviceRun(old(ctx.Value()), old(sequence), mapped, now, cpu), old(meta.Value()))
      ensures fresh(repr - old(repr))
    {
      var next := ctx.DeviceRunJob(sequence, mapped, now, cpu, crc);
      assert meta.Value() == old(meta.Value());
      sequence := next;
    }

    method Configure(now: nat, a: Action)
      requires Valid() && (a.ActSetFmt? || a.ActSetCtl? || a.ActReqBufs? || a.ActSetBackend?)
      modifies repr
      ensures Performed(CtxStep(old(ctx.Value()), old(sequence), now, a), old(meta.Value())) && fresh(repr - old(repr))
    {
      match a
      case ActSetFmt(out, w, h) => Format(out, w, h);
      case ActSetCtl(id, v) => Control(id, v);
      case ActReqBufs(out, memory, planes) =>
        if out { AllocateOutput(memory, planes); } else { AllocateCapture(planes); }
      case ActSetBackend(backend) => Switch(backend);
    }

    method BufferCall(now: nat, a: Action)
      requires Valid() && (a.ActCreateBufs? || a.ActPrepare?)
      modifies repr
      ensures Performed(CtxStep(old(ctx.Value()), old(sequence), now, a), old(meta.Value())) && fresh(repr - old(repr))
    {
      match a
      case ActCreateBufs(out, memory, planes) => if out { AddOutput(memory, planes); } else { AddCapture(planes); }
      case ActPrepare(out, i, plane) => if out { TestOutput(i, plane); } else { TestCapture(i, plane); }
    }

    method OutputCall(now: nat, a: Action)
      requires Valid() && QueuesOk(ctx.Value()) && !CtxStep(ctx.Value(), sequence, now, a).fault
      requires a.ActQBufOut? || a.ActStreamOnOut? || a.ActStreamOffOut? || a.ActDqBufOut?
      modifies repr
      ensures Performed(CtxStep(old(ctx.Value()), old(sequence), now, a), old(meta.Value())) && fresh(repr - old(repr))
    {
      match a
      case ActQBufOut(i, plane, mapped) => OutputIn(i, plane, mapped, now);
      case ActStreamOnOut(params, mapped) => OutputOn(params, mapped, now);
      case ActStreamOffOut => OutputOff();
      case ActDqBufOut => OutputOut();
    }

    method CaptureCall(now: nat, a: Action)
      requires Valid() && QueuesOk(ctx.Value())
      requires (a.ActQBufCap? || a.ActStreamOnCap? || a.ActStreamOffCap? || a.ActDqBufCap?)
      modifies repr
      ensures Performed(CtxStep(old(ctx.Value()), old(sequence), now, a), old(meta.Value())) && fresh(repr - old(repr))
    {
      if a.ActQBufCap? || a.ActStreamOnCap? {
        CaptureEnters(now, a);
      } else {
        CaptureLeaves(now, a);
      }
    }

    method CaptureEnters(now: nat, a: Action)
      requires Valid() && (a.ActQBufCap? || a.ActStreamOnCap?)
      modifies repr
      ensures Performed(CtxStep(old(ctx.Value()), old(sequence), now, a), old(meta.Value())) && fresh(repr - old(repr))
    {
      match a
      case ActQBufCap(i, plane) => CaptureIn(i, plane);
      case ActStreamOnCap => CaptureOn();
    }

    method CaptureLeaves(now: nat, a: Action)
      requires Valid() && QueuesOk(ctx.Value()) && (a.ActStreamOffCap? || a.ActDqBufCap?)
      modifies repr
      ensures Performed(CtxStep(old(ctx.Value()), old(sequence), now, a), old(meta.Value())) && fresh(repr - old(repr))
    {
      match a
      case ActStreamOffCap => CaptureOff(now);
      case ActDqBufCap => CaptureOut(now);
    }

    /** A job runs only when the framework may run one. */
    method JobCall(now: nat, a: Action)
      requires Valid() && a.ActRun? && !CtxStep(ctx.Value(), sequence, now, a).fault
      modifies repr
      ensures Performed(CtxStep(old(ctx.Value()), old(sequence), now, a), old(meta.Value())) && fresh(repr - old(repr))
    {
      var ready := ctx.Ready();
      if ready {
        RunJob(a.mapped, now, a.cpu);
      }
    }

    /** Any one call. */
    method Perform(now: nat, a: Action)
      requires Valid() && QueuesOk(ctx.Value()) && !CtxStep(ctx.Value(), sequence, now, a).fault
      modifies repr
      ensures Performed(CtxStep(old(ctx.Value()), old(sequence), now, a), old(meta.Value())) && fresh(repr - old(repr))
    {
      if a.ActRun? {
        JobCall(now, a);
      } else if a.ActSetFmt? || a.ActSetCtl? || a.ActReqBufs? || a.ActSetBackend? {
        Configure(now, a);
      } else if a.ActCreateBufs? || a.ActPrepare? {
        BufferCall(now, a);
      } else if a.ActQBufOut? || a.ActStreamOnOut? || a.ActStreamOffOut? || a.ActDqBufOut? {
        OutputCall(now, a);
      } else {
        CaptureCall(now, a);
      }
    }

    /**
     * A whole run. From a freshly opened context, any sequence of calls whose format changes fit
     * the planes waiting when they are made leaves the objects in the state the machine's run
     * ends in: the same context, the same device sequence, and a metadata device that published
     * exactly the run's log, in order. No plane is accessed out of bounds on the way.
     */
    method Execute(es: seq<Event>, ghost d: Dev)
      requires Valid() && ctx.Value() == OPENED && sequence == 0
      requires Initial(d) && d.ctxs == map[0 := OPENED] && forall k :: 0 <= k < |es| ==> es[k].ctx == 0
      requires Geometry.ChangesFit(d, es)
      modifies repr
      ensures fresh(repr - old(repr)) && Follows(M2m.Run(d, es), old(meta.Value()))
    {
      AtStart(es, d);
      Continue(es, 0, d, meta.Value());
    }

    /** The calls from the `k`-th on. */
    method Continue(es: seq<Event>, k: nat, ghost d: Dev, ghost m: Meta.Device)
      requires Initial(d) && d.ctxs == map[0 := OPENED] && forall j :: 0 <= j < |es| ==> es[j].ctx == 0
      requires k <= |es| && Geometry.ChangesFit(d, es) && |m.ring| == Meta.RING_SIZE && Follows(M2m.Run(d, es[..k]), m)
      modifies repr
      ensures fresh(repr - old(repr)) && Follows(M2m.Run(d, es), m)
      decreases |es| - k
    {
      if k == |es| {
        assert es[..k] == es;
        return;
      }
      Advance(es, k, d, m);
      Continue(es, k + 1, d, m);
    }

    lemma AtStart(es: seq<Event>, d: Dev)
      requires Valid() && ctx.Value() == OPENED && sequence == 0 && Initial(d) && d.ctxs == map[0 := OPENED]
      ensures Follows(M2m.Run(d, es[..0]), meta.Value())
    {
      assert es[..0] == [] && Entries([]) == [];
    }

    method Advance(es: seq<Event>, k: nat, ghost d: Dev, ghost m0: Meta.Device)
      requires Initial(d) && d.ctxs == map[0 := OPENED] && k < |es| && es[k].ctx == 0 && Geometry.ChangesFit(d, es)
      requires |m0.ring| == Meta.RING_SIZE && Follows(M2m.Run(d, es[..k]), m0)
      modifies repr
      ensures Follows(M2m.Run(d, es[..k + 1]), m0) && fresh(repr - old(repr))
    {
      RunsOn(d, es, k);
      LogGrows(M2m.Run(d, es[..k]), es[k], m0);
      Perform(es[k].now, es[k].act);
    }

    /** The objects are where the machine's device `s` is, having started from metadata `m`. */
    ghost predicate Follows(s: Dev, m: Meta.Device)
      requires |m.ring| == Meta.RING_SIZE
      reads this, repr
    {
      && Valid() && !s.faulted && s.ctxs == map[0 := ctx.Value()] && s.sequence == sequence
      && meta.Value() == PublishAll(m, Entries(s.log))
    }
  }

  /** A step on the only context, and what it adds to the log. */
  lemma LogGrows(s: Dev, e: Event, m: Meta.Device)
    requires |m.ring| == Meta.RING_SIZE && !s.faulted && e.ctx == 0 && s.ctxs.Keys == {0}
    ensures var r, s' := CtxStep(s.ctxs[0], s.sequence, e.now, e.act), Step(s, e);
      && s'.ctxs == map[0 := r.ctx] && s'.sequence == r.sequence && s'.faulted == r.fault
      && PublishAll(m, Entries(s'.log)) == PublishAll(PublishAll(m, Entries(s.log)), r.pubs)
  {
    var r := CtxStep(s.ctxs[0], s.sequence, e.now, e.act);
    assert s.ctxs[0 := r.ctx] == map[0 := r.ctx];
    assert Entries(Step(s, e).log) == Entries(s.log) + r.pubs;
    PublishConcat(m, Entries(s.log), r.pubs);
  }

  lemma {:induction false} FitPrefix(d: Dev, es: seq<Event>, k: nat)
    requires k <= |es| && Geometry.ChangesFit(d, es)
    ensures Geometry.ChangesFit(d, es[..k])
    decreases |es|
  {
    if k == |es| {
      assert es[..k] == es;
    } else {
      var front := es[..|es| - 1];
      FitPrefix(d, front, k);
      assert front[..k] == es[..k];
    }
  }

  /** A fitting run goes on from every prefix without a fault. */
  lemma RunsOn(d: Dev, es: seq<Event>, k: nat)
    requires Initial(d) && 0 in d.ctxs && k < |es| && es[k].ctx == 0 && Geometry.ChangesFit(d, es)
    ensures var s := M2m.Run(d, es[..k]);
      && M2m.Run(d, es[..k + 1]) == Step(s, es[k])
      && 0 in s.ctxs && QueuesOk(s.ctxs[0]) && !CtxStep(s.ctxs[0], s.sequence, es[k].now, es[k].act).fault
  {
    var s := M2m.Run(d, es[..k]);
    FitPrefix(d, es, k);
    FitPrefix(d, es, k + 1);
    Geometry.FittingRunHolds(d, es[..k]);
    Geometry.FittingRunHolds(d, es[..k + 1]);
    assert es[..k + 1][..k] == es[..k] && es[..k + 1][k] == es[k];
    ExactlyOnce.RunKeepsDev(d, es[..k]);
    Provenance.RunKeepsDev(d, es[..k]);
  }
}
