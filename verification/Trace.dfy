/**
 * Runs of the driver read from their events alone: which control writes, format changes and
 * backend switches are in force, which event queued a buffer, which ran its job and which
 * published its entry.
 */
module Trace {
  import opened Base
  import opened M2m
  import Cv
  import Jobs
  import Meta
  import P = Producers
  import Provenance
  import Source

  // ---- states along a run ----

  /** The device before event `p`. */
  function At(d: Dev, es: seq<Event>, p: nat): Dev
    requires p <= |es|
  {
    M2m.Run(d, es[..p])
  }

  lemma AtFront(d: Dev, es: seq<Event>, m: nat, p: nat)
    requires p <= m <= |es|
    ensures At(d, es[..m], p) == At(d, es, p)
  {
    assert es[..m][..p] == es[..p];
  }

  lemma {:induction false} SameContexts(d: Dev, es: seq<Event>)
    ensures M2m.Run(d, es).ctxs.Keys == d.ctxs.Keys
  {
    if es != [] { SameContexts(d, es[..|es| - 1]); }
  }

  // ---- controls ----

  /** The last value written to control `id` of context `f`. */
  function LastWrite(es: seq<Event>, f: nat, id: ControlId): Option<s32> {
    if es == [] then None else
      var m := |es| - 1;
      if es[m].ctx == f && es[m].act.ActSetCtl? && es[m].act.id == id then Some(es[m].act.value)
      else LastWrite(es[..m], f, id)
  }

  /** That value, or the control's default. */
  function Written(es: seq<Event>, f: nat, id: ControlId, initial: s32): s32 {
    match LastWrite(es, f, id)
    case None => initial
    case Some(v) => v
  }

  /** The ROI last requested: the whole default frame if nothing was written. */
  function WrittenRoi(es: seq<Event>, f: nat): Cv.Roi {
    Cv.Roi(Written(es, f, RoiLeft, 0), Written(es, f, RoiTop, 0), Written(es, f, RoiWidth, 640),
           Written(es, f, RoiHeight, 480))
  }

  /** Each of the seven controls holds the value last written to it; three are stored unsigned. */
  ghost predicate HoldsWrites(c: Controls, es: seq<Event>, f: nat) {
    && c.srcSequence == Written(es, f, SrcSequence, 0) % 0x1_0000_0000
    && c.algo == Written(es, f, Algo, 0) % 0x1_0000_0000
    && c.threshold == Written(es, f, Threshold, 127) % 0x1_0000_0000
    && c.roi == WrittenRoi(es, f)
  }

  lemma {:induction false} HeldKeeps(c: Ctx, list: seq<nat>, n: nat, mapped: bool, now: nat)
    ensures var r := QueueHeld(c, list, n, mapped, now);
      && r.ctx.ctl == c.ctl && r.ctx.outFmt == c.outFmt && r.ctx.capFmt == c.capFmt && r.pubs == []
      && r.ctx.outQ.on == c.outQ.on && r.ctx.src.backend == c.src.backend && |r.ctx.outBufs| == |c.outBufs|
      && SameKind(r.ctx.src.producer, c.src.producer)
      && r.ctx.jobs == c.jobs && c.tickets <= r.ctx.tickets
    decreases |list|
  {
    if list != [] { HeldKeeps(c, list[..|list| - 1], n, mapped, now); }
  }

  predicate SameKind(p: P.Producer, q: P.Producer) { p.Fixture? == q.Fixture? && p.Synthetic? == q.Synthetic? }

  /** Only a control write changes the controls. */
  lemma OnlyWrites(c: Ctx, n: nat, now: nat, a: Action)
    requires !a.ActSetCtl?
    ensures CtxStep(c, n, now, a).ctx.ctl == c.ctl
  {
    if a.ActStreamOnOut? { HeldKeeps(c, c.outQ.held, n, a.mapped, now); }
  }

  lemma WriteStep(c: Ctx, n: nat, es: seq<Event>, f: nat)
    requires es != [] && es[|es| - 1].ctx == f && HoldsWrites(c.ctl, es[..|es| - 1], f)
    ensures HoldsWrites(CtxStep(c, n, es[|es| - 1].now, es[|es| - 1].act).ctx.ctl, es, f)
  {
    var e := es[|es| - 1];
    if !e.act.ActSetCtl? { OnlyWrites(c, n, e.now, e.act); }
  }

  /** In every run, until a memory fault, a context's controls are what was last written to each. */
  lemma {:induction false} ControlsWritten(d: Dev, es: seq<Event>, f: nat)
    requires Initial(d) && f in M2m.Run(d, es).ctxs && !M2m.Run(d, es).faulted
    ensures HoldsWrites(M2m.Run(d, es).ctxs[f].ctl, es, f)
  {
    if es != [] {
      var m := |es| - 1;
      var s := M2m.Run(d, es[..m]);
      ControlsWritten(d, es[..m], f);
      if es[m].ctx == f { WriteStep(s.ctxs[f], s.sequence, es, f); }
    }
  }

  // ---- formats ----

  /** The format change of the last event is accepted: the queue it names has no buffers. */
  ghost predicate Accepts(s: Dev, e: Event, f: nat) {
    && !s.faulted && f in s.ctxs && e.ctx == f && e.act.ActSetFmt?
    && (if e.act.out then s.ctxs[f].outBufs == [] else s.ctxs[f].capBufs == [])
  }

  /** The size last asked for by an accepted change, 640 by 480 before any. */
  ghost function LastSize(d: Dev, es: seq<Event>, f: nat): (nat, nat) {
    if es == [] then (640, 480) else
      var m := |es| - 1;
      if Accepts(M2m.Run(d, es[..m]), es[m], f) then (es[m].act.width, es[m].act.height) else LastSize(d, es[..m], f)
  }

  /** A side the driver grants: at least 1, at most 4096. */
  function Granted(side: nat): (g: nat)
    ensures 1 <= g <= 4096
  {
    if side == 0 then 1 else if side > 4096 then 4096 else side
  }

  ghost predicate HasSize(c: Ctx, size: (nat, nat)) {
    var w, h := Granted(size.0), Granted(size.1);
    c.outFmt == c.capFmt == Fmt(w, h, w, w * h)
  }

  lemma OnlyFormats(c: Ctx, n: nat, now: nat, a: Action)
    requires !a.ActSetFmt?
    ensures CtxStep(c, n, now, a).ctx.outFmt == c.outFmt && CtxStep(c, n, now, a).ctx.capFmt == c.capFmt
  {
    if a.ActStreamOnOut? { HeldKeeps(c, c.outQ.held, n, a.mapped, now); }
  }

  /** In every run both formats are the size last accepted, brought into 1..4096 side by side. */
  lemma {:induction false} FormatInForce(d: Dev, es: seq<Event>, f: nat)
    requires Initial(d) && f in M2m.Run(d, es).ctxs
    ensures HasSize(M2m.Run(d, es).ctxs[f], LastSize(d, es, f))
  {
    if es != [] {
      var m := |es| - 1;
      var s, e := M2m.Run(d, es[..m]), es[m];
      FormatInForce(d, es[..m], f);
      if e.ctx == f && !e.act.ActSetFmt? { OnlyFormats(s.ctxs[f], s.sequence, e.now, e.act); }
    }
  }

  // ---- backends ----

  /** The switch of the last event is accepted: neither queue streams and the backend exists. */
  ghost predicate Switches(s: Dev, e: Event, f: nat) {
    && !s.faulted && f in s.ctxs && e.ctx == f && e.act.ActSetBackend? && 1 <= e.act.backend <= 3
    && !s.ctxs[f].outQ.on && !s.ctxs[f].capQ.on
  }

  /** The backend last selected, the fixture before any. */
  ghost function LastBackend(d: Dev, es: seq<Event>, f: nat): nat {
    if es == [] then 1 else
      var m := |es| - 1;
      if Switches(M2m.Run(d, es[..m]), es[m], f) then es[m].act.backend else LastBackend(d, es[..m], f)
  }

  /** 1 is the fixture, 2 the synthetic producer, 3 the vcam. */
  ghost predicate HasBackend(c: Ctx, backend: nat) {
    && c.src.backend == backend
    && match c.src.producer {
         case Fixture => backend == 1
         case Synthetic(_) => backend == 2
         case Vcam(_) => backend == 3
       }
  }

  lemma OnlySwitches(c: Ctx, n: nat, now: nat, a: Action)
    requires !a.ActSetBackend?
    ensures var s := CtxStep(c, n, now, a).ctx.src;
      s.backend == c.src.backend && SameKind(s.producer, c.src.producer)
  {
    match a
    case ActStreamOnOut(params, mapped) => HeldKeeps(c, c.outQ.held, n, mapped, now);
    case ActQBufOut(i, plane, mapped) => QBufKeepsKind(c, n, i, plane, mapped, now);
    case ActStreamOffOut =>
    case _ =>
  }

  lemma QBufKeepsKind(c: Ctx, n: nat, i: nat, plane: Option<Plane>, mapped: bool, now: nat)
    ensures var s := QBufOut(c, n, i, plane, mapped, now).ctx.src;
      s.backend == c.src.backend && SameKind(s.producer, c.src.producer)
  {
  }

  /** In every run a context's source is the backend last selected while neither queue streamed. */
  lemma {:induction false} BackendInForce(d: Dev, es: seq<Event>, f: nat)
    requires Initial(d) && f in M2m.Run(d, es).ctxs
    ensures HasBackend(M2m.Run(d, es).ctxs[f], LastBackend(d, es, f))
  {
    if es != [] {
      var m := |es| - 1;
      var s, e := M2m.Run(d, es[..m]), es[m];
      BackendInForce(d, es[..m], f);
      if e.ctx == f && !e.act.ActSetBackend? { OnlySwitches(s.ctxs[f], s.sequence, e.now, e.act); }
    }
  }

  // ---- buffers ----

  /** How many buffers a request gets: none for none, and never just one. */
  function Allotted(requested: nat): nat { if requested == 1 then 2 else requested }

  /**
   * REQBUFS replaces the buffers of a queue that does not stream and changes nothing else; CREATE_BUFS
   * adds to them exactly when every plane holds the image and the memory is of the queue's kind.
   */
  lemma BuffersGranted(c: Ctx, n: nat, memory: Memory, planes: seq<Plane>)
    ensures var r := ReqBufsOut(c, n, memory, planes).ctx;
      if c.outQ.on then r == c
      else |r.outBufs| == Allotted(|planes|) && r.outQ == IDLE && AllHeld(r.outBufs, memory, planes)
    ensures var r := ReqBufsCap(c, n, planes).ctx;
      if c.capQ.on then r == c else |r.capBufs| == Allotted(|planes|) && r.capQ == IDLE
    ensures var r := CreateOut(c, n, memory, planes).ctx;
      var fits := forall k :: 0 <= k < |planes| ==> c.outFmt.width * c.outFmt.height <= |planes[k]|;
      c.outFmt.sizeimage == c.outFmt.width * c.outFmt.height ==>
        if fits && (c.outBufs == [] || c.outBufs[0].memory == memory) then
          |r.outBufs| == |c.outBufs| + Allotted(|planes|) && c.outBufs <= r.outBufs && r.outQ == c.outQ
        else r == c
  {
  }

  /** Userspace holds the buffers, each with its own plane. */
  ghost predicate AllHeld(bufs: seq<OutBuf>, memory: Memory, planes: seq<Plane>) {
    forall k :: 0 <= k < |planes| && k < |bufs| ==>
      bufs[k].state == DEQUEUED && bufs[k].memory == memory && bufs[k].plane == planes[k]
  }

  /** The kind of memory of the last request that gave a queue its first buffers. */
  ghost function LastMemory(d: Dev, es: seq<Event>, f: nat): Memory {
    if es == [] then MMAP else
      var m := |es| - 1;
      if Requests(M2m.Run(d, es[..m]), es[m], f) then es[m].act.memory else LastMemory(d, es[..m], f)
  }

  /** A REQBUFS of the OUTPUT queue while it does not stream, or a CREATE_BUFS while it has no buffers. */
  ghost predicate Requests(s: Dev, e: Event, f: nat) {
    && !s.faulted && f in s.ctxs && e.ctx == f
    && ((e.act.ActReqBufs? && e.act.out && !s.ctxs[f].outQ.on)
        || (e.act.ActCreateBufs? && e.act.out && s.ctxs[f].outBufs == []))
  }

  ghost predicate AllOf(bufs: seq<OutBuf>, memory: Memory) {
    forall i :: 0 <= i < |bufs| ==> bufs[i].memory == memory
  }

  lemma {:induction false} HeldKeepMemory(c: Ctx, list: seq<nat>, n: nat, mapped: bool, now: nat, memory: Memory)
    requires AllOf(c.outBufs, memory)
    ensures AllOf(QueueHeld(c, list, n, mapped, now).ctx.outBufs, memory)
    decreases |list|
  {
    if list != [] { HeldKeepMemory(c, list[..|list| - 1], n, mapped, now, memory); }
  }

  lemma StepMemory(c: Ctx, n: nat, now: nat, a: Action, memory: Memory)
    requires AllOf(c.outBufs, memory)
    ensures AllOf(CtxStep(c, n, now, a).ctx.outBufs,
                  if (a.ActReqBufs? && a.out && !c.outQ.on) || (a.ActCreateBufs? && a.out && c.outBufs == [])
                  then a.memory else memory)
  {
    match a
    case ActStreamOnOut(params, mapped) => HeldKeepMemory(c, c.outQ.held, n, mapped, now, memory);
    case ActQBufOut(i, plane, mapped) => QBufKeepsMemory(c, n, i, plane, mapped, now, memory);
    case ActRun(mapped, cpu) => if CanRun(c) { RunKeepsMemory(c, n, mapped, now, cpu, memory); }
    case _ =>
  }

  lemma QBufKeepsMemory(c: Ctx, n: nat, i: nat, plane: Option<Plane>, mapped: bool, now: nat, memory: Memory)
    requires AllOf(c.outBufs, memory)
    ensures AllOf(QBufOut(c, n, i, plane, mapped, now).ctx.outBufs, memory)
  {
  }

  lemma RunKeepsMemory(c: Ctx, n: nat, mapped: bool, now: nat, cpu: nat, memory: Memory)
    requires CanRun(c) && AllOf(c.outBufs, memory)
    ensures AllOf(DeviceRun(c, n, mapped, now, cpu).ctx.outBufs, memory)
  {
  }

  /** In every run all OUTPUT buffers of a context are of the kind of memory last requested. */
  lemma {:induction false} MemoryInForce(d: Dev, es: seq<Event>, f: nat)
    requires Initial(d) && f in M2m.Run(d, es).ctxs
    ensures AllOf(M2m.Run(d, es).ctxs[f].outBufs, LastMemory(d, es, f))
  {
    if es != [] {
      var m := |es| - 1;
      var s, e := M2m.Run(d, es[..m]), es[m];
      MemoryInForce(d, es[..m], f);
      if e.ctx == f { StepMemory(s.ctxs[f], s.sequence, e.now, e.act, LastMemory(d, es[..m], f)); }
    }
  }

  // ---- QBUF ----

  /** The plane of a buffer as userspace hands it in: a prepared one keeps its memory. */
  function HandedIn(was: Plane, prepared: bool, plane: Option<Plane>): Plane {
    if plane.Some? && (!prepared || |plane.value| == |was|) then plane.value else was
  }

  /** Whether QBUF takes a buffer in state `s` with plane `p`, for images of `size` bytes. */
  predicate Taken(s: BufState, p: Plane, size: nat) {
    s == PREPARED || (s == DEQUEUED && size <= |p| < 0x1_0000_0000)
  }

  /** QBUF of CAPTURE, exactly: a buffer it takes waits, last in its queue, with the plane handed in. */
  lemma QueuedCapture(c: Ctx, n: nat, i: nat, plane: Option<Plane>)
    requires i < |c.capBufs|
    ensures var r, b := QBufCap(c, n, i, plane).ctx, c.capBufs[i];
      var p := HandedIn(b.plane, b.state == PREPARED, plane);
      && |r.capBufs| == |c.capBufs|
      && if Taken(b.state, p, c.capFmt.sizeimage) then
           && r.capBufs[i] == CapBuf(if c.capQ.on then ACTIVE else QUEUED, p, b.pending)
           && r.capQ == (if c.capQ.on then c.capQ.(ready := c.capQ.ready + [i]) else c.capQ.(held := c.capQ.held + [i]))
         else r.capQ == c.capQ && r.capBufs[i].state == b.state
  {
  }

  /**
   * QBUF of OUTPUT before STREAMON, exactly: a buffer it takes is held back last, with the plane
   * handed in. STREAMON releases what is held in that order, with consecutive tickets.
   */
  lemma QueuedOutput(c: Ctx, n: nat, i: nat, plane: Option<Plane>, mapped: bool, now: nat)
    requires i < |c.outBufs| && !c.outQ.on
    ensures var r, b := QBufOut(c, n, i, plane, mapped, now).ctx, c.outBufs[i];
      var p := HandedIn(b.plane, b.state == PREPARED, plane);
      && |r.outBufs| == |c.outBufs|
      && if Taken(b.state, p, c.outFmt.sizeimage) then
           r.outBufs[i] == b.(state := QUEUED, plane := p) && r.outQ == c.outQ.(held := c.outQ.held + [i])
         else r.outQ == c.outQ && r.outBufs[i].state == b.state
  {
  }

  /** `r` is `c` with the buffers of `list` made ready in that order, with consecutive tickets. */
  ghost predicate ReadyInOrder(c: Ctx, r: Ctx, list: seq<nat>) {
    && r.outQ == c.outQ.(ready := c.outQ.ready + list) && r.tickets == c.tickets + |list|
    && |r.outBufs| == |c.outBufs|
    && forall k :: 0 <= k < |list| ==>
         list[k] < |r.outBufs| && r.outBufs[list[k]].state == ACTIVE && r.outBufs[list[k]].ticket == c.tickets + k
  }

  lemma OneMoreReady(c: Ctx, r: Ctx, list: seq<nat>, i: nat, mapped: bool, now: nat)
    requires ReadyInOrder(c, r, list) && i !in list && i < |r.outBufs| && QueueSafe(r, i)
    ensures ReadyInOrder(c, BufQueueOut(r, i, mapped, now), list + [i])
  {
    assert c.outQ.ready + (list + [i]) == c.outQ.ready + list + [i];
  }

  lemma {:induction false} ReleasedInOrder(c: Ctx, list: seq<nat>, n: nat, mapped: bool, now: nat)
    requires Distinct(list) && (forall k :: 0 <= k < |list| ==> list[k] < |c.outBufs|)
    requires !QueueHeld(c, list, n, mapped, now).fault
    ensures ReadyInOrder(c, QueueHeld(c, list, n, mapped, now).ctx, list)
    decreases |list|
  {
    if list == [] {
      assert c.outQ.ready + [] == c.outQ.ready;
    } else {
      var m := |list| - 1;
      ReleasedInOrder(c, list[..m], n, mapped, now);
      OneMoreReady(c, QueueHeld(c, list[..m], n, mapped, now).ctx, list[..m], list[m], mapped, now);
      assert list == list[..m] + [list[m]];
    }
  }

  // ---- the event that queued a buffer ----

  /** `b` as `buf_queue` leaves it in context `c` at time `now`, with a ticket below `limit`. */
  ghost predicate NewBuffer(b: OutBuf, c: Ctx, now: nat, limit: nat) {
    && b.snap == c.ctl && b.qbufNs == now && c.tickets <= b.ticket < limit && b.desc.shape == Shape(c.outFmt)
    && (b.desc.backend == 0 || b.desc.backend == c.src.backend)
    && (b.desc.backend == 0 ==> b.desc == Source.FrameDesc(0, 0, 0, 0, false, Shape(c.outFmt)))
    && (b.desc.backend == 1 || b.desc.backend == 2 ==> b.desc.sourceTs == now && b.desc.byteused == 0)
    && (b.desc.backend == 1 ==> !b.desc.dropped)
    && (b.desc.backend == 3 && c.outQ.on ==> VcamStamp(b.desc.sourceTs, c.src.producer, now))
  }

  /** The time a running vcam puts on its next frame; a stamp of 0 is replaced by the clock. */
  ghost predicate VcamStamp(ts: nat, p: P.Producer, now: nat) {
    && p.Vcam? && p.priv.Some?
    && (var v := p.priv.value;
        var t := (v.baseTs + v.counters.framesProduced * v.interval) % 0x1_0000_0000_0000_0000;
        ts == if t == 0 then now else t)
  }

  lemma QueueIsNew(c: Ctx, i: nat, mapped: bool, now: nat)
    requires i < |c.outBufs| && QueueSafe(c, i) && HasBackend(c, c.src.backend)
    ensures var c' := BufQueueOut(c, i, mapped, now);
      NewBuffer(c'.outBufs[i], c, now, c'.tickets) && c' == c.(src := c'.src, outBufs := c'.outBufs, outQ := c'.outQ,
                                                              tickets := c.tickets + 1)
  {
  }

  /** Every buffer of `c'` that waits for a job waited in `c` or was queued in between. */
  ghost predicate Follow(c: Ctx, c': Ctx, now: nat) {
    forall i :: 0 <= i < |c'.outBufs| && c'.outBufs[i].state == ACTIVE ==>
      (i < |c.outBufs| && c'.outBufs[i] == c.outBufs[i]) || NewBuffer(c'.outBufs[i], c, now, c'.tickets)
  }

  lemma NewerBuffer(b: OutBuf, c: Ctx, c1: Ctx, now: nat, limit: nat, limit': nat)
    requires NewBuffer(b, c1, now, limit) && limit <= limit' && c.tickets <= c1.tickets
    requires c1.ctl == c.ctl && c1.outFmt == c.outFmt && c1.src.backend == c.src.backend && c1.outQ.on == c.outQ.on
    requires c.outQ.on ==> c1.src == c.src
    ensures NewBuffer(b, c, now, limit')
  {
  }

  lemma {:induction false} HeldFollow(c: Ctx, list: seq<nat>, n: nat, mapped: bool, now: nat)
    requires HasBackend(c, c.src.backend) && !c.outQ.on
    ensures Follow(c, QueueHeld(c, list, n, mapped, now).ctx, now)
    decreases |list|
  {
    if list != [] {
      var front, i := list[..|list| - 1], list[|list| - 1];
      var r := QueueHeld(c, front, n, mapped, now);
      HeldFollow(c, front, n, mapped, now);
      HeldKeeps(c, front, n, mapped, now);
      if !r.fault && i < |r.ctx.outBufs| && QueueSafe(r.ctx, i) {
        QueueIsNew(r.ctx, i, mapped, now);
        OneQueued(c, r.ctx, i, mapped, now);
      }
    }
  }

  lemma OneQueued(c: Ctx, c1: Ctx, i: nat, mapped: bool, now: nat)
    requires i < |c1.outBufs| && QueueSafe(c1, i) && HasBackend(c1, c1.src.backend) && Follow(c, c1, now)
    requires c1.ctl == c.ctl && c1.outFmt == c.outFmt && c1.src.backend == c.src.backend && c.tickets <= c1.tickets
    requires c1.outQ.on == c.outQ.on && (c.outQ.on ==> c1.src == c.src)
    ensures Follow(c, BufQueueOut(c1, i, mapped, now), now)
  {
    QueueIsNew(c1, i, mapped, now);
    var c' := BufQueueOut(c1, i, mapped, now);
    forall j | 0 <= j < |c'.outBufs| && c'.outBufs[j].state == ACTIVE
      ensures (j < |c.outBufs| && c'.outBufs[j] == c.outBufs[j]) || NewBuffer(c'.outBufs[j], c, now, c'.tickets)
    {
      if j == i {
        NewerBuffer(c'.outBufs[i], c, c1, now, c'.tickets, c'.tickets);
      } else if NewBuffer(c1.outBufs[j], c, now, c1.tickets) {
        NewerBuffer(c1.outBufs[j], c, c, now, c1.tickets, c'.tickets);
      }
    }
  }

  lemma QBufFollow(c: Ctx, n: nat, i: nat, plane: Option<Plane>, mapped: bool, now: nat)
    requires HasBackend(c, c.src.backend)
    ensures Follow(c, QBufOut(c, n, i, plane, mapped, now).ctx, now)
  {
    if i < |c.outBufs| && InUser(c.outBufs[i].state) {
      var b := Handed(c.outBufs[i], plane);
      var c1 := PutOut(c, i, b);
      if c.outQ.on && Passes(c.outFmt, b.state, b.plane) && QueueSafe(c1, i) { OneQueued(c, c1, i, mapped, now); }
    }
  }

  lemma StepFollow(c: Ctx, n: nat, now: nat, a: Action)
    requires HasBackend(c, c.src.backend)
    ensures Follow(c, CtxStep(c, n, now, a).ctx, now)
  {
    match a
    case ActQBufOut(i, plane, mapped) => QBufFollow(c, n, i, plane, mapped, now);
    case ActStreamOnOut(params, mapped) => if !c.outQ.on { HeldFollow(c, c.outQ.held, n, mapped, now); }
    case ActRun(mapped, cpu) => if CanRun(c) { RunFollow(c, n, mapped, now, cpu); }
    case _ => QuietFollow(c, n, now, a);
  }

  lemma RunFollow(c: Ctx, n: nat, mapped: bool, now: nat, cpu: nat)
    requires CanRun(c)
    ensures Follow(c, DeviceRun(c, n, mapped, now, cpu).ctx, now)
  {
  }

  lemma QuietFollow(c: Ctx, n: nat, now: nat, a: Action)
    requires !a.ActQBufOut? && !a.ActStreamOnOut? && !a.ActRun?
    ensures Follow(c, CtxStep(c, n, now, a).ctx, now)
  {
  }

  /**
   * Event `p` put `b` into the ready queue of context `f`: a QBUF, or the STREAMON that released
   * held buffers. The buffer carries the controls last written before that event and its time.
   */
  ghost predicate QueuedBy(d: Dev, es: seq<Event>, f: nat, b: OutBuf, p: nat) {
    && p < |es| && es[p].ctx == f && (es[p].act.ActQBufOut? || es[p].act.ActStreamOnOut?)
    && f in At(d, es, p).ctxs && f in At(d, es, p + 1).ctxs
    && NewBuffer(b, At(d, es, p).ctxs[f], es[p].now, At(d, es, p + 1).ctxs[f].tickets)
    && HoldsWrites(b.snap, es[..p], f)
  }

  lemma QueuedEarlier(d: Dev, es: seq<Event>, m: nat, f: nat, b: OutBuf, p: nat)
    requires m <= |es| && QueuedBy(d, es[..m], f, b, p)
    ensures QueuedBy(d, es, f, b, p)
  {
    AtFront(d, es, m, p);
    AtFront(d, es, m, p + 1);
    assert es[..m][..p] == es[..p];
  }

  /** Nothing else makes a buffer new. */
  lemma OnlyQueueing(c: Ctx, n: nat, now: nat, a: Action)
    requires !a.ActQBufOut? && !a.ActStreamOnOut?
    ensures CtxStep(c, n, now, a).ctx.tickets == c.tickets
  {
  }

  /** In every run, every buffer waiting for a job was queued by some event. */
  lemma {:induction false} BufferTrace(d: Dev, es: seq<Event>, f: nat, i: nat) returns (p: nat)
    requires Initial(d) && f in M2m.Run(d, es).ctxs && i < |M2m.Run(d, es).ctxs[f].outBufs|
    requires M2m.Run(d, es).ctxs[f].outBufs[i].state == ACTIVE
    ensures QueuedBy(d, es, f, M2m.Run(d, es).ctxs[f].outBufs[i], p)
    decreases |es|
  {
    var m := |es| - 1;
    var s, e, c' := M2m.Run(d, es[..m]), es[m], M2m.Run(d, es).ctxs[f];
    SameContexts(d, es);
    SameContexts(d, es[..m]);
    var c := s.ctxs[f];
    BackendInForce(d, es[..m], f);
    if e.ctx == f && !s.faulted { StepFollow(c, s.sequence, e.now, e.act); }
    if i < |c.outBufs| && c'.outBufs[i] == c.outBufs[i] {
      p := BufferTrace(d, es[..m], f, i);
      QueuedEarlier(d, es, m, f, c'.outBufs[i], p);
    } else {
      p := m;
      ControlsWritten(d, es[..m], f);
      if !e.act.ActQBufOut? && !e.act.ActStreamOnOut? { OnlyQueueing(c, s.sequence, e.now, e.act); }
      assert es[..m + 1] == es;
    }
  }

  // ---- the event that ran a job ----

  /** What a device run finds in context `c`, apart from the time, the processor and the mapping. */
  ghost predicate FoundIn(v: Given, c: Ctx) {
    && c.outQ.ready != [] && c.outQ.ready[0] < |c.outBufs| && v.src == c.outBufs[c.outQ.ready[0]]
    && c.capQ.ready != [] && c.capQ.ready[0] < |c.capBufs| && v.index == c.capQ.ready[0]
    && v.was == c.capBufs[v.index].plane && v.outFmt == c.outFmt && v.capFmt == c.capFmt
    && v.left == |c.outQ.ready| - 1
  }

  /** Both buffers left the ready queues for the done lists, good or in error as the job was. */
  ghost predicate Returns(j: Job, c: Ctx, c': Ctx)
    requires FoundIn(j.given, c)
  {
    var i, d := c.outQ.ready[0], j.given.index;
    && |c'.outBufs| == |c.outBufs| && |c'.capBufs| == |c.capBufs|
    && c'.outBufs[i].state == c'.capBufs[d].state == (if j.ok then DONE else ERROR)
    && c'.outQ == c.outQ.(ready := c.outQ.ready[1..], done := c.outQ.done + [i])
    && c'.capQ == c.capQ.(ready := c.capQ.ready[1..], done := c.capQ.done + [d])
  }

  /** Event `e` takes the device from `s` to `s'` and context `f` through job `j`. */
  ghost predicate Ran(s: Dev, e: Event, s': Dev, f: nat, j: Job) {
    && e.ctx == f && e.act == ActRun(j.given.mapped, j.given.cpu) && e.now == j.given.now
    && f in s.ctxs && f in s'.ctxs && FoundIn(j.given, s.ctxs[f]) && Returns(j, s.ctxs[f], s'.ctxs[f])
  }

  /** Event `q` ran job `j` of context `f`: `j` records what it found, and the event returned both buffers. */
  ghost predicate RanBy(d: Dev, es: seq<Event>, f: nat, j: Job, q: nat) {
    q < |es| && Ran(At(d, es, q), es[q], At(d, es, q + 1), f, j)
  }

  lemma RanEarlier(d: Dev, es: seq<Event>, m: nat, f: nat, j: Job, q: nat)
    requires m <= |es| && RanBy(d, es[..m], f, j, q)
    ensures RanBy(d, es, f, j, q)
  {
    AtFront(d, es, m, q);
    AtFront(d, es, m, q + 1);
  }

  /** A step adds no job, or a device run adds the one it ran. */
  lemma JobsFollow(c: Ctx, n: nat, now: nat, a: Action)
    ensures var c' := CtxStep(c, n, now, a).ctx;
      || c'.jobs == c.jobs
      || (|c'.jobs| == |c.jobs| + 1 && c'.jobs[..|c.jobs|] == c.jobs
          && (var j := c'.jobs[|c.jobs|];
              && a == ActRun(j.given.mapped, j.given.cpu) && j.given.now == now
              && FoundIn(j.given, c) && Returns(j, c, c')))
  {
    if a.ActRun? {
      if CanRun(c) { RunAddsJob(c, n, a.mapped, now, a.cpu); }
    } else {
      Jobs.OnlyRuns(c, n, now, a);
    }
  }

  lemma RunAddsJob(c: Ctx, n: nat, mapped: bool, now: nat, cpu: nat)
    requires CanRun(c)
    ensures var c' := DeviceRun(c, n, mapped, now, cpu).ctx;
      || c'.jobs == c.jobs
      || (|c'.jobs| == |c.jobs| + 1 && c'.jobs[..|c.jobs|] == c.jobs
          && (var j := c'.jobs[|c.jobs|];
              && j.given.mapped == mapped && j.given.cpu == cpu && j.given.now == now
              && FoundIn(j.given, c) && Returns(j, c, c')))
  {
  }

  lemma {:induction false} RunTrace(d: Dev, es: seq<Event>, f: nat, k: nat) returns (q: nat)
    requires Initial(d) && f in M2m.Run(d, es).ctxs && k < |M2m.Run(d, es).ctxs[f].jobs|
    ensures RanBy(d, es, f, M2m.Run(d, es).ctxs[f].jobs[k], q)
    decreases |es|
  {
    var m := |es| - 1;
    SameContexts(d, es);
    SameContexts(d, es[..m]);
    var s, s' := M2m.Run(d, es[..m]), M2m.Run(d, es);
    StepRan(s, es[m], s', f);
    if k < |s.ctxs[f].jobs| {
      q := RunTrace(d, es[..m], f, k);
      RanEarlier(d, es, m, f, s.ctxs[f].jobs[k], q);
    } else {
      q := m;
      LastRan(d, es, f, s'.ctxs[f].jobs[k]);
    }
  }

  /** A step adds no job to `f`, or runs the one job it adds. */
  lemma StepRan(s: Dev, e: Event, s': Dev, f: nat)
    requires s' == Step(s, e) && f in s.ctxs
    ensures f in s'.ctxs
    ensures var jobs, jobs' := s.ctxs[f].jobs, s'.ctxs[f].jobs;
      jobs' == jobs || (|jobs'| == |jobs| + 1 && jobs'[..|jobs|] == jobs && Ran(s, e, s', f, jobs'[|jobs|]))
  {
    if e.ctx == f && !s.faulted { JobsFollow(s.ctxs[f], s.sequence, e.now, e.act); }
  }

  lemma LastRan(d: Dev, es: seq<Event>, f: nat, j: Job)
    requires es != [] && Ran(M2m.Run(d, es[..|es| - 1]), es[|es| - 1], M2m.Run(d, es), f, j)
    ensures RanBy(d, es, f, j, |es| - 1)
  {
    assert es[..|es|] == es;
  }

  /**
   * Every job of every run, from its events: some event `p` queued its OUTPUT buffer, with the
   * controls last written before it, and a later event `q` ran it on the heads of both queues.
   */
  lemma JobTrace(d: Dev, es: seq<Event>, f: nat, k: nat) returns (p: nat, q: nat)
    requires Initial(d) && f in M2m.Run(d, es).ctxs && k < |M2m.Run(d, es).ctxs[f].jobs|
    ensures var j := M2m.Run(d, es).ctxs[f].jobs[k];
      p < q && RanBy(d, es, f, j, q) && QueuedBy(d, es, f, j.given.src, p)
  {
    q := RunTrace(d, es, f, k);
    var j := M2m.Run(d, es).ctxs[f].jobs[k];
    var c := At(d, es, q).ctxs[f];
    Provenance.RunKeepsDev(d, es[..q]);
    assert Provenance.CtxOk(c);
    p := BufferTrace(d, es[..q], f, c.outQ.ready[0]);
    QueuedEarlier(d, es, q, f, j.given.src, p);
  }

  // ---- the event that published an entry ----

  lemma {:induction false} FinishStamps(bufs: seq<CapBuf>, k: nat, now: nat)
    requires k <= |bufs|
    ensures forall e :: e in FinishFirst(bufs, k, now).1 ==> e.dqbufTs == now
  {
    if k > 0 { FinishStamps(bufs, k - 1, now); }
  }

  /** What is published carries the time of the call, and a device run publishes nothing. */
  lemma PubsStamped(c: Ctx, n: nat, now: nat, a: Action)
    ensures forall e :: e in CtxStep(c, n, now, a).pubs ==> e.dqbufTs == now && !a.ActRun?
  {
    if a.ActStreamOffCap? { FinishStamps(c.capBufs, |c.capBufs|, now); }
    if a.ActStreamOnOut? { HeldKeeps(c, c.outQ.held, n, a.mapped, now); }
  }

  /** Event `r` appended entry `i` of the log, for its own context and at its own time. */
  ghost predicate PublishedBy(d: Dev, es: seq<Event>, i: nat, r: nat) {
    && r < |es| && |At(d, es, r).log| <= i < |At(d, es, r + 1).log|
    && (var x := At(d, es, r + 1).log[i]; x.0 == es[r].ctx && x.1.dqbufTs == es[r].now && !es[r].act.ActRun?)
  }

  lemma {:induction false} PublishTrace(d: Dev, es: seq<Event>, i: nat) returns (r: nat)
    requires d.log == [] && i < |M2m.Run(d, es).log|
    ensures PublishedBy(d, es, i, r) && At(d, es, r + 1).log[i] == M2m.Run(d, es).log[i]
    decreases |es|
  {
    var m := |es| - 1;
    if i < |M2m.Run(d, es[..m]).log| {
      LogKept(M2m.Run(d, es[..m]), es[m], i);
      r := PublishTrace(d, es[..m], i);
      AtFront(d, es, m, r);
      AtFront(d, es, m, r + 1);
    } else {
      r := m;
      LastPublished(d, es, i);
    }
  }

  lemma LastPublished(d: Dev, es: seq<Event>, i: nat)
    requires es != [] && |M2m.Run(d, es[..|es| - 1]).log| <= i < |M2m.Run(d, es).log|
    ensures PublishedBy(d, es, i, |es| - 1) && At(d, es, |es|).log[i] == M2m.Run(d, es).log[i]
  {
    StepPublishes(M2m.Run(d, es[..|es| - 1]), es[|es| - 1], i);
    assert es[..|es|] == es;
  }

  lemma LogKept(s: Dev, e: Event, i: nat)
    requires i < |s.log|
    ensures i < |Step(s, e).log| && Step(s, e).log[i] == s.log[i]
  {
  }

  lemma StepPublishes(s: Dev, e: Event, i: nat)
    requires |s.log| <= i < |Step(s, e).log|
    ensures var x := Step(s, e).log[i]; x.0 == e.ctx && x.1.dqbufTs == e.now && !e.act.ActRun?
  {
    PubsStamped(s.ctxs[e.ctx], s.sequence, e.now, e.act);
    var pubs := CtxStep(s.ctxs[e.ctx], s.sequence, e.now, e.act).pubs;
    assert Step(s, e).log[i].1 == pubs[i - |s.log|];
  }

  /** What an entry reports of control writes `es`, a frame size and the memory of the OUTPUT buffers. */
  ghost predicate ReportsWrites(e: Meta.Entry, es: seq<Event>, f: nat, size: (nat, nat), memory: Memory) {
    var w, h := Granted(size.0), Granted(size.1);
    var k := Cv.KernelClamp(w, h, Some(WrittenRoi(es, f)));
    && e.srcSequence == Written(es, f, SrcSequence, 0) % 0x1_0000_0000
    && e.algoId == Written(es, f, Algo, 0) % 0x1_0000_0000
    && e.roiLeft == k.left && e.roiTop == k.top && e.roiWidth == k.width && e.roiHeight == k.height
    && e.bytesused == w * h && e.algoStatus == 0 && e.bufferType == (if memory == MMAP then 1 else 4)
    && (e.algoId == 0 ==> e.value0 == 0 && e.value1 == 0)
    && (e.algoId == 1 ==> e.value0 + e.value1 == k.width * k.height)
  }

  lemma WritesReported(e: Meta.Entry, j: Job, es: seq<Event>, f: nat, size: (nat, nat), c: Ctx)
    requires Jobs.Describes(e, j) && HoldsWrites(j.given.src.snap, es, f)
    requires HasSize(c, size) && j.given.outFmt == c.outFmt
    ensures ReportsWrites(e, es, f, size, j.given.src.memory)
  {
    var v, w, h := j.given, Granted(size.0), Granted(size.1);
    var g := Cv.Geometry(w, h, w, w);
    Cv.CountsPartitionRoi(v.src.plane, v.was, g, v.src.snap.threshold, Some(v.src.snap.roi));
  }

  /** Event `p` queued the buffer and event `q` ran the job that entry `e` of context `f` describes. */
  ghost predicate Traced(d: Dev, es: seq<Event>, f: nat, e: Meta.Entry, j: Job, p: nat, q: nat) {
    p < q && RanBy(d, es, f, j, q) && QueuedBy(d, es, f, j.given.src, p) && Jobs.Describes(e, j)
  }

  lemma TracedEarlier(d: Dev, es: seq<Event>, m: nat, f: nat, e: Meta.Entry, j: Job, p: nat, q: nat)
    requires m <= |es| && Traced(d, es[..m], f, e, j, p, q)
    ensures Traced(d, es, f, e, j, p, q)
  {
    RanEarlier(d, es, m, f, j, q);
    QueuedEarlier(d, es, m, f, j.given.src, p);
  }

  lemma TracedReports(d: Dev, es: seq<Event>, f: nat, e: Meta.Entry, j: Job, p: nat, q: nat)
    requires Initial(d) && Traced(d, es, f, e, j, p, q)
    ensures e.qbufTs == es[p].now && e.captureDoneTs == es[q].now
    ensures ReportsWrites(e, es[..p], f, LastSize(d, es[..q], f), LastMemory(d, es[..q], f))
  {
    MemoryInForce(d, es[..q], f);
    FormatInForce(d, es[..q], f);
    WritesReported(e, j, es[..p], f, LastSize(d, es[..q], f), At(d, es, q).ctxs[f]);
  }

  lemma JobOfEntry(d: Dev, es: seq<Event>, i: nat) returns (j: Job, p: nat, q: nat)
    requires Initial(d) && i < |M2m.Run(d, es).log|
    ensures Traced(d, es, M2m.Run(d, es).log[i].0, M2m.Run(d, es).log[i].1, j, p, q)
  {
    var k := Jobs.PublishedEntryOfJob(d, es, i);
    var f := M2m.Run(d, es).log[i].0;
    var jobs := M2m.Run(d, es).ctxs[f].jobs;
    j := Jobs.Succeeded(jobs)[k];
    var m :| 0 <= m < |jobs| && jobs[m] == j;
    p, q := JobTrace(d, es, f, m);
  }

  /**
   * Every published entry of every run, from its events: `p` queued the OUTPUT buffer, `q` ran the
   * job and `r` published the entry, in that order, and the entry carries their three times. It
   * describes that job, and its controls and region are the values last written before `p`, the
   * region clamped to the size last accepted before `q`.
   */
  lemma EntryTrace(d: Dev, es: seq<Event>, i: nat) returns (j: Job, p: nat, q: nat, r: nat)
    requires Initial(d) && i < |M2m.Run(d, es).log|
    ensures var f, e := M2m.Run(d, es).log[i].0, M2m.Run(d, es).log[i].1;
      && p < q < r < |es| && PublishedBy(d, es, i, r) && Traced(d, es, f, e, j, p, q)
      && e.qbufTs == es[p].now && e.captureDoneTs == es[q].now && e.dqbufTs == es[r].now
      && ReportsWrites(e, es[..p], f, LastSize(d, es[..q], f), LastMemory(d, es[..q], f))
  {
    r := PublishTrace(d, es, i);
    j, p, q := JobOfEntry(d, es[..r + 1], i);
    var x := M2m.Run(d, es).log[i];
    RunsBefore(d, es, x.0, j, q, r);
    TracedEarlier(d, es, r + 1, x.0, x.1, j, p, q);
    TracedReports(d, es, x.0, x.1, j, p, q);
  }

  lemma RunsBefore(d: Dev, es: seq<Event>, f: nat, j: Job, q: nat, r: nat)
    requires r < |es| && !es[r].act.ActRun? && RanBy(d, es[..r + 1], f, j, q)
    ensures q < r
  {
    assert es[..r + 1][r] == es[r];
  }
}
