/**
 * Jobs, sequence numbers and metadata over every run: the successful jobs of a context are
 * exactly the ones that took a number, in order, and every entry that is pending or published
 * is the entry of the job that took its number, and describes what that job did.
 */
module Jobs {
  import opened Base
  import opened M2m
  import Crc32
  import Cv
  import ExactlyOnce
  import Geometry
  import Meta

  /** The successful jobs, in the order they ran. */
  function Succeeded(jobs: seq<Job>): seq<Job> {
    if jobs == [] then []
    else Succeeded(jobs[..|jobs| - 1]) + if jobs[|jobs| - 1].ok then [jobs[|jobs| - 1]] else []
  }

  lemma SucceededPush(jobs: seq<Job>, j: Job)
    ensures Succeeded(jobs + [j]) == Succeeded(jobs) + if j.ok then [j] else []
  {
    assert (jobs + [j])[..|jobs|] == jobs;
  }

  /** Entry `e` is the one that successful job `k` left, with that job's number. */
  ghost predicate EntryOf(jobs: seq<Job>, numbers: seq<nat>, e: Meta.Entry, k: nat) {
    && k < |Succeeded(jobs)| && k < |numbers| && numbers[k] == e.seqNo
    && Succeeded(jobs)[k].entry == e.(seqNo := 0, dqbufTs := 0)
  }

  ghost predicate Reports(e: Meta.Entry, r: Cv.CvResult) {
    && e.algoStatus == r.status && e.value0 == r.value0 && e.value1 == r.value1
    && e.roiLeft == r.roi.left && e.roiTop == r.roi.top && e.roiWidth == r.roi.width && e.roiHeight == r.roi.height
  }

  /** The image work the formats and the snapshotted controls ask for, done on the two planes the job found. */
  ghost predicate WorkDone(j: Job, e: Meta.Entry)
    requires j.given.capFmt == j.given.outFmt && Geometry.FmtOk(j.given.outFmt)
  {
    var v, snap, f := j.given, j.given.src.snap, j.given.outFmt;
    var g := Cv.Geometry(f.width, f.height, f.stride, f.stride);
    && Cv.Fits(g, |v.src.plane|, |v.was|)
    && (var p := Cv.Processed(v.src.plane, v.was, g, snap.algo, snap.threshold, Some(snap.roi));
        p.Some? && p.value.0 == j.bytes && Reports(e, p.value.1))
  }

  /** The stamps a job copies: the OUTPUT buffer's own, the CAPTURE index, the time, the backlog, the processor. */
  ghost predicate Stamps(e: Meta.Entry, v: Given) {
    && e.version == 2 && e.entrySize == 120
    && e.flags == Meta.Flags(false, false, v.src.desc.dropped)
    && e.bufferType == (if v.src.memory == MMAP then 1 else 4)
    && e.algoId == v.src.snap.algo && e.srcSequence == v.src.snap.srcSequence
    && e.sourceTs == v.src.desc.sourceTs && e.sourceBackend == v.src.desc.backend && e.qbufTs == v.src.qbufNs
    && e.bufferIndex == v.index && e.captureDoneTs == v.now && e.queueDepth == v.left && e.cpuId == v.cpu
  }

  /**
   * What an entry says about a job, field by field: the image work on the whole frame in the
   * formats in force, the length and the checksum of that frame in the bytes left behind, and
   * the stamps.
   */
  ghost predicate Describes(e: Meta.Entry, j: Job) {
    var f := j.given.outFmt;
    && j.given.capFmt == f && Geometry.FmtOk(f) && WorkDone(j, e) && Stamps(e, j.given)
    && e.bytesused == f.width * f.height <= |j.bytes| && e.crc32 == Crc32.BitwiseCrc(j.bytes[..e.bytesused])
  }

  predicate KnownAlgo(algo: u32) { algo == 0 || algo == 1 }

  /** A job succeeds exactly when both planes are mapped and the snapshotted algorithm is known. */
  ghost predicate JobOk(j: Job) {
    (j.ok <==> j.given.mapped && KnownAlgo(j.given.src.snap.algo)) && (j.ok ==> Describes(j.entry, j))
  }

  /** Successful job `k` left its entry and its bytes in CAPTURE buffer `i`. */
  ghost predicate LeftIn(c: Ctx, i: nat, k: nat)
    requires i < |c.capBufs|
  {
    && EntryOf(c.jobs, c.numbers, c.capBufs[i].pending, k)
    && Succeeded(c.jobs)[k].bytes == c.capBufs[i].plane && Succeeded(c.jobs)[k].given.index == i
  }

  /** A buffer with a pending entry holds the bytes of the job the entry belongs to, which ran on this very buffer. */
  ghost predicate PendingOk(c: Ctx, i: nat)
    requires i < |c.capBufs|
  {
    c.capBufs[i].pending.seqNo != 0 ==> exists k: nat :: LeftIn(c, i, k)
  }

  ghost predicate CtxOk(c: Ctx) {
    && |Succeeded(c.jobs)| == |c.numbers| && (forall m :: 0 <= m < |c.jobs| ==> JobOk(c.jobs[m]))
    && (forall i :: 0 <= i < |c.capBufs| ==> PendingOk(c, i))
  }

  ghost predicate HasJob(c: Ctx, e: Meta.Entry) { exists k: nat :: EntryOf(c.jobs, c.numbers, e, k) }

  // ---- one step ----

  lemma {:induction false} HeldJobs(c: Ctx, list: seq<nat>, n: nat, mapped: bool, now: nat)
    ensures QueueHeld(c, list, n, mapped, now).ctx.jobs == c.jobs
    decreases |list|
  {
    if list != [] { HeldJobs(c, list[..|list| - 1], n, mapped, now); }
  }

  /** Only a device run adds a job or takes a number. */
  lemma OnlyRuns(c: Ctx, n: nat, now: nat, a: Action)
    requires !a.ActRun?
    ensures var c' := CtxStep(c, n, now, a).ctx; c'.jobs == c.jobs && c'.numbers == c.numbers
  {
    if ExactlyOnce.LeavesCapture(a) { ExactlyOnce.CaptureLeft(c, n, now, a); }
    if a.ActStreamOnOut? { HeldJobs(c, c.outQ.held, n, a.mapped, now); }
  }

  /** A buffer whose pending entry and bytes stay, or whose entry is gone. */
  ghost predicate StillPending(b: CapBuf, b': CapBuf) {
    b'.pending.seqNo == 0 || (b'.pending == b.pending && b'.plane == b.plane)
  }

  /** Buffer `i` owes nothing, or what it owed before. */
  ghost predicate Follows(bufs: seq<CapBuf>, bufs': seq<CapBuf>, i: nat)
    requires i < |bufs'|
  {
    bufs'[i].pending.seqNo == 0 || (i < |bufs| && StillPending(bufs[i], bufs'[i]))
  }

  lemma PendingKept(c: Ctx, c': Ctx)
    requires CtxOk(c) && c'.jobs == c.jobs && c'.numbers == c.numbers
    requires forall i :: 0 <= i < |c'.capBufs| ==> Follows(c.capBufs, c'.capBufs, i)
    ensures CtxOk(c')
  {
    forall i | 0 <= i < |c'.capBufs|
      ensures PendingOk(c', i)
    {
      assert Follows(c.capBufs, c'.capBufs, i);
      if c'.capBufs[i].pending.seqNo != 0 {
        assert PendingOk(c, i);
        var k: nat :| LeftIn(c, i, k);
        assert LeftIn(c', i, k);
      }
    }
  }

  /** What a stream-off publishes are pending entries, stamped. */
  lemma {:induction false} FinishSource(bufs: seq<CapBuf>, m: nat, now: nat, e: Meta.Entry)
    requires m <= |bufs| && e in FinishFirst(bufs, m, now).1
    ensures exists i :: 0 <= i < m && bufs[i].pending.seqNo != 0 && e == bufs[i].pending.(dqbufTs := now)
  {
    if e in FinishFirst(bufs, m - 1, now).1 {
      FinishSource(bufs, m - 1, now, e);
    } else {
      ExactlyOnce.FinishKeepsRest(bufs, m - 1, now);
    }
  }

  lemma PublishedPending(c: Ctx, i: nat, now: nat)
    requires CtxOk(c) && i < |c.capBufs| && c.capBufs[i].pending.seqNo != 0
    ensures HasJob(c, c.capBufs[i].pending.(dqbufTs := now))
  {
    assert PendingOk(c, i);
    var e := c.capBufs[i].pending;
    var k: nat :| LeftIn(c, i, k);
    assert EntryOf(c.jobs, c.numbers, e.(dqbufTs := now), k);
  }

  lemma StepPublishes(c: Ctx, n: nat, now: nat, a: Action, e: Meta.Entry)
    requires CtxOk(c) && e in CtxStep(c, n, now, a).pubs
    ensures HasJob(c, e)
  {
    if ExactlyOnce.LeavesCapture(a) {
      ExactlyOnce.CaptureLeft(c, n, now, a);
    } else if a.ActStreamOffCap? {
      FinishSource(c.capBufs, |c.capBufs|, now, e);
      var i :| 0 <= i < |c.capBufs| && c.capBufs[i].pending.seqNo != 0 && e == c.capBufs[i].pending.(dqbufTs := now);
      PublishedPending(c, i, now);
    } else {
      PublishedPending(c, c.capQ.done[0], now);
    }
  }

  /** The numbers and entries of earlier jobs stay theirs when a job is added. */
  lemma EntryStays(jobs: seq<Job>, numbers: seq<nat>, j: Job, more: seq<nat>, e: Meta.Entry, k: nat)
    requires EntryOf(jobs, numbers, e, k)
    ensures EntryOf(jobs + [j], numbers + more, e, k) && Succeeded(jobs + [j])[k] == Succeeded(jobs)[k]
  {
    SucceededPush(jobs, j);
  }

  lemma OthersPending(c: Ctx, c': Ctx, j: Job, more: seq<nat>, i: nat)
    requires CtxOk(c) && c'.jobs == c.jobs + [j] && c'.numbers == c.numbers + more
    requires i < |c.capBufs| && i < |c'.capBufs| && StillPending(c.capBufs[i], c'.capBufs[i])
    ensures PendingOk(c', i)
  {
    assert PendingOk(c, i);
    if c'.capBufs[i].pending.seqNo != 0 {
      var k: nat :| LeftIn(c, i, k);
      EntryStays(c.jobs, c.numbers, j, more, c.capBufs[i].pending, k);
      assert LeftIn(c', i, k);
    }
  }

  lemma JobAdded(c: Ctx, c': Ctx, j: Job, more: seq<nat>)
    requires CtxOk(c) && JobOk(j) && c'.jobs == c.jobs + [j]
    requires c'.numbers == c.numbers + more && |more| == if j.ok then 1 else 0
    requires |c'.capBufs| == |c.capBufs| && forall i :: 0 <= i < |c'.capBufs| ==> PendingOk(c', i)
    ensures CtxOk(c')
  {
    SucceededPush(c.jobs, j);
  }

  lemma FailedKeeps(c: Ctx, mapped: bool, now: nat, cpu: nat)
    requires CtxOk(c) && CanRun(c) && !(mapped && KnownAlgo(c.outBufs[c.outQ.ready[0]].snap.algo))
    ensures CtxOk(FailedJob(c, mapped, now, cpu))
  {
    var c', j := FailedJob(c, mapped, now, cpu), Job(JobGiven(c, mapped, now, cpu), false, [], BLANK);
    assert c.numbers + [] == c.numbers;
    forall i | 0 <= i < |c'.capBufs| ensures PendingOk(c', i) { OthersPending(c, c', j, [], i); }
    JobAdded(c, c', j, []);
  }

  /** A successful job as history records it. */
  function Made(c: Ctx, n: nat, now: nat, cpu: nat): Job
    requires CanRun(c) && RunSafe(c) && JobOutput(c).Some?
  {
    var (out, r) := JobOutput(c).value;
    Job(JobGiven(c, true, now, cpu), true, out, JobEntry(c, n, out, r, now, cpu).(seqNo := 0))
  }

  /** The entry of a successful job describes it. */
  lemma EntryDescribes(c: Ctx, n: nat, now: nat, cpu: nat)
    requires CanRun(c) && RunSafe(c) && JobOutput(c).Some? && Geometry.FormatsOk(c)
    ensures var j := Made(c, n, now, cpu); Describes(j.entry, j)
  {
  }

  lemma NewPending(c: Ctx, c': Ctx, j: Job, m: nat, d: nat)
    requires |Succeeded(c.jobs)| == |c.numbers| && c'.jobs == c.jobs + [j] && c'.numbers == c.numbers + [m] && j.ok
    requires d < |c'.capBufs| && c'.capBufs[d].pending.seqNo == m && c'.capBufs[d].plane == j.bytes
    requires j.given.index == d
    requires j.entry == c'.capBufs[d].pending.(seqNo := 0, dqbufTs := 0)
    ensures PendingOk(c', d)
  {
    SucceededPush(c.jobs, j);
    assert LeftIn(c', d, |c.numbers|);
  }

  lemma SuccessKeeps(c: Ctx, n: nat, now: nat, cpu: nat)
    requires CtxOk(c) && CanRun(c) && RunSafe(c) && JobOutput(c).Some? && Geometry.FormatsOk(c)
    ensures CtxOk(DeviceRun(c, n, true, now, cpu).ctx)
  {
    var c', d, j := DeviceRun(c, n, true, now, cpu).ctx, c.capQ.ready[0], Made(c, n + 1, now, cpu);
    EntryDescribes(c, n + 1, now, cpu);
    NewPending(c, c', j, n + 1, d);
    forall i | 0 <= i < |c'.capBufs| ensures PendingOk(c', i) { if i != d { OthersPending(c, c', j, [n + 1], i); } }
    JobAdded(c, c', j, [n + 1]);
  }

  lemma RunKeeps(c: Ctx, n: nat, mapped: bool, now: nat, cpu: nat)
    requires CtxOk(c) && CanRun(c) && Geometry.FormatsOk(c)
    ensures CtxOk(DeviceRun(c, n, mapped, now, cpu).ctx)
  {
    if !mapped {
      FailedKeeps(c, mapped, now, cpu);
    } else if RunSafe(c) {
      if JobOutput(c).Some? { SuccessKeeps(c, n, now, cpu); } else { FailedKeeps(c, mapped, now, cpu); }
    }
  }

  lemma CtxStepKeeps(c: Ctx, n: nat, now: nat, a: Action)
    requires CtxOk(c) && ExactlyOnce.CtxOk(c) && Geometry.FormatsOk(c)
    ensures CtxOk(CtxStep(c, n, now, a).ctx)
  {
    if a.ActRun? {
      if CanRun(c) { RunKeeps(c, n, a.mapped, now, a.cpu); }
    } else {
      OnlyRuns(c, n, now, a);
      NothingNew(c, n, now, a);
      PendingKept(c, CtxStep(c, n, now, a).ctx);
    }
  }

  /** Only a device run makes a buffer owe an entry. */
  lemma NothingNew(c: Ctx, n: nat, now: nat, a: Action)
    requires ExactlyOnce.PendingExact(c.capBufs) && !a.ActRun?
    ensures var bufs := CtxStep(c, n, now, a).ctx.capBufs;
      forall i :: 0 <= i < |bufs| ==> Follows(c.capBufs, bufs, i)
  {
    if ExactlyOnce.LeavesCapture(a) {
      ExactlyOnce.CaptureLeft(c, n, now, a);
    } else if a.ActStreamOffCap? {
      ExactlyOnce.FinishFirstClears(c.capBufs, |c.capBufs|, now);
    } else if a.ActQBufCap? {
      QueuedFollows(c, n, a.index, a.plane);
    } else if a.ActPrepare? {
      QueuedFollows(c, n, a.index, a.plane);
    } else {
      CaptureFollows(c, n, now, a);
    }
  }

  lemma QueuedFollows(c: Ctx, n: nat, i: nat, plane: Option<Plane>)
    requires ExactlyOnce.PendingExact(c.capBufs)
    ensures var bufs := QBufCap(c, n, i, plane).ctx.capBufs;
      |bufs| == |c.capBufs| && forall k :: 0 <= k < |bufs| ==> Follows(c.capBufs, bufs, k)
    ensures var bufs := PrepareCap(c, n, i, plane).ctx.capBufs;
      |bufs| == |c.capBufs| && forall k :: 0 <= k < |bufs| ==> Follows(c.capBufs, bufs, k)
  {
  }

  lemma CaptureFollows(c: Ctx, n: nat, now: nat, a: Action)
    requires a.ActStreamOnCap? || a.ActDqBufCap? || ((a.ActReqBufs? || a.ActCreateBufs?) && !a.out)
    ensures var bufs := CtxStep(c, n, now, a).ctx.capBufs;
      forall i :: 0 <= i < |bufs| ==> Follows(c.capBufs, bufs, i)
  {
  }

  // ---- whole runs ----

  ghost predicate DevOk(d: Dev) {
    && (forall f :: f in d.ctxs ==> CtxOk(d.ctxs[f]))
    && (forall i :: 0 <= i < |d.log| ==> d.log[i].0 in d.ctxs && HasJob(d.ctxs[d.log[i].0], d.log[i].1))
  }

  /** A step adds at most one job and keeps every entry's job. */
  lemma StepKeepsJob(c: Ctx, n: nat, now: nat, a: Action, e: Meta.Entry)
    requires HasJob(c, e)
    ensures HasJob(CtxStep(c, n, now, a).ctx, e)
  {
    var k: nat :| EntryOf(c.jobs, c.numbers, e, k);
    if a.ActRun? {
      var c' := CtxStep(c, n, now, a).ctx;
      if c'.jobs != c.jobs { JobsGrow(c, c', e, k); }
    } else {
      OnlyRuns(c, n, now, a);
    }
  }

  lemma JobsGrow(c: Ctx, c': Ctx, e: Meta.Entry, k: nat)
    requires EntryOf(c.jobs, c.numbers, e, k)
    requires c.jobs <= c'.jobs && |c'.jobs| == |c.jobs| + 1 && c.numbers <= c'.numbers
    ensures HasJob(c', e)
  {
    var j, more := c'.jobs[|c.jobs|], c'.numbers[|c.numbers|..];
    assert c'.jobs == c.jobs + [j] && c'.numbers == c.numbers + more;
    EntryStays(c.jobs, c.numbers, j, more, e, k);
  }

  lemma StepKeeps(d: Dev, e: Event)
    requires DevOk(d) && ExactlyOnce.DevOk(d) && forall f :: f in d.ctxs ==> Geometry.FormatsOk(d.ctxs[f])
    ensures DevOk(Step(d, e))
  {
    if e.ctx in d.ctxs && !d.faulted {
      var c, d' := d.ctxs[e.ctx], Step(d, e);
      CtxStepKeeps(c, d.sequence, e.now, e.act);
      forall i | 0 <= i < |d'.log|
        ensures d'.log[i].0 in d'.ctxs && HasJob(d'.ctxs[d'.log[i].0], d'.log[i].1)
      {
        LogEntry(d, e, i);
      }
    }
  }

  lemma LogEntry(d: Dev, e: Event, i: nat)
    requires DevOk(d) && e.ctx in d.ctxs && !d.faulted && i < |Step(d, e).log|
    ensures var d' := Step(d, e); d'.log[i].0 in d'.ctxs && HasJob(d'.ctxs[d'.log[i].0], d'.log[i].1)
  {
    var c, d' := d.ctxs[e.ctx], Step(d, e);
    var x := d'.log[i].1;
    if i < |d.log| {
      assert d'.log[i] == d.log[i];
    } else {
      StepPublishes(c, d.sequence, e.now, e.act, x);
    }
    if d'.log[i].0 == e.ctx { StepKeepsJob(c, d.sequence, e.now, e.act, x); }
  }

  lemma {:induction false} RunKeepsDev(d: Dev, es: seq<Event>)
    requires Initial(d)
    ensures DevOk(M2m.Run(d, es))
  {
    if es != [] {
      RunKeepsDev(d, es[..|es| - 1]);
      ExactlyOnce.RunKeepsDev(d, es[..|es| - 1]);
      Geometry.FormatsAlwaysAgree(d, es[..|es| - 1]);
      StepKeeps(M2m.Run(d, es[..|es| - 1]), es[|es| - 1]);
    }
  }

  /**
   * Jobs and sequence numbers, over every run. A job succeeds exactly when its planes are mapped
   * and its algorithm is known. The k-th successful job of a context took the k-th number the
   * context owns, so a failed job takes none; and that number is published once or pending once.
   */
  lemma JobsTakeNumbers(d: Dev, es: seq<Event>, f: nat)
    requires Initial(d) && f in d.ctxs
    ensures var s := M2m.Run(d, es);
      && f in s.ctxs && |Succeeded(s.ctxs[f].jobs)| == |ExactlyOnce.NumbersOf(s.owner, f)|
      && (forall m :: 0 <= m < |s.ctxs[f].jobs| ==> JobOk(s.ctxs[f].jobs[m]))
      && forall v :: v in ExactlyOnce.NumbersOf(s.owner, f) ==>
           ExactlyOnce.Count(ExactlyOnce.PublishedBy(s.log, f), v) + ExactlyOnce.Pending(s.ctxs[f].capBufs, v) == 1
  {
    RunKeepsDev(d, es);
    ExactlyOnce.RunKeepsDev(d, es);
    var s := M2m.Run(d, es);
    assert CtxOk(s.ctxs[f]) && s.ctxs[f].numbers == ExactlyOnce.NumbersOf(s.owner, f);
    forall v | v in ExactlyOnce.NumbersOf(s.owner, f)
      ensures ExactlyOnce.Count(ExactlyOnce.PublishedBy(s.log, f), v) + ExactlyOnce.Pending(s.ctxs[f].capBufs, v) == 1
    {
      NumberOwned(s.owner, f, v);
      ExactlyOnce.ExactlyOncePublished(d, es, f, v);
    }
  }

  lemma {:induction false} NumberOwned(owner: seq<nat>, f: nat, v: nat)
    requires v in ExactlyOnce.NumbersOf(owner, f)
    ensures 1 <= v <= |owner| && owner[v - 1] == f
  {
    var m := |owner| - 1;
    if v in ExactlyOnce.NumbersOf(owner[..m], f) { NumberOwned(owner[..m], f, v); }
  }

  /**
   * Every published entry, in every run, is the entry of the successful job of its context that
   * took its number, apart from the number and the dequeue time; and it describes that job.
   */
  lemma PublishedEntryOfJob(d: Dev, es: seq<Event>, i: nat) returns (k: nat)
    requires Initial(d) && i < |M2m.Run(d, es).log|
    ensures var s := M2m.Run(d, es);
      var f, e := s.log[i].0, s.log[i].1;
      && f in s.ctxs && EntryOf(s.ctxs[f].jobs, ExactlyOnce.NumbersOf(s.owner, f), e, k)
      && (var j := Succeeded(s.ctxs[f].jobs)[k]; j in s.ctxs[f].jobs && Describes(e, j))
  {
    RunKeepsDev(d, es);
    ExactlyOnce.RunKeepsDev(d, es);
    var s := M2m.Run(d, es);
    var f, e := s.log[i].0, s.log[i].1;
    var c := s.ctxs[f];
    assert HasJob(c, e) && CtxOk(c) && c.numbers == ExactlyOnce.NumbersOf(s.owner, f);
    k :| EntryOf(c.jobs, c.numbers, e, k);
    JobBehind(c, e, k);
  }

  lemma JobBehind(c: Ctx, e: Meta.Entry, k: nat)
    requires CtxOk(c) && EntryOf(c.jobs, c.numbers, e, k)
    ensures var j := Succeeded(c.jobs)[k]; j in c.jobs && Describes(e, j)
  {
    SucceededJob(c.jobs, k);
    var j := Succeeded(c.jobs)[k];
    assert JobOk(j) && Stamps(e, j.given) && WorkDone(j, e);
  }

  lemma {:induction false} SucceededJob(jobs: seq<Job>, k: nat)
    requires k < |Succeeded(jobs)|
    ensures Succeeded(jobs)[k] in jobs && Succeeded(jobs)[k].ok
  {
    var m := |jobs| - 1;
    if k < |Succeeded(jobs[..m])| { SucceededJob(jobs[..m], k); }
  }

  /** A CAPTURE buffer whose entry is still pending holds the bytes of the job that entry describes. */
  lemma PendingEntryOfJob(d: Dev, es: seq<Event>, f: nat, i: nat) returns (k: nat)
    requires Initial(d) && f in M2m.Run(d, es).ctxs && i < |M2m.Run(d, es).ctxs[f].capBufs|
    requires M2m.Run(d, es).ctxs[f].capBufs[i].state == DONE
    ensures var s := M2m.Run(d, es);
      var c := s.ctxs[f];
      && EntryOf(c.jobs, ExactlyOnce.NumbersOf(s.owner, f), c.capBufs[i].pending, k)
      && (var j := Succeeded(c.jobs)[k];
          && j in c.jobs && Describes(c.capBufs[i].pending, j)
          && c.capBufs[i].plane == j.bytes && c.capBufs[i].pending.bufferIndex == i)
  {
    RunKeepsDev(d, es);
    ExactlyOnce.RunKeepsDev(d, es);
    var s := M2m.Run(d, es);
    var c := s.ctxs[f];
    assert CtxOk(c) && ExactlyOnce.CtxOk(c) && c.numbers == ExactlyOnce.NumbersOf(s.owner, f) && PendingOk(c, i);
    k :| LeftIn(c, i, k);
    JobBehind(c, c.capBufs[i].pending, k);
  }
}
