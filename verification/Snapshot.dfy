/**
 * Snapshot isolation: control writes made after an OUTPUT buffer was queued cannot change
 * what its job produces. Two runs that differ only in such writes are compared step by step.
 */
module Snapshot {
  import opened Base
  import opened M2m
  import P = Producers
  import Provenance

  /** A later job may fail in one run and succeed in the other; both leave a finished buffer. */
  function Kind(s: BufState): BufState { if s == ERROR then DONE else s }

  /** The same OUTPUT buffer, and the same snapshot if its ticket is older than `t`. */
  ghost predicate OutAgree(a: OutBuf, b: OutBuf, t: nat) {
    && Kind(a.state) == Kind(b.state) && a.memory == b.memory && a.plane == b.plane && a.desc == b.desc
    && a.qbufNs == b.qbufNs && a.ticket == b.ticket && a.origin == b.origin && a.call == b.call
    && (a.ticket < t ==> a.snap == b.snap)
  }

  /** The same CAPTURE buffer, with the same bytes while only older tickets have been served. */
  ghost predicate CapAgree(a: CapBuf, b: CapBuf, early: bool) {
    Kind(a.state) == Kind(b.state) && |a.plane| == |b.plane| && (early ==> a.plane == b.plane)
  }

  ghost predicate JobAgree(a: Job, b: Job, t: nat) {
    a.given.src.ticket == b.given.src.ticket && (a.given.src.ticket < t ==> a == b)
  }

  ghost predicate Early(jobs: seq<Job>, t: nat) { forall m :: 0 <= m < |jobs| ==> jobs[m].given.src.ticket < t }

  ghost predicate BuffersAgree(a: Ctx, b: Ctx, t: nat) {
    && |a.outBufs| == |b.outBufs| && (forall i :: 0 <= i < |a.outBufs| ==> OutAgree(a.outBufs[i], b.outBufs[i], t))
    && |a.capBufs| == |b.capBufs|
    && (forall i :: 0 <= i < |a.capBufs| ==> CapAgree(a.capBufs[i], b.capBufs[i], Early(a.jobs, t)))
  }

  ghost predicate JobsAgree(a: seq<Job>, b: seq<Job>, t: nat) {
    |a| == |b| && forall m :: 0 <= m < |a| ==> JobAgree(a[m], b[m], t)
  }

  /** Two contexts that may differ in their controls and in what tickets from `t` on depend on. */
  ghost predicate Agree(a: Ctx, b: Ctx, t: nat) {
    && a.outFmt == b.outFmt && a.capFmt == b.capFmt && a.src == b.src && a.outQ == b.outQ && a.capQ == b.capQ
    && t <= a.tickets == b.tickets
    && BuffersAgree(a, b, t) && JobsAgree(a.jobs, b.jobs, t)
  }

  // ---- steps on the OUTPUT side ----

  lemma QueueAgrees(a: Ctx, b: Ctx, t: nat, i: nat, mapped: bool, now: nat)
    requires Agree(a, b, t) && i < |a.outBufs| && QueueSafe(a, i)
    ensures QueueSafe(b, i) && Agree(BufQueueOut(a, i, mapped, now), BufQueueOut(b, i, mapped, now), t)
  {
    assert OutAgree(a.outBufs[i], b.outBufs[i], t);
  }

  lemma SafeAgrees(a: Ctx, b: Ctx, t: nat, i: nat)
    requires Agree(a, b, t) && i < |a.outBufs|
    ensures QueueSafe(a, i) == QueueSafe(b, i)
  {
    assert OutAgree(a.outBufs[i], b.outBufs[i], t);
  }

  lemma PutPair(a: Ctx, b: Ctx, t: nat, i: nat, x: OutBuf, y: OutBuf)
    requires Agree(a, b, t) && i < |a.outBufs| && OutAgree(x, y, t)
    ensures Agree(PutOut(a, i, x), PutOut(b, i, y), t)
  {
  }

  lemma HandedAgrees(a: OutBuf, b: OutBuf, t: nat, plane: Option<Plane>)
    requires OutAgree(a, b, t)
    ensures OutAgree(Handed(a, plane), Handed(b, plane), t)
  {
  }

  lemma HeldPair(a: Ctx, b: Ctx, t: nat, i: nat, x: OutBuf, y: OutBuf)
    requires Agree(a, b, t) && i < |a.outBufs| && OutAgree(x, y, t)
    ensures Agree(HoldOut(a, i, x), HoldOut(b, i, y), t)
  {
    PutPair(a, b, t, i, x.(state := QUEUED), y.(state := QUEUED));
  }

  lemma QueuedPair(a: Ctx, b: Ctx, t: nat, i: nat, x: OutBuf, y: OutBuf, mapped: bool, now: nat)
    requires Agree(a, b, t) && i < |a.outBufs| && OutAgree(x, y, t)
    ensures QueueSafe(PutOut(a, i, x), i) == QueueSafe(PutOut(b, i, y), i)
    ensures QueueSafe(PutOut(a, i, x), i) ==>
      Agree(BufQueueOut(PutOut(a, i, x), i, mapped, now), BufQueueOut(PutOut(b, i, y), i, mapped, now), t)
  {
    PutPair(a, b, t, i, x, y);
    var a1, b1 := PutOut(a, i, x), PutOut(b, i, y);
    SafeAgrees(a1, b1, t, i);
    if QueueSafe(a1, i) { QueueAgrees(a1, b1, t, i, mapped, now); }
  }

  lemma QBufOutAgrees(a: Ctx, b: Ctx, t: nat, n: nat, m: nat, i: nat, plane: Option<Plane>, mapped: bool, now: nat)
    requires Agree(a, b, t)
    ensures var r, s := QBufOut(a, n, i, plane, mapped, now), QBufOut(b, m, i, plane, mapped, now);
      r.fault == s.fault && Agree(r.ctx, s.ctx, t)
  {
    if i < |a.outBufs| {
      assert OutAgree(a.outBufs[i], b.outBufs[i], t);
      if InUser(a.outBufs[i].state) {
        var x, y := Handed(a.outBufs[i], plane), Handed(b.outBufs[i], plane);
        HandedAgrees(a.outBufs[i], b.outBufs[i], t, plane);
        PutPair(a, b, t, i, x, y);
        HeldPair(a, b, t, i, x, y);
        QueuedPair(a, b, t, i, x, y, mapped, now);
      }
    }
  }

  lemma {:induction false} HeldAgrees(a: Ctx, b: Ctx, t: nat, list: seq<nat>, n: nat, m: nat, mapped: bool, now: nat)
    requires Agree(a, b, t)
    ensures var r, s := QueueHeld(a, list, n, mapped, now), QueueHeld(b, list, m, mapped, now);
      r.fault == s.fault && Agree(r.ctx, s.ctx, t)
    decreases |list|
  {
    if list != [] {
      var front, i := list[..|list| - 1], list[|list| - 1];
      HeldAgrees(a, b, t, front, n, m, mapped, now);
      var r, s := QueueHeld(a, front, n, mapped, now), QueueHeld(b, front, m, mapped, now);
      if !r.fault && i < |r.ctx.outBufs| {
        SafeAgrees(r.ctx, s.ctx, t, i);
        if QueueSafe(r.ctx, i) { QueueAgrees(r.ctx, s.ctx, t, i, mapped, now); }
      }
    }
  }

  // ---- jobs ----

  /** The two runs' jobs on agreeing contexts when the served ticket is old: same bytes, same entry. */
  lemma OldJobAgrees(a: Ctx, b: Ctx, t: nat, n: nat, m: nat, mapped: bool, now: nat, cpu: nat)
    requires Agree(a, b, t) && CanRun(a) && CanRun(b) && Early(a.jobs, t)
    requires a.outBufs[a.outQ.ready[0]].ticket < t && a.outBufs[a.outQ.ready[0]].state == ACTIVE
    ensures var r, s := DeviceRun(a, n, mapped, now, cpu), DeviceRun(b, m, mapped, now, cpu);
      && r.fault == s.fault
      && (!r.fault ==> |r.ctx.jobs| == |s.ctx.jobs| == |a.jobs| + 1 && r.ctx.jobs[|a.jobs|] == s.ctx.jobs[|a.jobs|])
      && (!r.fault ==> r.ctx.capBufs[a.capQ.ready[0]].plane == s.ctx.capBufs[a.capQ.ready[0]].plane)
      && (!r.fault ==> Kind(r.ctx.capBufs[a.capQ.ready[0]].state) == DONE == Kind(s.ctx.capBufs[a.capQ.ready[0]].state))
  {
    var i, d := a.outQ.ready[0], a.capQ.ready[0];
    assert OutAgree(a.outBufs[i], b.outBufs[i], t) && CapAgree(a.capBufs[d], b.capBufs[d], true);
    if mapped && RunSafe(a) {
      assert JobOutput(a) == JobOutput(b);
      if JobOutput(a).Some? {
        var (out, r) := JobOutput(a).value;
        assert JobEntry(a, n + 1, out, r, now, cpu).(seqNo := 0) == JobEntry(b, m + 1, out, r, now, cpu).(seqNo := 0);
      }
    }
  }

  /** What any job leaves behind, whatever it computed. */
  ghost predicate Served(c: Ctx, c': Ctx)
    requires CanRun(c)
  {
    var i, d := c.outQ.ready[0], c.capQ.ready[0];
    && |c'.outBufs| == |c.outBufs| && |c'.capBufs| == |c.capBufs| && |c'.jobs| == |c.jobs| + 1
    && c'.outFmt == c.outFmt && c'.capFmt == c.capFmt && c'.src == c.src && c'.tickets == c.tickets
    && c'.outQ == c.outQ.(ready := c.outQ.ready[1..], done := c.outQ.done + [i])
    && c'.capQ == c.capQ.(ready := c.capQ.ready[1..], done := c.capQ.done + [d])
    && c'.outBufs == c.outBufs[i := c.outBufs[i].(state := c'.outBufs[i].state)] && Kind(c'.outBufs[i].state) == DONE
    && c'.capBufs == c.capBufs[d := c'.capBufs[d]] && Kind(c'.capBufs[d].state) == DONE
    && |c'.capBufs[d].plane| == |c.capBufs[d].plane|
    && c'.jobs[..|c.jobs|] == c.jobs && c'.jobs[|c.jobs|].given.src.ticket == c.outBufs[i].ticket
  }

  lemma RunServes(c: Ctx, n: nat, mapped: bool, now: nat, cpu: nat)
    requires CanRun(c)
    ensures var r := DeviceRun(c, n, mapped, now, cpu);
      && (r.fault <==> mapped && !RunSafe(c)) && (r.fault ==> r.ctx == c) && (!r.fault ==> Served(c, r.ctx))
  {
  }

  lemma SameRunSafe(a: Ctx, b: Ctx, t: nat)
    requires Agree(a, b, t) && CanRun(a)
    ensures CanRun(b) && RunSafe(a) == RunSafe(b)
  {
    var i, d := a.outQ.ready[0], a.capQ.ready[0];
    assert OutAgree(a.outBufs[i], b.outBufs[i], t);
    assert CapAgree(a.capBufs[d], b.capBufs[d], Early(a.jobs, t));
  }

  /** Served contexts agree if the served jobs do. */
  lemma ServedAgrees(a: Ctx, b: Ctx, a': Ctx, b': Ctx, t: nat)
    requires Agree(a, b, t) && CanRun(a) && CanRun(b) && Served(a, a') && Served(b, b')
    requires JobAgree(a'.jobs[|a.jobs|], b'.jobs[|b.jobs|], t)
    requires var d := a.capQ.ready[0];
      Early(a'.jobs, t) ==> Early(a.jobs, t) && a'.capBufs[d].plane == b'.capBufs[d].plane
    ensures Agree(a', b', t)
  {
    var i, d := a.outQ.ready[0], a.capQ.ready[0];
    assert OutAgree(a.outBufs[i], b.outBufs[i], t) && CapAgree(a.capBufs[d], b.capBufs[d], Early(a.jobs, t));
    forall m | 0 <= m < |a'.jobs|
      ensures JobAgree(a'.jobs[m], b'.jobs[m], t)
    {
      if m < |a.jobs| {
        assert a'.jobs[..|a.jobs|][m] == a.jobs[m] && b'.jobs[..|b.jobs|][m] == b.jobs[m];
        assert JobAgree(a.jobs[m], b.jobs[m], t);
      }
    }
    forall k | 0 <= k < |a.capBufs|
      ensures CapAgree(a'.capBufs[k], b'.capBufs[k], Early(a'.jobs, t))
    {
      assert CapAgree(a.capBufs[k], b.capBufs[k], Early(a.jobs, t));
    }
  }

  lemma RunAgrees(a: Ctx, b: Ctx, t: nat, n: nat, m: nat, mapped: bool, now: nat, cpu: nat)
    requires Agree(a, b, t) && CanRun(a) && CanRun(b) && Provenance.CtxOk(a)
    ensures var r, s := DeviceRun(a, n, mapped, now, cpu), DeviceRun(b, m, mapped, now, cpu);
      r.fault == s.fault && Agree(r.ctx, s.ctx, t)
  {
    RunServes(a, n, mapped, now, cpu);
    RunServes(b, m, mapped, now, cpu);
    SameRunSafe(a, b, t);
    var r, s := DeviceRun(a, n, mapped, now, cpu), DeviceRun(b, m, mapped, now, cpu);
    if !r.fault {
      var ticket := a.outBufs[a.outQ.ready[0]].ticket;
      assert OutAgree(a.outBufs[a.outQ.ready[0]], b.outBufs[a.outQ.ready[0]], t);
      if ticket < t {
        assert Early(a.jobs, t);
        OldJobAgrees(a, b, t, n, m, mapped, now, cpu);
      } else {
        assert !Early(r.ctx.jobs, t);
      }
      ServedAgrees(a, b, r.ctx, s.ctx, t);
    }
  }

  // ---- the remaining steps ----

  lemma {:induction false} FinishAgrees(a: seq<CapBuf>, b: seq<CapBuf>, k: nat, now: nat, early: bool)
    requires |a| == |b| && k <= |a| && forall i :: 0 <= i < |a| ==> CapAgree(a[i], b[i], early)
    ensures forall i :: 0 <= i < |a| ==> CapAgree(FinishFirst(a, k, now).0[i], FinishFirst(b, k, now).0[i], early)
  {
    if k > 0 { FinishAgrees(a, b, k - 1, now, early); }
  }

  ghost predicate OutsAgree(a: seq<OutBuf>, b: seq<OutBuf>, t: nat) {
    |a| == |b| && forall i :: 0 <= i < |a| ==> OutAgree(a[i], b[i], t)
  }

  /** Only formats, source, controls, OUTPUT queue and OUTPUT buffers changed. */
  lemma PutOuts(a: Ctx, b: Ctx, a': Ctx, b': Ctx, t: nat)
    requires Agree(a, b, t) && OutsAgree(a'.outBufs, b'.outBufs, t)
    requires a'.outQ == b'.outQ && a'.src == b'.src && a'.outFmt == b'.outFmt && a'.capFmt == b'.capFmt
    requires a'.capBufs == a.capBufs && a'.capQ == a.capQ && a'.jobs == a.jobs && a'.tickets == a.tickets
    requires b'.capBufs == b.capBufs && b'.capQ == b.capQ && b'.jobs == b.jobs && b'.tickets == b.tickets
    ensures Agree(a', b', t)
  {
  }

  lemma StreamOffOutAgrees(a: Ctx, b: Ctx, t: nat, n: nat, m: nat)
    requires Agree(a, b, t)
    ensures Agree(StreamOffOut(a, n).ctx, StreamOffOut(b, m).ctx, t)
  {
    var r, s := StreamOffOut(a, n).ctx, StreamOffOut(b, m).ctx;
    assert OutsAgree(a.outBufs, b.outBufs, t);
    assert OutsAgree(r.outBufs, s.outBufs, t);
    PutOuts(a, b, r, s, t);
  }

  lemma DqBufOutAgrees(a: Ctx, b: Ctx, t: nat, n: nat, m: nat)
    requires Agree(a, b, t)
    ensures Agree(DqBufOut(a, n).ctx, DqBufOut(b, m).ctx, t)
  {
    var r, s := DqBufOut(a, n).ctx, DqBufOut(b, m).ctx;
    assert OutsAgree(a.outBufs, b.outBufs, t);
    assert OutsAgree(r.outBufs, s.outBufs, t);
    PutOuts(a, b, r, s, t);
  }

  lemma ReqBufsOutAgrees(a: Ctx, b: Ctx, t: nat, n: nat, m: nat, memory: Memory, planes: seq<Plane>)
    requires Agree(a, b, t)
    ensures Agree(ReqBufsOut(a, n, memory, planes).ctx, ReqBufsOut(b, m, memory, planes).ctx, t)
  {
    var r, s := ReqBufsOut(a, n, memory, planes).ctx, ReqBufsOut(b, m, memory, planes).ctx;
    assert OutsAgree(r.outBufs, s.outBufs, t);
    PutOuts(a, b, r, s, t);
  }

  lemma CreateOutAgrees(a: Ctx, b: Ctx, t: nat, n: nat, m: nat, memory: Memory, planes: seq<Plane>)
    requires Agree(a, b, t)
    ensures Agree(CreateOut(a, n, memory, planes).ctx, CreateOut(b, m, memory, planes).ctx, t)
  {
    var r, s := CreateOut(a, n, memory, planes).ctx, CreateOut(b, m, memory, planes).ctx;
    assert OutsAgree(a.outBufs, b.outBufs, t);
    assert a.outBufs != [] ==> a.outBufs[0].memory == b.outBufs[0].memory;
    AppendAgrees(a.outBufs, b.outBufs, FreshOut(memory, AtLeastTwo(planes)), t);
    PutOuts(a, b, r, s, t);
  }

  lemma AppendAgrees(a: seq<OutBuf>, b: seq<OutBuf>, more: seq<OutBuf>, t: nat)
    requires OutsAgree(a, b, t)
    ensures OutsAgree(a + more, b + more, t)
  {
  }

  lemma PrepareOutAgrees(a: Ctx, b: Ctx, t: nat, n: nat, m: nat, i: nat, plane: Option<Plane>)
    requires Agree(a, b, t)
    ensures Agree(PrepareOut(a, n, i, plane).ctx, PrepareOut(b, m, i, plane).ctx, t)
  {
    if i < |a.outBufs| {
      assert OutAgree(a.outBufs[i], b.outBufs[i], t);
      if a.outBufs[i].state == DEQUEUED {
        var x, y := Handed(a.outBufs[i], plane), Handed(b.outBufs[i], plane);
        HandedAgrees(a.outBufs[i], b.outBufs[i], t, plane);
        PutPair(a, b, t, i, x, y);
        PutPair(a, b, t, i, x.(state := PREPARED), y.(state := PREPARED));
      }
    }
  }

  lemma OutStep(a: Ctx, b: Ctx, t: nat, n: nat, m: nat, now: nat, x: Action)
    requires Agree(a, b, t) && Provenance.OnOutput(x)
    ensures var r, s := CtxStep(a, n, now, x), CtxStep(b, m, now, x); r.fault == s.fault && Agree(r.ctx, s.ctx, t)
  {
    match x
    case ActStreamOffOut => StreamOffOutAgrees(a, b, t, n, m);
    case ActDqBufOut => DqBufOutAgrees(a, b, t, n, m);
    case ActReqBufs(out, memory, planes) => ReqBufsOutAgrees(a, b, t, n, m, memory, planes);
    case ActCreateBufs(out, memory, planes) => CreateOutAgrees(a, b, t, n, m, memory, planes);
    case ActPrepare(out, i, plane) => PrepareOutAgrees(a, b, t, n, m, i, plane);
    case ActSetBackend(_) => BackendAgrees(a, b, t, n, m, now, x);
    case _ => ConfigAgrees(a, b, t, n, m, now, x);
  }

  lemma BackendAgrees(a: Ctx, b: Ctx, t: nat, n: nat, m: nat, now: nat, x: Action)
    requires Agree(a, b, t) && x.ActSetBackend?
    ensures var r, s := CtxStep(a, n, now, x), CtxStep(b, m, now, x); r.fault == s.fault && Agree(r.ctx, s.ctx, t)
  {
    PutOuts(a, b, SetBackend(a, n, x.backend).ctx, SetBackend(b, m, x.backend).ctx, t);
  }

  lemma ConfigAgrees(a: Ctx, b: Ctx, t: nat, n: nat, m: nat, now: nat, x: Action)
    requires Agree(a, b, t) && (x.ActSetFmt? || x.ActSetCtl?)
    ensures var r, s := CtxStep(a, n, now, x), CtxStep(b, m, now, x); r.fault == s.fault && Agree(r.ctx, s.ctx, t)
  {
    PutOuts(a, b, CtxStep(a, n, now, x).ctx, CtxStep(b, m, now, x).ctx, t);
  }

  ghost predicate CapsAgree(a: seq<CapBuf>, b: seq<CapBuf>, early: bool) {
    |a| == |b| && forall i :: 0 <= i < |a| ==> CapAgree(a[i], b[i], early)
  }

  /** Only the CAPTURE queue and buffers changed. */
  lemma PutCaps(a: Ctx, b: Ctx, a': Ctx, b': Ctx, t: nat)
    requires Agree(a, b, t) && CapsAgree(a'.capBufs, b'.capBufs, Early(a.jobs, t)) && a'.capQ == b'.capQ
    requires a'.(capBufs := a.capBufs, capQ := a.capQ, published := a.published, fifo := a.fifo) == a
    requires b'.(capBufs := b.capBufs, capQ := b.capQ, published := b.published, fifo := b.fifo) == b
    ensures Agree(a', b', t)
  {
    assert a'.jobs == a.jobs;
  }

  lemma CapPair(a: Ctx, b: Ctx, t: nat, i: nat, x: CapBuf, y: CapBuf, q: Queue)
    requires Agree(a, b, t) && i < |a.capBufs| && CapAgree(x, y, Early(a.jobs, t))
    ensures Agree(PutCap(a, i, x, q), PutCap(b, i, y, q), t)
  {
    assert CapsAgree(a.capBufs[i := x], b.capBufs[i := y], Early(a.jobs, t));
    PutCaps(a, b, PutCap(a, i, x, q), PutCap(b, i, y, q), t);
  }

  lemma QBufCapAgrees(a: Ctx, b: Ctx, t: nat, n: nat, m: nat, i: nat, plane: Option<Plane>)
    requires Agree(a, b, t)
    ensures Agree(QBufCap(a, n, i, plane).ctx, QBufCap(b, m, i, plane).ctx, t)
  {
    if i < |a.capBufs| {
      assert CapAgree(a.capBufs[i], b.capBufs[i], Early(a.jobs, t));
      if InUser(a.capBufs[i].state) {
        var x, y := HandedCap(a.capBufs[i], plane), HandedCap(b.capBufs[i], plane);
        CapPair(a, b, t, i, x, y, a.capQ);
        CapPair(a, b, t, i, x.(state := QUEUED), y.(state := QUEUED), a.capQ.(held := a.capQ.held + [i]));
        CapPair(a, b, t, i, x.(state := ACTIVE), y.(state := ACTIVE), a.capQ.(ready := a.capQ.ready + [i]));
      }
    }
  }

  lemma StreamOffCapAgrees(a: Ctx, b: Ctx, t: nat, n: nat, m: nat, now: nat)
    requires Agree(a, b, t)
    ensures Agree(StreamOffCap(a, n, now).ctx, StreamOffCap(b, m, now).ctx, t)
  {
    var early := Early(a.jobs, t);
    var r, s := StreamOffCap(a, n, now).ctx, StreamOffCap(b, m, now).ctx;
    FinishAgrees(a.capBufs, b.capBufs, |a.capBufs|, now, early);
    assert CapsAgree(r.capBufs, s.capBufs, early);
    PutCaps(a, b, r, s, t);
  }

  lemma DqBufCapAgrees(a: Ctx, b: Ctx, t: nat, n: nat, m: nat, now: nat)
    requires Agree(a, b, t)
    ensures Agree(DqBufCap(a, n, now).ctx, DqBufCap(b, m, now).ctx, t)
  {
    var early := Early(a.jobs, t);
    var r, s := DqBufCap(a, n, now).ctx, DqBufCap(b, m, now).ctx;
    assert CapsAgree(a.capBufs, b.capBufs, early);
    assert CapsAgree(r.capBufs, s.capBufs, early);
    PutCaps(a, b, r, s, t);
  }

  lemma StreamOnCapAgrees(a: Ctx, b: Ctx, t: nat, n: nat, m: nat)
    requires Agree(a, b, t)
    ensures Agree(StreamOnCap(a, n).ctx, StreamOnCap(b, m).ctx, t)
  {
    var early := Early(a.jobs, t);
    var r, s := StreamOnCap(a, n).ctx, StreamOnCap(b, m).ctx;
    assert forall i :: 0 <= i < |a.capBufs| ==> CapAgree(a.capBufs[i], b.capBufs[i], early);
    assert CapsAgree(r.capBufs, s.capBufs, early);
    PutCaps(a, b, r, s, t);
  }

  lemma ReqBufsCapAgrees(a: Ctx, b: Ctx, t: nat, n: nat, m: nat, planes: seq<Plane>)
    requires Agree(a, b, t)
    ensures Agree(ReqBufsCap(a, n, planes).ctx, ReqBufsCap(b, m, planes).ctx, t)
  {
    var r, s := ReqBufsCap(a, n, planes).ctx, ReqBufsCap(b, m, planes).ctx;
    assert CapsAgree(r.capBufs, s.capBufs, Early(a.jobs, t));
    PutCaps(a, b, r, s, t);
  }

  lemma CreateCapAgrees(a: Ctx, b: Ctx, t: nat, n: nat, m: nat, planes: seq<Plane>)
    requires Agree(a, b, t)
    ensures Agree(CreateCap(a, n, planes).ctx, CreateCap(b, m, planes).ctx, t)
  {
    var early := Early(a.jobs, t);
    var r, s := CreateCap(a, n, planes).ctx, CreateCap(b, m, planes).ctx;
    assert CapsAgree(a.capBufs, b.capBufs, early);
    assert CapsAgree(r.capBufs, s.capBufs, early);
    PutCaps(a, b, r, s, t);
  }

  lemma PrepareCapAgrees(a: Ctx, b: Ctx, t: nat, n: nat, m: nat, i: nat, plane: Option<Plane>)
    requires Agree(a, b, t)
    ensures Agree(PrepareCap(a, n, i, plane).ctx, PrepareCap(b, m, i, plane).ctx, t)
  {
    if i < |a.capBufs| {
      assert CapAgree(a.capBufs[i], b.capBufs[i], Early(a.jobs, t));
      if a.capBufs[i].state == DEQUEUED {
        var x, y := HandedCap(a.capBufs[i], plane), HandedCap(b.capBufs[i], plane);
        CapPair(a, b, t, i, x, y, a.capQ);
        CapPair(a, b, t, i, x.(state := PREPARED), y.(state := PREPARED), a.capQ);
      }
    }
  }

  lemma CapStep(a: Ctx, b: Ctx, t: nat, n: nat, m: nat, now: nat, x: Action)
    requires Agree(a, b, t) && Provenance.OnCapture(x)
    ensures var r, s := CtxStep(a, n, now, x), CtxStep(b, m, now, x); r.fault == s.fault && Agree(r.ctx, s.ctx, t)
  {
    match x
    case ActQBufCap(i, plane) => QBufCapAgrees(a, b, t, n, m, i, plane);
    case ActStreamOffCap => StreamOffCapAgrees(a, b, t, n, m, now);
    case ActDqBufCap => DqBufCapAgrees(a, b, t, n, m, now);
    case ActStreamOnCap => StreamOnCapAgrees(a, b, t, n, m);
    case ActReqBufs(out, memory, planes) => ReqBufsCapAgrees(a, b, t, n, m, planes);
    case ActCreateBufs(out, memory, planes) => CreateCapAgrees(a, b, t, n, m, planes);
    case ActPrepare(out, i, plane) => PrepareCapAgrees(a, b, t, n, m, i, plane);
  }

  /** The same step on agreeing contexts, with whatever device sequence each run has. */
  lemma StepAgrees(a: Ctx, b: Ctx, t: nat, n: nat, m: nat, now: nat, x: Action)
    requires Agree(a, b, t) && Provenance.CtxOk(a)
    ensures var r, s := CtxStep(a, n, now, x), CtxStep(b, m, now, x); r.fault == s.fault && Agree(r.ctx, s.ctx, t)
  {
    if Provenance.OnCapture(x) {
      CapStep(a, b, t, n, m, now, x);
    } else if Provenance.OnOutput(x) {
      OutStep(a, b, t, n, m, now, x);
    } else {
      ActiveStep(a, b, t, n, m, now, x);
    }
  }

  /** The steps that reach the source or run a job. */
  lemma ActiveStep(a: Ctx, b: Ctx, t: nat, n: nat, m: nat, now: nat, x: Action)
    requires Agree(a, b, t) && Provenance.CtxOk(a) && (x.ActQBufOut? || x.ActStreamOnOut? || x.ActRun?)
    ensures var r, s := CtxStep(a, n, now, x), CtxStep(b, m, now, x); r.fault == s.fault && Agree(r.ctx, s.ctx, t)
  {
    match x
    case ActQBufOut(i, plane, mapped) => QBufOutAgrees(a, b, t, n, m, i, plane, mapped, now);
    case ActStreamOnOut(params, mapped) => StreamOnOutAgrees(a, b, t, n, m, params, mapped, now);
    case ActRun(mapped, cpu) => if CanRun(a) { RunAgrees(a, b, t, n, m, mapped, now, cpu); }
  }

  lemma StreamOnOutAgrees(a: Ctx, b: Ctx, t: nat, n: nat, m: nat, params: P.Params, mapped: bool, now: nat)
    requires Agree(a, b, t) && Provenance.CtxOk(a)
    ensures var r, s := StreamOnOut(a, n, params, mapped, now), StreamOnOut(b, m, params, mapped, now);
      r.fault == s.fault && Agree(r.ctx, s.ctx, t)
  {
    HeldAgrees(a, b, t, a.outQ.held, n, m, mapped, now);
  }

  // ---- whole runs ----

  /** The run without its control writes. */
  function Erase(es: seq<Event>): seq<Event> {
    if es == [] then []
    else Erase(es[..|es| - 1]) + if es[|es| - 1].act.ActSetCtl? then [] else [es[|es| - 1]]
  }

  /** Devices whose contexts agree, each from the tickets it had in `start` on. */
  ghost predicate DevAgree(start: Dev, d: Dev, e: Dev) {
    && d.faulted == e.faulted && d.ctxs.Keys == e.ctxs.Keys == start.ctxs.Keys
    && forall f :: f in start.ctxs ==> Agree(d.ctxs[f], e.ctxs[f], start.ctxs[f].tickets)
  }

  lemma ReflAgree(c: Ctx)
    ensures Agree(c, c, c.tickets)
  {
  }

  /** The same event on both sides. */
  lemma BothStep(start: Dev, d: Dev, d': Dev, e: Event)
    requires DevAgree(start, d, d') && Provenance.DevOk(d)
    ensures DevAgree(start, Step(d, e), Step(d', e))
  {
    if e.ctx in d.ctxs && !d.faulted {
      var c, c' := d.ctxs[e.ctx], d'.ctxs[e.ctx];
      StepAgrees(c, c', start.ctxs[e.ctx].tickets, d.sequence, d'.sequence, e.now, e.act);
      AppliedAgree(start, d, d', e, CtxStep(c, d.sequence, e.now, e.act), CtxStep(c', d'.sequence, e.now, e.act));
    }
  }

  lemma AppliedAgree(start: Dev, d: Dev, d': Dev, e: Event, r: Result, s: Result)
    requires DevAgree(start, d, d') && e.ctx in d.ctxs && r.fault == s.fault
    requires Agree(r.ctx, s.ctx, start.ctxs[e.ctx].tickets)
    ensures DevAgree(start, Applied(d, e, r), Applied(d', e, s))
  {
  }

  /** A control write on one side only. */
  lemma ControlStep(start: Dev, d: Dev, d': Dev, e: Event)
    requires DevAgree(start, d, d') && e.act.ActSetCtl?
    ensures DevAgree(start, Step(d, e), d')
  {
    if e.ctx in d.ctxs && !d.faulted {
      ControlAgree(d.ctxs[e.ctx], d'.ctxs[e.ctx], start.ctxs[e.ctx].tickets, e.act.id, e.act.value);
    }
  }

  lemma ControlAgree(a: Ctx, b: Ctx, t: nat, id: ControlId, v: s32)
    requires Agree(a, b, t)
    ensures Agree(a.(ctl := SetControl(a.ctl, id, v)), b, t)
  {
  }

  lemma {:induction false} ErasedAgrees(d: Dev, es: seq<Event>)
    requires Provenance.DevOk(d)
    ensures DevAgree(d, M2m.Run(d, es), M2m.Run(d, Erase(es)))
  {
    if es == [] {
      forall f | f in d.ctxs ensures Agree(d.ctxs[f], d.ctxs[f], d.ctxs[f].tickets) { ReflAgree(d.ctxs[f]); }
    } else {
      var front, e := es[..|es| - 1], es[|es| - 1];
      ErasedAgrees(d, front);
      Provenance.RunKeepsFrom(d, front);
      if e.act.ActSetCtl? {
        ControlStep(d, M2m.Run(d, front), M2m.Run(d, Erase(front)), e);
        assert Erase(es) == Erase(front);
      } else {
        BothStep(d, M2m.Run(d, front), M2m.Run(d, Erase(front)), e);
        assert Erase(es) == Erase(front) + [e];
        assert Erase(es)[..|Erase(es)| - 1] == Erase(front);
      }
    }
  }

  lemma AgreeingJobs(start: Dev, d: Dev, e: Dev, f: nat)
    requires DevAgree(start, d, e) && f in start.ctxs
    ensures JobsAgree(d.ctxs[f].jobs, e.ctxs[f].jobs, start.ctxs[f].tickets)
  {
    assert Agree(d.ctxs[f], e.ctxs[f], start.ctxs[f].tickets);
  }

  lemma JobsThrough(j1: seq<Job>, j2: seq<Job>, j: seq<Job>, t: nat)
    requires JobsAgree(j1, j, t) && JobsAgree(j2, j, t)
    ensures JobsAgree(j1, j2, t)
  {
    forall m | 0 <= m < |j1|
      ensures JobAgree(j1[m], j2[m], t)
    {
      assert JobAgree(j1[m], j[m], t) && JobAgree(j2[m], j[m], t);
    }
  }

  lemma Continuations(s: Dev, post1: seq<Event>, post2: seq<Event>, f: nat)
    requires Provenance.DevOk(s) && f in s.ctxs && Erase(post1) == Erase(post2)
    ensures f in M2m.Run(s, post1).ctxs && f in M2m.Run(s, post2).ctxs
    ensures JobsAgree(M2m.Run(s, post1).ctxs[f].jobs, M2m.Run(s, post2).ctxs[f].jobs, s.ctxs[f].tickets)
  {
    ErasedAgrees(s, post1);
    ErasedAgrees(s, post2);
    var s1, s2, e := M2m.Run(s, post1), M2m.Run(s, post2), M2m.Run(s, Erase(post1));
    AgreeingJobs(s, s1, e, f);
    AgreeingJobs(s, s2, e, f);
    JobsThrough(s1.ctxs[f].jobs, s2.ctxs[f].jobs, e.ctxs[f].jobs, s.ctxs[f].tickets);
  }

  /**
   * Two continuations of one run that differ only in control writes, on any context, run the
   * same jobs; and every job that serves an OUTPUT buffer queued before the continuations part
   * leaves the same CAPTURE bytes and the same metadata, apart from the device sequence.
   */
  lemma SnapshotIsolation(d: Dev, pre: seq<Event>, post1: seq<Event>, post2: seq<Event>, f: nat)
    requires Initial(d) && f in d.ctxs && Erase(post1) == Erase(post2)
    ensures f in M2m.Run(d, pre).ctxs
    ensures f in M2m.Run(M2m.Run(d, pre), post1).ctxs && f in M2m.Run(M2m.Run(d, pre), post2).ctxs
    ensures JobsAgree(M2m.Run(M2m.Run(d, pre), post1).ctxs[f].jobs, M2m.Run(M2m.Run(d, pre), post2).ctxs[f].jobs,
                      M2m.Run(d, pre).ctxs[f].tickets)
  {
    Provenance.RunKeepsDev(d, pre);
    SameKeys(d, pre);
    Continuations(M2m.Run(d, pre), post1, post2, f);
  }

  lemma {:induction false} SameKeys(d: Dev, es: seq<Event>)
    ensures M2m.Run(d, es).ctxs.Keys == d.ctxs.Keys
  {
    if es != [] { SameKeys(d, es[..|es| - 1]); }
  }

  // ---- QBUF before STREAMON ----

  /** The controls after some writes. */
  function AfterWrites(ctl: Controls, writes: seq<(ControlId, s32)>): Controls {
    if writes == [] then ctl
    else SetControl(AfterWrites(ctl, writes[..|writes| - 1]), writes[|writes| - 1].0, writes[|writes| - 1].1)
  }

  /** Buffers held back are snapshotted when they reach `buf_queue`. */
  lemma {:induction false} HeldSnaps(c: Ctx, list: seq<nat>, n: nat, mapped: bool, now: nat)
    requires !QueueHeld(c, list, n, mapped, now).fault
    ensures var c' := QueueHeld(c, list, n, mapped, now).ctx;
      && c'.ctl == c.ctl && |c'.outBufs| == |c.outBufs|
      && forall i :: i in list && i < |c.outBufs| ==> c'.outBufs[i].snap == c.ctl
    decreases |list|
  {
    if list != [] {
      var front, i := list[..|list| - 1], list[|list| - 1];
      assert list == front + [i];
      HeldSnaps(c, front, n, mapped, now);
    }
  }

  /** Whatever happened since QBUF: a buffer held back takes the controls in force at STREAMON. */
  lemma HeldTakesLateControls(c: Ctx, n: nat, params: P.Params, mapped: bool, now: nat, i: nat)
    requires !c.outQ.on && i in c.outQ.held && i < |c.outBufs| && !StreamOnOut(c, n, params, mapped, now).fault
    ensures var c' := StreamOnOut(c, n, params, mapped, now).ctx; i < |c'.outBufs| && c'.outBufs[i].snap == c.ctl
  {
    HeldSnaps(c, c.outQ.held, n, mapped, now);
  }

  /** An accepted QBUF of OUTPUT buffer `i`, control writes, then STREAMON. */
  ghost predicate QueuedThenStreamed(c: Ctx, i: nat, mapped: bool, now: nat, writes: seq<(ControlId, s32)>,
                                     params: P.Params, c': Ctx) {
    && i < |c.outBufs| && InUser(c.outBufs[i].state) && Passes(c.outFmt, c.outBufs[i].state, c.outBufs[i].plane)
    && !QBufOut(c, 0, i, None, mapped, now).fault
    && (var c1 := QBufOut(c, 0, i, None, mapped, now).ctx;
        var r := StreamOnOut(c1.(ctl := AfterWrites(c1.ctl, writes)), 0, params, mapped, now);
        !r.fault && r.ctx == c')
  }

  /**
   * What isolation from QBUF on takes: the snapshot of a buffer equals the controls at its QBUF
   * exactly when OUTPUT was already streaming or the writes before STREAMON changed nothing.
   */
  lemma QbufSnapshotExactly(c: Ctx, i: nat, mapped: bool, now: nat, writes: seq<(ControlId, s32)>, params: P.Params,
                            c': Ctx)
    requires QueuedThenStreamed(c, i, mapped, now, writes, params, c')
    ensures i < |c'.outBufs|
    ensures c'.outBufs[i].snap == c.ctl <==> c.outQ.on || AfterWrites(c.ctl, writes) == c.ctl
  {
    var c1 := QBufOut(c, 0, i, None, mapped, now).ctx;
    assert PutOut(c, i, Handed(c.outBufs[i], None)) == c;
    if !c.outQ.on {
      HeldTakesLateControls(c1.(ctl := AfterWrites(c1.ctl, writes)), 0, params, mapped, now, i);
    }
  }

  /** A fresh context with two one-pixel OUTPUT buffers. */
  function TwoPixels(): Ctx { ReqBufsOut(SetFmt(OPENED, true, 1, 1), 0, MMAP, [[7], [8]]).ctx }

  /** Queue a buffer at threshold 127, write 0, start the stream: the job will see 0. */
  lemma LateControlSeen()
    ensures var c := TwoPixels();
      var c1 := QBufOut(c, 0, 0, None, true, 0).ctx;
      var r := StreamOnOut(c1.(ctl := SetControl(c1.ctl, Threshold, 0)), 0, P.Params(30, 0, 0), true, 0);
      && c.ctl.threshold == 127 && !r.fault && 0 in r.ctx.outQ.ready && |r.ctx.outBufs| == 2
      && r.ctx.outBufs[0].snap.threshold == 0
  {
    var c := TwoPixels();
    assert |c.outBufs| == 2 && c.outBufs[0].plane == [7] && c.src.producer == P.Fixture;
    var c1 := QBufOut(c, 0, 0, None, true, 0).ctx;
    var c2 := c1.(ctl := SetControl(c1.ctl, Threshold, 0));
    assert c2.outQ == Queue([0], [], [], false) && [0][..0] == [];
    assert QueueHeld(c2, [0][..0], 0, true, 0) == Same(c2, 0);
    assert QueueHeld(c2, [0], 0, true, 0) == Same(BufQueueOut(c2, 0, true, 0), 0);
  }
}
