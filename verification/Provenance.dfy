/**
 * The OUTPUT side over every run: which source stamped a queued buffer, the order in which
 * buffers are processed, and the timeline of every published entry.
 */
module Provenance {
  import opened Base
  import opened M2m
  import Meta
  import P = Producers
  import Source

  ghost predicate Listed(bufs: seq<OutBuf>, list: seq<nat>, states: set<BufState>) {
    Distinct(list) && forall k :: 0 <= k < |list| ==> list[k] < |bufs| && bufs[list[k]].state in states
  }

  /** Stamped by this very source instance, or unstamped because the producer failed. */
  ghost predicate StampedBy(b: OutBuf, src: Source.Instance) {
    b.desc.backend == Source.BACKEND_NONE ||
    (b.origin.0 == src.id && b.origin.1 < src.stamped && b.desc.backend == src.backend
     && b.desc.sequence == b.origin.1 % TWO32)
  }

  /** When `buf_queue` leaves a stamp: with the fixture always, else in time, with an address and with room. */
  predicate StampDue(b: OutBuf, backend: nat) {
    backend == Source.BACKEND_FIXTURE || (!b.call.early && b.call.mapped && b.call.fits)
  }

  /** A ready buffer: stamped exactly when due, and numbered by a ticket already handed out. */
  ghost predicate ReadyOk(b: OutBuf, c: Ctx) {
    StampedBy(b, c.src) && (Stamped(b) <==> StampDue(b, c.src.backend)) && b.ticket < c.tickets
  }

  /** A backend other than the fixture runs exactly while OUTPUT streams, and the format is never empty. */
  ghost predicate SourceRuns(c: Ctx) {
    && (c.src.backend == Source.BACKEND_FIXTURE <==> c.src.producer.Fixture?) && !P.NoGeometry(Shape(c.outFmt))
    && (c.src.producer.Fixture? || (P.Writes(c.src.producer) <==> c.outQ.on))
  }

  /** Ready buffers stand in ticket order, after every ticket already served. */
  ghost predicate TicketOrder(c: Ctx)
    requires Listed(c.outBufs, c.outQ.ready, {ACTIVE})
  {
    && (forall i, j :: 0 <= i < j < |c.outQ.ready| ==>
          c.outBufs[c.outQ.ready[i]].ticket < c.outBufs[c.outQ.ready[j]].ticket)
    && (forall m, k :: 0 <= m < |c.jobs| && 0 <= k < |c.outQ.ready| ==>
          c.jobs[m].given.src.ticket < c.outBufs[c.outQ.ready[k]].ticket)
    && (forall m :: 0 <= m < |c.jobs| ==> c.jobs[m].given.src.ticket < c.tickets)
    && (forall m, k :: 0 <= m < k < |c.jobs| ==> c.jobs[m].given.src.ticket < c.jobs[k].given.src.ticket)
  }

  predicate Stamped(b: OutBuf) { b.desc.backend != Source.BACKEND_NONE }

  /** Stamped ready buffers carry increasing numbers of their source, so no two share one. */
  ghost predicate OriginOrder(c: Ctx)
    requires Listed(c.outBufs, c.outQ.ready, {ACTIVE})
  {
    forall i, j | 0 <= i < j < |c.outQ.ready| ::
      Stamped(c.outBufs[c.outQ.ready[i]]) && Stamped(c.outBufs[c.outQ.ready[j]]) ==>
        c.outBufs[c.outQ.ready[i]].origin.1 < c.outBufs[c.outQ.ready[j]].origin.1
  }

  /** The OUTPUT side when `rest` is still held back. */
  ghost predicate OutOk(c: Ctx, rest: seq<nat>) {
    && Listed(c.outBufs, rest, {QUEUED}) && Listed(c.outBufs, c.outQ.ready, {ACTIVE})
    && Listed(c.outBufs, c.outQ.done, {DONE, ERROR})
    && (forall k :: 0 <= k < |c.outQ.ready| ==> ReadyOk(c.outBufs[c.outQ.ready[k]], c))
    && TicketOrder(c) && OriginOrder(c) && Source.Numbered(c.src) && SourceRuns(c)
  }

  ghost predicate OffQuiet(q: Queue) { (q.on ==> q.held == []) && (!q.on ==> q.ready == [] && q.done == []) }

  ghost predicate CtxOk(c: Ctx) { OutOk(c, c.outQ.held) && OffQuiet(c.outQ) }

  // ---- queueing ----

  lemma QueueKeeps(c: Ctx, i: nat, mapped: bool, now: nat, rest: seq<nat>)
    requires i < |c.outBufs| && QueueSafe(c, i) && c.outBufs[i].state in {DEQUEUED, PREPARED, QUEUED} && i !in rest
    requires OutOk(c, rest)
    ensures OutOk(BufQueueOut(c, i, mapped, now), rest)
  {
    var c' := BufQueueOut(c, i, mapped, now);
    Source.StampNumbers(c.src, Shape(c.outFmt), c.outBufs[i].plane, mapped, now);
    ReadyAppend(c, c', i);
    OriginAppend(c, c', i);
  }

  lemma ReadyAppend(c: Ctx, c': Ctx, i: nat)
    requires i < |c.outBufs| == |c'.outBufs| && c.outBufs[i].state != ACTIVE && c'.outBufs[i].state == ACTIVE
    requires Listed(c.outBufs, c.outQ.ready, {ACTIVE}) && TicketOrder(c)
    requires forall k :: 0 <= k < |c.outQ.ready| ==> ReadyOk(c.outBufs[c.outQ.ready[k]], c)
    requires c'.outBufs == c.outBufs[i := c'.outBufs[i]] && c'.outQ.ready == c.outQ.ready + [i] && c'.jobs == c.jobs
    requires c'.tickets == c.tickets + 1 && c'.outBufs[i].ticket == c.tickets
    requires c'.src.id == c.src.id && c'.src.backend == c.src.backend && c'.src.stamped >= c.src.stamped
    requires StampedBy(c'.outBufs[i], c'.src) && (Stamped(c'.outBufs[i]) <==> StampDue(c'.outBufs[i], c'.src.backend))
    ensures Listed(c'.outBufs, c'.outQ.ready, {ACTIVE}) && TicketOrder(c')
    ensures forall k :: 0 <= k < |c'.outQ.ready| ==> ReadyOk(c'.outBufs[c'.outQ.ready[k]], c')
  {
    assert forall k :: 0 <= k < |c.outQ.ready| ==> c'.outQ.ready[k] == c.outQ.ready[k] != i;
  }

  lemma OriginAppend(c: Ctx, c': Ctx, i: nat)
    requires i < |c.outBufs| == |c'.outBufs| && c.outBufs[i].state != ACTIVE
    requires Listed(c.outBufs, c.outQ.ready, {ACTIVE}) && OriginOrder(c)
    requires forall k :: 0 <= k < |c.outQ.ready| ==> StampedBy(c.outBufs[c.outQ.ready[k]], c.src)
    requires c'.outBufs == c.outBufs[i := c'.outBufs[i]] && c'.outQ.ready == c.outQ.ready + [i]
    requires Listed(c'.outBufs, c'.outQ.ready, {ACTIVE}) && c'.outBufs[i].origin.1 == c.src.stamped
    ensures OriginOrder(c')
  {
    assert forall k :: 0 <= k < |c.outQ.ready| ==> c'.outQ.ready[k] == c.outQ.ready[k] != i;
  }

  /** The first `m` held buffers have been queued, the rest still wait. */
  ghost predicate HeldSoFar(c: Ctx, r: Result, m: nat)
    requires m <= |c.outQ.held|
  {
    && r.ctx.outQ.held == c.outQ.held && r.ctx.capBufs == c.capBufs && |r.ctx.outBufs| == |c.outBufs|
    && r.pubs == [] && OutOk(r.ctx, c.outQ.held[m..])
  }

  lemma HeldOneMore(c: Ctx, r: Result, m: nat, n: nat, mapped: bool, now: nat)
    requires m < |c.outQ.held| && HeldSoFar(c, r, m)
    ensures c.outQ.held[m] < |r.ctx.outBufs|
    ensures QueueSafe(r.ctx, c.outQ.held[m]) ==>
      HeldSoFar(c, Same(BufQueueOut(r.ctx, c.outQ.held[m], mapped, now), n), m + 1)
    ensures HeldSoFar(c, r.(fault := true), m + 1) && HeldSoFar(c, r, m + 1)
  {
    var rest := c.outQ.held[m..];
    assert rest[1..] == c.outQ.held[m + 1..];
    HeldNext(r.ctx, rest);
    if QueueSafe(r.ctx, rest[0]) { QueueKeeps(r.ctx, rest[0], mapped, now, rest[1..]); }
  }

  lemma {:induction false} HeldKeeps(c: Ctx, m: nat, n: nat, mapped: bool, now: nat)
    requires m <= |c.outQ.held| && OutOk(c, c.outQ.held)
    ensures HeldSoFar(c, QueueHeld(c, c.outQ.held[..m], n, mapped, now), m)
  {
    var held := c.outQ.held;
    if m == 0 {
      assert held[..0] == [] && held[0..] == held;
    } else {
      HeldKeeps(c, m - 1, n, mapped, now);
      assert held[..m][..m - 1] == held[..m - 1];
      HeldOneMore(c, QueueHeld(c, held[..m - 1], n, mapped, now), m - 1, n, mapped, now);
    }
  }

  lemma HeldNext(c: Ctx, rest: seq<nat>)
    requires rest != [] && OutOk(c, rest)
    ensures rest[0] < |c.outBufs| && c.outBufs[rest[0]].state == QUEUED && rest[0] !in rest[1..]
    ensures OutOk(c, rest[1..])
  {
  }

  // ---- the other steps ----

  /** Controls, formats and the CAPTURE side: nothing the invariant reads. */
  lemma SameOutput(c: Ctx, c': Ctx)
    requires CtxOk(c) && c'.outBufs == c.outBufs && c'.outQ == c.outQ && !P.NoGeometry(Shape(c'.outFmt))
    requires c'.src == c.src && c'.jobs == c.jobs && c'.tickets == c.tickets
    ensures CtxOk(c')
  {
    assert forall k :: 0 <= k < |c.outQ.ready| ==> ReadyOk(c.outBufs[c.outQ.ready[k]], c');
  }

  lemma QBufOutKeeps(c: Ctx, n: nat, i: nat, plane: Option<Plane>, mapped: bool, now: nat)
    requires CtxOk(c)
    ensures CtxOk(QBufOut(c, n, i, plane, mapped, now).ctx)
  {
    if i < |c.outBufs| && InUser(c.outBufs[i].state) {
      var b := Handed(c.outBufs[i], plane);
      BufferAside(c, PutOut(c, i, b), i);
      if c.outQ.on { QueueNow(PutOut(c, i, b), i, mapped, now); } else { HoldKeeps(c, i, b); }
    }
  }

  lemma QueueNow(c: Ctx, i: nat, mapped: bool, now: nat)
    requires CtxOk(c) && c.outQ.on && i < |c.outBufs| && InUser(c.outBufs[i].state)
    ensures QueueSafe(c, i) ==> CtxOk(BufQueueOut(c, i, mapped, now))
  {
    if QueueSafe(c, i) { QueueKeeps(c, i, mapped, now, c.outQ.held); }
  }

  lemma HoldKeeps(c: Ctx, i: nat, b: OutBuf)
    requires CtxOk(c) && !c.outQ.on && i < |c.outBufs| && InUser(c.outBufs[i].state)
    ensures CtxOk(HoldOut(c, i, b))
  {
    BufferAside(c, c.(outBufs := c.outBufs[i := b.(state := QUEUED)]), i);
    assert i !in c.outQ.held;
  }

  /** A buffer that is neither held nor ready may change freely. */
  lemma BufferAside(c: Ctx, c': Ctx, i: nat)
    requires CtxOk(c) && i < |c.outBufs| && InUser(c.outBufs[i].state)
    requires |c'.outBufs| == |c.outBufs| && c' == c.(outBufs := c.outBufs[i := c'.outBufs[i]])
    ensures CtxOk(c')
  {
    assert forall k :: 0 <= k < |c.outQ.ready| ==> c.outQ.ready[k] != i;
    assert forall k :: 0 <= k < |c.outQ.ready| ==> ReadyOk(c'.outBufs[c.outQ.ready[k]], c');
  }

  lemma StreamOnOutKeeps(c: Ctx, n: nat, params: P.Params, mapped: bool, now: nat)
    requires CtxOk(c)
    ensures CtxOk(StreamOnOut(c, n, params, mapped, now).ctx)
  {
    if !c.outQ.on && c.outBufs != [] {
      var held := c.outQ.held;
      HeldKeeps(c, |held|, n, mapped, now);
      assert held[..|held|] == held && held[|held|..] == [];
      var r, c' := QueueHeld(c, held, n, mapped, now), StreamOnOut(c, n, params, mapped, now).ctx;
      assert forall k :: 0 <= k < |c'.outQ.ready| ==> ReadyOk(r.ctx.outBufs[c'.outQ.ready[k]], c');
    }
  }

  /** The first ready buffer is served. */
  lemma RunKeepsOut(c: Ctx, c': Ctx)
    requires CtxOk(c) && c.outQ.ready != [] && |c'.outBufs| == |c.outBufs|
    requires c'.outBufs == c.outBufs[c.outQ.ready[0] := c'.outBufs[c.outQ.ready[0]]]
    requires c'.outQ.ready == c.outQ.ready[1..] && c'.outQ.held == c.outQ.held && c'.src == c.src
    requires c'.tickets == c.tickets
    requires c'.outQ.on == c.outQ.on && c'.outFmt == c.outFmt
    requires c'.outQ.done == c.outQ.done + [c.outQ.ready[0]] && c'.outBufs[c.outQ.ready[0]].state in {DONE, ERROR}
    requires |c'.jobs| == |c.jobs| + 1 && c'.jobs[..|c.jobs|] == c.jobs
    requires c'.jobs[|c.jobs|].given.src.ticket == c.outBufs[c.outQ.ready[0]].ticket
    ensures OutOk(c', c'.outQ.held)
  {
    var i := c.outQ.ready[0];
    assert Listed(c'.outBufs, c'.outQ.ready, {ACTIVE}) && Listed(c'.outBufs, c'.outQ.done, {DONE, ERROR});
    assert Listed(c'.outBufs, c'.outQ.held, {QUEUED});
    RunTickets(c, c');
    RunOrigins(c, c');
    forall k | 0 <= k < |c'.outQ.ready|
      ensures ReadyOk(c'.outBufs[c'.outQ.ready[k]], c')
    {
      assert ReadyOk(c.outBufs[c.outQ.ready[k + 1]], c);
    }
  }

  lemma RunTickets(c: Ctx, c': Ctx)
    requires Listed(c.outBufs, c.outQ.ready, {ACTIVE}) && Listed(c'.outBufs, c'.outQ.ready, {ACTIVE}) && TicketOrder(c)
    requires c.outQ.ready != [] && |c'.outBufs| == |c.outBufs| && c'.outQ.ready == c.outQ.ready[1..]
    requires c'.tickets == c.tickets
    requires c'.outBufs == c.outBufs[c.outQ.ready[0] := c'.outBufs[c.outQ.ready[0]]]
    requires c.outBufs[c.outQ.ready[0]].ticket < c.tickets
    requires |c'.jobs| == |c.jobs| + 1 && c'.jobs[..|c.jobs|] == c.jobs
    requires c'.jobs[|c.jobs|].given.src.ticket == c.outBufs[c.outQ.ready[0]].ticket
    ensures TicketOrder(c')
  {
    assert forall m :: 0 <= m < |c.jobs| ==> c'.jobs[m] == c.jobs[m];
    assert forall k :: 0 <= k < |c'.outQ.ready| ==> c'.outQ.ready[k] == c.outQ.ready[k + 1] != c.outQ.ready[0];
  }

  lemma RunOrigins(c: Ctx, c': Ctx)
    requires Listed(c.outBufs, c.outQ.ready, {ACTIVE}) && Listed(c'.outBufs, c'.outQ.ready, {ACTIVE}) && OriginOrder(c)
    requires c.outQ.ready != [] && |c'.outBufs| == |c.outBufs| && c'.outQ.ready == c.outQ.ready[1..]
    requires c'.outBufs == c.outBufs[c.outQ.ready[0] := c'.outBufs[c.outQ.ready[0]]]
    ensures OriginOrder(c')
  {
    assert forall k :: 0 <= k < |c'.outQ.ready| ==> c'.outQ.ready[k] == c.outQ.ready[k + 1] != c.outQ.ready[0];
  }

  lemma FailedKeeps(c: Ctx, mapped: bool, now: nat, cpu: nat)
    requires CtxOk(c) && CanRun(c)
    ensures CtxOk(FailedJob(c, mapped, now, cpu))
  {
    RunKeepsOut(c, FailedJob(c, mapped, now, cpu));
  }

  lemma RunKeeps(c: Ctx, n: nat, mapped: bool, cpu: nat, now: nat)
    requires CtxOk(c) && CanRun(c)
    ensures CtxOk(DeviceRun(c, n, mapped, now, cpu).ctx)
  {
    var r := DeviceRun(c, n, mapped, now, cpu);
    if !r.fault {
      if r.sequence == n { FailedKeeps(c, mapped, now, cpu); } else { RunKeepsOut(c, r.ctx); }
    }
  }

  /** An OUTPUT queue that is emptied. */
  lemma Emptied(c: Ctx, c': Ctx)
    requires CtxOk(c) && Source.Numbered(c'.src) && SourceRuns(c') && c'.jobs == c.jobs && c'.tickets == c.tickets
    requires c'.outQ.held == [] && c'.outQ.ready == [] && c'.outQ.done == []
    ensures CtxOk(c')
  {
  }

  /** Further buffers that nobody has queued yet. */
  lemma AppendKeeps(c: Ctx, c': Ctx, more: seq<OutBuf>)
    requires CtxOk(c) && c' == c.(outBufs := c.outBufs + more)
    ensures CtxOk(c')
  {
    assert forall k :: 0 <= k < |c.outQ.ready| ==> c'.outBufs[c.outQ.ready[k]] == c.outBufs[c.outQ.ready[k]];
    assert forall k :: 0 <= k < |c.outQ.ready| ==> ReadyOk(c'.outBufs[c.outQ.ready[k]], c');
  }

  predicate OnCapture(a: Action) {
    || a.ActQBufCap? || a.ActStreamOnCap? || a.ActStreamOffCap? || a.ActDqBufCap?
    || ((a.ActReqBufs? || a.ActCreateBufs? || a.ActPrepare?) && !a.out)
  }

  predicate OnOutput(a: Action) {
    || a.ActSetFmt? || a.ActSetCtl? || ((a.ActReqBufs? || a.ActCreateBufs? || a.ActPrepare?) && a.out)
    || a.ActStreamOffOut? || a.ActDqBufOut? || a.ActSetBackend?
  }

  lemma CaptureKeeps(c: Ctx, n: nat, now: nat, a: Action)
    requires CtxOk(c) && OnCapture(a)
    ensures CtxOk(CtxStep(c, n, now, a).ctx)
  {
    SameOutput(c, CtxStep(c, n, now, a).ctx);
  }

  /** A new source starts with an empty ready queue, so nothing it did not stamp is ready. */
  lemma SwitchKeeps(c: Ctx, c': Ctx)
    requires CtxOk(c) && !c.outQ.on && c' == c.(src := c'.src) && Source.Numbered(c'.src) && SourceRuns(c')
    ensures CtxOk(c')
  {
  }

  lemma DqBufOutKeeps(c: Ctx, n: nat)
    requires CtxOk(c)
    ensures CtxOk(DqBufOut(c, n).ctx)
  {
    if c.outQ.done != [] {
      var i, c' := c.outQ.done[0], DqBufOut(c, n).ctx;
      assert forall k :: 0 <= k < |c.outQ.ready| ==> c.outQ.ready[k] != i;
      assert forall k :: 0 <= k < |c.outQ.ready| ==> ReadyOk(c'.outBufs[c.outQ.ready[k]], c');
    }
  }

  lemma EmptiedKeeps(c: Ctx, n: nat, now: nat, a: Action)
    requires CtxOk(c) && (a.ActStreamOffOut? || (a.ActReqBufs? && a.out))
    ensures CtxOk(CtxStep(c, n, now, a).ctx)
  {
    if a.ActStreamOffOut? {
      Emptied(c, StreamOffOut(c, n).ctx);
    } else if !c.outQ.on {
      Emptied(c, ReqBufsOut(c, n, a.memory, a.planes).ctx);
    }
  }

  lemma CreateKeeps(c: Ctx, n: nat, memory: Memory, planes: seq<Plane>)
    requires CtxOk(c)
    ensures CtxOk(CreateOut(c, n, memory, planes).ctx)
  {
    var c' := CreateOut(c, n, memory, planes).ctx;
    if c' != c { AppendKeeps(c, c', FreshOut(memory, AtLeastTwo(planes))); }
  }

  lemma PrepareKeeps(c: Ctx, n: nat, i: nat, plane: Option<Plane>)
    requires CtxOk(c)
    ensures CtxOk(PrepareOut(c, n, i, plane).ctx)
  {
    var c' := PrepareOut(c, n, i, plane).ctx;
    if c' != c { BufferAside(c, c', i); }
  }

  /** Controls, formats and the backend: the buffers and the queue stay. */
  lemma SettingKeeps(c: Ctx, n: nat, now: nat, a: Action)
    requires CtxOk(c) && (a.ActSetBackend? || a.ActSetFmt? || a.ActSetCtl?)
    ensures CtxOk(CtxStep(c, n, now, a).ctx)
  {
    var c' := CtxStep(c, n, now, a).ctx;
    if c'.src != c.src { SwitchKeeps(c, c'); } else { SameOutput(c, c'); }
  }

  lemma OutputKeeps(c: Ctx, n: nat, now: nat, a: Action)
    requires CtxOk(c) && OnOutput(a)
    ensures CtxOk(CtxStep(c, n, now, a).ctx)
  {
    match a
    case ActStreamOffOut => EmptiedKeeps(c, n, now, a);
    case ActReqBufs(out, memory, planes) => EmptiedKeeps(c, n, now, a);
    case ActDqBufOut => DqBufOutKeeps(c, n);
    case ActCreateBufs(out, memory, planes) => CreateKeeps(c, n, memory, planes);
    case ActPrepare(out, i, plane) => PrepareKeeps(c, n, i, plane);
    case _ => SettingKeeps(c, n, now, a);
  }

  /** Every callback keeps the stamps and the order of the OUTPUT side. */
  lemma CtxStepKeeps(c: Ctx, n: nat, now: nat, a: Action)
    requires CtxOk(c)
    ensures CtxOk(CtxStep(c, n, now, a).ctx)
  {
    match a
    case ActQBufOut(i, plane, mapped) => QBufOutKeeps(c, n, i, plane, mapped, now);
    case ActStreamOnOut(params, mapped) => StreamOnOutKeeps(c, n, params, mapped, now);
    case ActRun(mapped, cpu) => if CanRun(c) { RunKeeps(c, n, mapped, cpu, now); }
    case _ => if OnCapture(a) { CaptureKeeps(c, n, now, a); } else { OutputKeeps(c, n, now, a); }
  }

  // ---- time ----

  /** Pending entries are stamped in order and in the past. */
  ghost predicate CapOk(bufs: seq<CapBuf>, clock: nat) {
    forall i :: 0 <= i < |bufs| ==> bufs[i].pending.qbufTs <= bufs[i].pending.captureDoneTs <= clock
  }

  /** Ready buffers were queued in the past. */
  ghost predicate QueuedBy(bufs: seq<OutBuf>, clock: nat) {
    forall i :: 0 <= i < |bufs| && bufs[i].state == ACTIVE ==> bufs[i].qbufNs <= clock
  }

  ghost predicate TimesOk(c: Ctx, clock: nat) { QueuedBy(c.outBufs, clock) && CapOk(c.capBufs, clock) }

  /** A published entry's timeline: queued, then captured, then dequeued. */
  ghost predicate TimelineOk(e: Meta.Entry) { e.qbufTs <= e.captureDoneTs <= e.dqbufTs }

  lemma TimesLater(c: Ctx, clock: nat, now: nat)
    requires TimesOk(c, clock) && clock <= now
    ensures TimesOk(c, now)
  {
  }

  lemma FinishTimes(bufs: seq<CapBuf>, i: nat, now: nat)
    requires i < |bufs| && CapOk(bufs, now)
    ensures CapOk(BufFinish(bufs, i, now).0, now)
    ensures forall e :: e in BufFinish(bufs, i, now).1 ==> TimelineOk(e)
  {
  }

  lemma {:induction false} FinishFirstTimes(bufs: seq<CapBuf>, m: nat, now: nat)
    requires m <= |bufs| && CapOk(bufs, now)
    ensures CapOk(FinishFirst(bufs, m, now).0, now)
    ensures forall e :: e in FinishFirst(bufs, m, now).1 ==> TimelineOk(e)
  {
    if m > 0 {
      FinishFirstTimes(bufs, m - 1, now);
      FinishTimes(FinishFirst(bufs, m - 1, now).0, m - 1, now);
    }
  }

  lemma DqBufCapTimes(c: Ctx, n: nat, now: nat)
    requires TimesOk(c, now)
    ensures TimesOk(DqBufCap(c, n, now).ctx, now)
    ensures forall e :: e in DqBufCap(c, n, now).pubs ==> TimelineOk(e)
  {
    if c.capQ.done != [] && c.capQ.done[0] < |c.capBufs| { FinishTimes(c.capBufs, c.capQ.done[0], now); }
  }

  lemma StreamOffCapTimes(c: Ctx, n: nat, now: nat)
    requires TimesOk(c, now)
    ensures TimesOk(StreamOffCap(c, n, now).ctx, now)
    ensures forall e :: e in StreamOffCap(c, n, now).pubs ==> TimelineOk(e)
  {
    FinishFirstTimes(c.capBufs, |c.capBufs|, now);
  }

  /** Queueing held buffers stamps them now and publishes nothing. */
  lemma {:induction false} HeldTimes(c: Ctx, list: seq<nat>, n: nat, mapped: bool, now: nat)
    requires QueuedBy(c.outBufs, now)
    ensures var r := QueueHeld(c, list, n, mapped, now);
      QueuedBy(r.ctx.outBufs, now) && r.ctx.capBufs == c.capBufs && r.pubs == []
    decreases |list|
  {
    if list != [] { HeldTimes(c, list[..|list| - 1], n, mapped, now); }
  }

  /** A job takes its entry's queue time from the buffer it serves. */
  lemma RunTimes(c: Ctx, n: nat, mapped: bool, cpu: nat, now: nat)
    requires TimesOk(c, now) && CanRun(c) && c.outBufs[c.outQ.ready[0]].state == ACTIVE
    ensures var r := DeviceRun(c, n, mapped, now, cpu); TimesOk(r.ctx, now) && r.pubs == []
  {
  }

  lemma StepTimes(c: Ctx, n: nat, now: nat, a: Action)
    requires CtxOk(c) && TimesOk(c, now)
    ensures TimesOk(CtxStep(c, n, now, a).ctx, now)
    ensures forall e :: e in CtxStep(c, n, now, a).pubs ==> TimelineOk(e)
  {
    match a
    case ActQBufOut(i, plane, mapped) => QBufOutTimes(c, n, i, plane, mapped, now);
    case ActStreamOnOut(params, mapped) => HeldTimes(c, c.outQ.held, n, mapped, now);
    case ActRun(mapped, cpu) => if CanRun(c) { RunTimes(c, n, mapped, cpu, now); }
    case _ => if OnCapture(a) { CaptureTimes(c, n, now, a); } else { OutputTimes(c, n, now, a); }
  }

  lemma QBufOutTimes(c: Ctx, n: nat, i: nat, plane: Option<Plane>, mapped: bool, now: nat)
    requires TimesOk(c, now)
    ensures var r := QBufOut(c, n, i, plane, mapped, now); TimesOk(r.ctx, now) && r.pubs == []
  {
  }

  lemma CaptureTimes(c: Ctx, n: nat, now: nat, a: Action)
    requires TimesOk(c, now) && OnCapture(a)
    ensures TimesOk(CtxStep(c, n, now, a).ctx, now)
    ensures forall e :: e in CtxStep(c, n, now, a).pubs ==> TimelineOk(e)
  {
    match a
    case ActStreamOffCap => StreamOffCapTimes(c, n, now);
    case ActDqBufCap => DqBufCapTimes(c, n, now);
    case _ =>
  }

  lemma OutputTimes(c: Ctx, n: nat, now: nat, a: Action)
    requires TimesOk(c, now) && OnOutput(a)
    ensures TimesOk(CtxStep(c, n, now, a).ctx, now) && CtxStep(c, n, now, a).pubs == []
  {
  }

  // ---- the device ----

  ghost predicate Monotone(es: seq<Event>) { forall i, j :: 0 <= i < j < |es| ==> es[i].now <= es[j].now }

  ghost predicate DevOk(d: Dev) { forall f :: f in d.ctxs ==> CtxOk(d.ctxs[f]) }

  lemma StepKeeps(d: Dev, e: Event)
    requires DevOk(d)
    ensures DevOk(Step(d, e))
  {
    if e.ctx in d.ctxs && !d.faulted { CtxStepKeeps(d.ctxs[e.ctx], d.sequence, e.now, e.act); }
  }

  /** A context without buffers or history. */
  lemma QuietOk(c: Ctx)
    requires c.outBufs == [] && c.outQ == IDLE && c.jobs == [] && Source.Numbered(c.src) && SourceRuns(c)
    ensures CtxOk(c)
  {
  }

  lemma OpenedOk()
    ensures CtxOk(OPENED) && TimesOk(OPENED, 0)
  {
    QuietOk(OPENED);
  }

  lemma {:induction false} RunKeepsFrom(d: Dev, es: seq<Event>)
    requires DevOk(d)
    ensures DevOk(M2m.Run(d, es))
  {
    if es != [] {
      RunKeepsFrom(d, es[..|es| - 1]);
      StepKeeps(M2m.Run(d, es[..|es| - 1]), es[|es| - 1]);
    }
  }

  lemma RunKeepsDev(d: Dev, es: seq<Event>)
    requires Initial(d)
    ensures DevOk(M2m.Run(d, es))
  {
    OpenedOk();
    RunKeepsFrom(d, es);
  }

  ghost predicate DevTimes(d: Dev) {
    && (forall f :: f in d.ctxs ==> TimesOk(d.ctxs[f], d.clock))
    && (forall i :: 0 <= i < |d.log| ==> TimelineOk(d.log[i].1))
  }

  lemma DevStepTimes(d: Dev, e: Event)
    requires DevOk(d) && DevTimes(d) && d.clock <= e.now
    ensures DevTimes(Step(d, e))
  {
    forall f | f in d.ctxs ensures TimesOk(d.ctxs[f], e.now) { TimesLater(d.ctxs[f], d.clock, e.now); }
    if e.ctx in d.ctxs && !d.faulted { StepTimes(d.ctxs[e.ctx], d.sequence, e.now, e.act); }
  }

  lemma {:induction false} RunKeepsTimes(d: Dev, es: seq<Event>)
    requires Initial(d) && Monotone(es)
    ensures DevTimes(M2m.Run(d, es)) && M2m.Run(d, es).clock == if es == [] then 0 else es[|es| - 1].now
  {
    if es == [] {
      OpenedOk();
    } else {
      RunKeepsTimes(d, es[..|es| - 1]);
      RunKeepsDev(d, es[..|es| - 1]);
      DevStepTimes(M2m.Run(d, es[..|es| - 1]), es[|es| - 1]);
    }
  }

  /**
   * In every reachable state of every context: its source numbers calls 0, 1, 2, ... modulo
   * 2^32; a ready OUTPUT buffer was stamped by that very source, or carries backend 0. It carries
   * backend 0 exactly when the source is not the fixture and the buffer reached `buf_queue` before
   * `start_streaming`, or its plane had no address, or the frame did not fit. Stamped buffers
   * stand in the ready queue in the order of the source's numbers, so no two share one; and jobs
   * serve OUTPUT buffers in queue order, each at most once.
   */
  lemma ProvenanceKept(d: Dev, es: seq<Event>, f: nat)
    requires Initial(d) && f in M2m.Run(d, es).ctxs
    ensures var c := M2m.Run(d, es).ctxs[f];
      && Source.Numbered(c.src) && Listed(c.outBufs, c.outQ.ready, {ACTIVE}) && OriginOrder(c)
      && (forall k :: 0 <= k < |c.outQ.ready| ==> var b := c.outBufs[c.outQ.ready[k]];
            StampedBy(b, c.src) && (Stamped(b) <==> StampDue(b, c.src.backend)))
      && (forall m, k :: 0 <= m < k < |c.jobs| ==> c.jobs[m].given.src.ticket < c.jobs[k].given.src.ticket)
  {
    RunKeepsDev(d, es);
    var c := M2m.Run(d, es).ctxs[f];
    forall k | 0 <= k < |c.outQ.ready|
      ensures ReadyOk(c.outBufs[c.outQ.ready[k]], c)
    {
    }
  }

  /** With a monotone clock, every published entry has qbuf <= capture_done <= dqbuf. */
  lemma TimelineKept(d: Dev, es: seq<Event>, i: nat)
    requires Initial(d) && Monotone(es) && i < |M2m.Run(d, es).log|
    ensures TimelineOk(M2m.Run(d, es).log[i].1)
  {
    RunKeepsTimes(d, es);
  }
}
